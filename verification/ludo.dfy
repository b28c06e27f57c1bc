/**
  The rules of "Člověče, nezlob se" (cns/index.js), a Ludo variant for four
  players with four figures each, separated from the page they live in.

  The page keeps the game in the document tree: a figure is a button whose
  parent element is the field, home house or destination house it stands on.
  Here the same state is explicit: figure f (0..15, created house by house, so
  that figure f belongs to player f / 4) stands on places[f]. Fields are
  numbered 0..39 in the order the board walk creates them; home houses and
  destination houses are numbered 0..3 per player in document order.
*/
module Ludo {
  import opened Wrappers

  const NUMBER_OF_PLAYERS: int := 4
  /** Every player owns four figures, four home houses and four destination houses. */
  const FIGURES_PER_PLAYER: int := 4
  const FIGURE_COUNT: int := NUMBER_OF_PLAYERS * FIGURES_PER_PLAYER
  const FIELD_COUNT: int := 40
  /** fieldElms.length / NUMBER_OF_PLAYERS: the fields between two start fields. */
  const SECTION_LENGTH: int := FIELD_COUNT / NUMBER_OF_PLAYERS

  // ---------------------------------------------------------------------------
  // The board walk (createBoard)
  // ---------------------------------------------------------------------------

  datatype Side = Top | Right | Bottom | Left
  datatype Pos = Pos(x: int, y: int)

  /** PATH_OF_BOARD: one section per player, each a list of (direction, steps). */
  const PATH_OF_BOARD: seq<seq<(Side, nat)>> := [
    [(Right, 2), (Bottom, 4), (Right, 4)],
    [(Bottom, 2), (Left, 4), (Bottom, 4)],
    [(Left, 2), (Top, 4), (Left, 4)],
    [(Top, 2), (Right, 4), (Top, 4)]
  ]

  /** Where both walks of createBoard start. */
  const ORIGIN: Pos := Pos(4, 0)

  /** The position n steps from p toward side s. */
  function Offset(p: Pos, s: Side, n: int): Pos
  {
    match s
    case Top => Pos(p.x, p.y - n)
    case Right => Pos(p.x + n, p.y)
    case Bottom => Pos(p.x, p.y + n)
    case Left => Pos(p.x - n, p.y)
  }

  /** The n positions visited by n steps from p toward s. */
  function Leg(p: Pos, s: Side, n: nat): (ps: seq<Pos>)
    ensures |ps| == n
  {
    seq(n, k requires 0 <= k < n => Offset(p, s, k + 1))
  }

  /** One section of the path: a list of (direction, steps) legs. */
  type Section = seq<(Side, nat)>

  /** Where the first j legs of a section, walked from p, end. */
  function LegsEnd(p: Pos, legs: Section, j: nat): Pos
    requires j <= |legs|
  {
    if j == 0 then p else Offset(LegsEnd(p, legs, j - 1), legs[j - 1].0, legs[j - 1].1)
  }

  /** The positions visited by the first j legs of a section, walked from p. */
  function Legs(p: Pos, legs: Section, j: nat): seq<Pos>
    requires j <= |legs|
  {
    if j == 0 then [] else Legs(p, legs, j - 1) + Leg(LegsEnd(p, legs, j - 1), legs[j - 1].0, legs[j - 1].1)
  }

  /** Where the walk of the first i sections, from p, ends. */
  function WalkEnd(p: Pos, secs: seq<Section>, i: nat): Pos
    requires i <= |secs|
  {
    if i == 0 then p else LegsEnd(WalkEnd(p, secs, i - 1), secs[i - 1], |secs[i - 1]|)
  }

  /** The positions visited by the walk of the first i sections, from p: one field each. */
  function Walk(p: Pos, secs: seq<Section>, i: nat): seq<Pos>
    requires i <= |secs|
  {
    if i == 0 then [] else Walk(p, secs, i - 1) + Legs(WalkEnd(p, secs, i - 1), secs[i - 1], |secs[i - 1]|)
  }

  /** The number of steps of the first j legs of a section. */
  function LegSteps(legs: Section, j: nat): nat
    requires j <= |legs|
  {
    if j == 0 then 0 else LegSteps(legs, j - 1) + legs[j - 1].1
  }

  /** The number of steps of the first i sections. */
  function Steps(secs: seq<Section>, i: nat): nat
    requires i <= |secs|
  {
    if i == 0 then 0 else Steps(secs, i - 1) + LegSteps(secs[i - 1], |secs[i - 1]|)
  }

  /** The indices of the fields marked as start fields while walking the first i
      sections: the second step of the first leg of every section, that is the
      field after the ones placed by the sections before it. */
  function Starts(secs: seq<Section>, i: nat): seq<int>
    requires i <= |secs|
  {
    if i == 0 then []
    else
      var last := secs[i - 1];
      Starts(secs, i - 1) + (if |last| > 0 && last[0].1 > 1 then [Steps(secs, i - 1) + 1] else [])
  }

  /** Every step of a leg places one field. */
  lemma {:induction false} LegsLength(p: Pos, legs: Section, j: nat)
    requires j <= |legs|
    ensures |Legs(p, legs, j)| == LegSteps(legs, j)
  {
    if j > 0 {
      LegsLength(p, legs, j - 1);
    }
  }

  /** The walk of the first i sections visits one position per step. */
  lemma {:induction false} WalkLength(p: Pos, secs: seq<Section>, i: nat)
    requires i <= |secs|
    ensures |Walk(p, secs, i)| == Steps(secs, i)
  {
    if i > 0 {
      WalkLength(p, secs, i - 1);
      LegsLength(WalkEnd(p, secs, i - 1), secs[i - 1], |secs[i - 1]|);
    }
  }

  /** The first loop of createBoard: it draws the lines between fields (left
      out) and moves currentPositionOnPath along the whole path. */
  method TraceLines(from: Pos) returns (pos: Pos)
    ensures pos == WalkEnd(from, PATH_OF_BOARD, |PATH_OF_BOARD|)
  {
    pos := from;
    var i := 0;
    while i < |PATH_OF_BOARD|
      invariant 0 <= i <= |PATH_OF_BOARD| && pos == WalkEnd(from, PATH_OF_BOARD, i)
    {
      var section := PATH_OF_BOARD[i];
      ghost var sectionStart := pos;
      var j := 0;
      while j < |section|
        invariant 0 <= j <= |section| && pos == LegsEnd(sectionStart, section, j)
      {
        var (direction, steps) := section[j];
        ghost var legStart := pos;
        var step := 0;
        while step < steps
          invariant 0 <= step <= steps && pos == Offset(legStart, direction, step)
        {
          pos := Offset(pos, direction, 1);
          step := step + 1;
        }
        j := j + 1;
      }
      i := i + 1;
    }
  }

  /** One leg of the second loop of createBoard: a field per step, the second
      step of a section's first leg marked as a start field. */
  method PlaceLeg(pos: Pos, direction: Side, steps: nat, first: bool, fields: seq<Pos>, starts: seq<int>)
    returns (pos': Pos, fields': seq<Pos>, starts': seq<int>)
    ensures pos' == Offset(pos, direction, steps)
    ensures fields' == fields + Leg(pos, direction, steps)
    ensures starts' == starts + (if first && steps > 1 then [|fields| + 1] else [])
  {
    pos', fields', starts' := pos, fields, starts;
    var step := 0;
    while step < steps
      invariant 0 <= step <= steps && pos' == Offset(pos, direction, step)
      invariant fields' == fields + Leg(pos, direction, step)
      invariant starts' == starts + (if first && step > 1 then [|fields| + 1] else [])
    {
      pos' := Offset(pos', direction, 1);
      if first && step == 1 {
        starts' := starts' + [|fields'|];
      }
      fields' := fields' + [pos'];
      step := step + 1;
    }
  }

  /** One section of the second loop of createBoard: its legs one after the other. */
  method PlaceSection(pos: Pos, section: Section, fields: seq<Pos>, starts: seq<int>)
    returns (pos': Pos, fields': seq<Pos>, starts': seq<int>)
    ensures pos' == LegsEnd(pos, section, |section|)
    ensures fields' == fields + Legs(pos, section, |section|)
    ensures starts' == starts + (if |section| > 0 && section[0].1 > 1 then [|fields| + 1] else [])
  {
    pos', fields', starts' := pos, fields, starts;
    var j := 0;
    while j < |section|
      invariant 0 <= j <= |section| && pos' == LegsEnd(pos, section, j)
      invariant fields' == fields + Legs(pos, section, j)
      invariant starts' == starts + (if j > 0 && section[0].1 > 1 then [|fields| + 1] else [])
    {
      var (direction, steps) := section[j];
      pos', fields', starts' := PlaceLeg(pos', direction, steps, j == 0, fields', starts');
      j := j + 1;
    }
  }

  /** The second loop of createBoard: it places the forty fields along the path
      from where the first loop left currentPositionOnPath. */
  method PlaceFields(from: Pos) returns (pos: Pos, fields: seq<Pos>, starts: seq<int>)
    ensures pos == WalkEnd(from, PATH_OF_BOARD, |PATH_OF_BOARD|)
    ensures fields == Walk(from, PATH_OF_BOARD, |PATH_OF_BOARD|)
    ensures starts == Starts(PATH_OF_BOARD, |PATH_OF_BOARD|)
  {
    pos, fields, starts := from, [], [];
    var i := 0;
    while i < |PATH_OF_BOARD|
      invariant 0 <= i <= |PATH_OF_BOARD| && pos == WalkEnd(from, PATH_OF_BOARD, i)
      invariant fields == Walk(from, PATH_OF_BOARD, i) && starts == Starts(PATH_OF_BOARD, i)
    {
      WalkLength(from, PATH_OF_BOARD, i);
      pos, fields, starts := PlaceSection(pos, PATH_OF_BOARD[i], fields, starts);
      i := i + 1;
    }
  }

  /** createBoard(): the fields in creation order and the indices of the start
      fields, in player order. The forty fields form a closed loop of unit
      steps: each field is next to the one before it, and the first is next to
      the last, (4, 0). */
  method CreateBoard() returns (fields: seq<Pos>, starts: seq<int>)
    ensures |fields| == FIELD_COUNT && fields[FIELD_COUNT - 1] == ORIGIN && Chain(ORIGIN, fields)
    ensures starts == [StartField(0), StartField(1), StartField(2), StartField(3)]
  {
    var pos := TraceLines(ORIGIN);
    PathIsClosed();
    fields, starts := PlaceTrack(pos);
  }

  /** The second loop of createBoard started where the path closes: the fields
      it places lead round the board back to where it started. */
  method PlaceTrack(from: Pos) returns (fields: seq<Pos>, starts: seq<int>)
    requires WalkEnd(from, PATH_OF_BOARD, |PATH_OF_BOARD|) == from
    ensures |fields| == FIELD_COUNT && fields[FIELD_COUNT - 1] == from && Chain(from, fields)
    ensures starts == [StartField(0), StartField(1), StartField(2), StartField(3)]
  {
    var pos;
    PathCounts();
    pos, fields, starts := PlaceFields(from);
    ClosedWalk(from, PATH_OF_BOARD, |PATH_OF_BOARD|, FIELD_COUNT);
  }

  /** Walking PATH_OF_BOARD from (4, 0) ends back at (4, 0), so the second loop
      of createBoard starts where the first one did. */
  lemma PathIsClosed()
    ensures WalkEnd(ORIGIN, PATH_OF_BOARD, |PATH_OF_BOARD|) == ORIGIN
  {
  }

  /** PATH_OF_BOARD has forty steps, and section i's start field is field
      10 * i + 1, the start field of player i. */
  lemma PathCounts()
    ensures Steps(PATH_OF_BOARD, |PATH_OF_BOARD|) == FIELD_COUNT
    ensures Starts(PATH_OF_BOARD, |PATH_OF_BOARD|) == [StartField(0), StartField(1), StartField(2), StartField(3)]
  {
  }

  /** Two positions one unit step apart. */
  predicate Adjacent(a: Pos, b: Pos)
  {
    (a.x == b.x && (a.y - b.y == 1 || b.y - a.y == 1)) || (a.y == b.y && (a.x - b.x == 1 || b.x - a.x == 1))
  }

  /** ps is a walk of unit steps starting one step from p. */
  predicate Chain(p: Pos, ps: seq<Pos>)
  {
    && (|ps| > 0 ==> Adjacent(p, ps[0]))
    && forall k :: 0 < k < |ps| ==> Adjacent(ps[k - 1], ps[k])
  }

  function LastOf(p: Pos, ps: seq<Pos>): Pos
  {
    if |ps| == 0 then p else ps[|ps| - 1]
  }

  lemma ChainAppend(p: Pos, a: seq<Pos>, b: seq<Pos>)
    requires Chain(p, a) && Chain(LastOf(p, a), b)
    ensures Chain(p, a + b) && LastOf(p, a + b) == LastOf(LastOf(p, a), b)
  {
    var ab := a + b;
    forall k | 0 < k < |ab|
      ensures Adjacent(ab[k - 1], ab[k])
    {
      if k > |a| {
        assert ab[k - 1] == b[k - 1 - |a|] && ab[k] == b[k - |a|];
      } else if k == |a| {
        assert ab[k] == b[0];
      }
    }
  }

  /** A leg is a walk of unit steps that ends n steps from p. */
  lemma LegChain(p: Pos, s: Side, n: nat)
    ensures Chain(p, Leg(p, s, n)) && LastOf(p, Leg(p, s, n)) == Offset(p, s, n)
  {
  }

  lemma {:induction false} LegsChain(p: Pos, legs: Section, j: nat)
    requires j <= |legs|
    ensures Chain(p, Legs(p, legs, j)) && LastOf(p, Legs(p, legs, j)) == LegsEnd(p, legs, j)
  {
    if j > 0 {
      var l := legs[j - 1];
      LegsChain(p, legs, j - 1);
      LegChain(LegsEnd(p, legs, j - 1), l.0, l.1);
      ChainAppend(p, Legs(p, legs, j - 1), Leg(LegsEnd(p, legs, j - 1), l.0, l.1));
    }
  }

  /** Every walk of sections is a walk of unit steps from p to its end. */
  lemma {:induction false} WalkChain(p: Pos, secs: seq<Section>, i: nat)
    requires i <= |secs|
    ensures Chain(p, Walk(p, secs, i)) && LastOf(p, Walk(p, secs, i)) == WalkEnd(p, secs, i)
  {
    if i > 0 {
      var e := WalkEnd(p, secs, i - 1);
      WalkChain(p, secs, i - 1);
      LegsChain(e, secs[i - 1], |secs[i - 1]|);
      ChainAppend(p, Walk(p, secs, i - 1), Legs(e, secs[i - 1], |secs[i - 1]|));
    }
  }

  /** A walk that ends where it started is a closed loop. */
  lemma ClosedWalk(p: Pos, secs: seq<Section>, i: nat, n: nat)
    requires i <= |secs| && WalkEnd(p, secs, i) == p && Steps(secs, i) == n && n > 0
    ensures var t := Walk(p, secs, i); |t| == n && t[n - 1] == p && Chain(p, t)
  {
    WalkLength(p, secs, i);
    WalkChain(p, secs, i);
  }

  // ---------------------------------------------------------------------------
  // Places, figures and the relative position
  // ---------------------------------------------------------------------------

  /** Where a figure can stand. */
  datatype Place = Field(index: int) | House(owner: int, slot: int) | Destination(owner: int, slot: int)

  /** The player a figure belongs to: createFigures gives the figures of the
      houses of player i the class player-i, house by house. */
  function Owner(f: int): int
  {
    f / FIGURES_PER_PLAYER
  }

  predicate IsPlayer(p: int)
  {
    0 <= p < NUMBER_OF_PLAYERS
  }

  predicate IsPlace(pl: Place)
  {
    match pl
    case Field(i) => 0 <= i < FIELD_COUNT
    case House(o, s) => IsPlayer(o) && 0 <= s < FIGURES_PER_PLAYER
    case Destination(o, s) => IsPlayer(o) && 0 <= s < FIGURES_PER_PLAYER
  }

  /** Sixteen figures on sixteen different places; a house of either kind holds
      only a figure of the player it belongs to. */
  predicate ValidBoard(places: seq<Place>)
  {
    && |places| == FIGURE_COUNT
    && (forall f :: 0 <= f < |places| ==> IsPlace(places[f]))
    && (forall f, g :: 0 <= f < g < |places| ==> places[f] != places[g])
    && (forall f :: 0 <= f < |places| && !places[f].Field? ==> places[f].owner == Owner(f))
  }

  /** createFigures(): figure f in home house f % 4 of its owner. */
  function InitialPlaces(): seq<Place>
  {
    seq(FIGURE_COUNT, f requires 0 <= f < FIGURE_COUNT => House(Owner(f), f % FIGURES_PER_PLAYER))
  }

  /** At the start every figure stands in a home house of its owner, one per house. */
  lemma InitialPlacesValid()
    ensures ValidBoard(InitialPlaces())
    ensures forall f :: 0 <= f < FIGURE_COUNT ==> InitialPlaces()[f] == House(Owner(f), f % FIGURES_PER_PLAYER)
  {
    var ps := InitialPlaces();
    forall f, g | 0 <= f < g < FIGURE_COUNT
      ensures ps[f] != ps[g]
    {
      if Owner(f) == Owner(g) {
        assert f % FIGURES_PER_PLAYER != g % FIGURES_PER_PLAYER;
      }
    }
  }

  /** The start field of player p: the field marked start-pos in section p. */
  function StartField(p: int): int
  {
    p * SECTION_LENGTH + 1
  }

  /** playerPosition: how far along its own lap a figure of player p on field
      idx is, counting the start field as 1. */
  function RelativePosition(idx: int, p: int): int
  {
    var pos := idx - p * SECTION_LENGTH;
    if pos <= 0 then pos + FIELD_COUNT else pos
  }

  /** The relative position lies in 1..40, is 1 on the player's start field, and
      counts the fields walked from the start field: starting there and going
      forward pos - 1 fields around the board reaches idx. */
  lemma RelativePositionRange(idx: int, p: int)
    requires 0 <= idx < FIELD_COUNT && IsPlayer(p)
    ensures var pos := RelativePosition(idx, p);
      && 1 <= pos <= FIELD_COUNT
      && (idx == StartField(p) <==> pos == 1)
      && (StartField(p) + pos - 1) % FIELD_COUNT == idx
  {
  }

  /** The place handleFigureClick moves figure f of player p to on a roll of d:
      a figure in a home house goes to the start field on a 6; a figure on the
      path goes d fields on while its lap does not pass 40, into destination
      house pos + d - 41 when it passes by at most 4, and nowhere otherwise; a
      figure in a destination house never moves. */
  function FigureTarget(places: seq<Place>, p: int, d: int, f: int): Option<Place>
    requires 0 <= f < |places| && d >= 0
  {
    match places[f]
    case Destination(_, _) => None
    case House(_, _) => if d == 6 then Some(Field(StartField(p))) else None
    case Field(idx) =>
      var pos := RelativePosition(idx, p);
      if pos + d > FIELD_COUNT then
        if pos + d <= FIELD_COUNT + FIGURES_PER_PLAYER then Some(Destination(p, pos + d - FIELD_COUNT - 1)) else None
      else Some(Field((idx + d) % FIELD_COUNT))
  }

  /** A move along the path advances the figure's relative position by exactly
      the roll; a move into a destination house enters the house pos + d - 41
      of the player; a figure too close to its destination does not move; and
      every target is a place of the board, different from where the figure is. */
  lemma TargetAdvances(places: seq<Place>, p: int, d: int, f: int)
    requires ValidBoard(places) && IsPlayer(p) && 0 <= f < |places| && 1 <= d <= 6
    requires places[f].Field?
    ensures var idx := places[f].index;
      var pos := RelativePosition(idx, p);
      && (pos + d <= FIELD_COUNT ==>
            FigureTarget(places, p, d, f) == Some(Field((idx + d) % FIELD_COUNT))
            && RelativePosition((idx + d) % FIELD_COUNT, p) == pos + d)
      && (FIELD_COUNT < pos + d <= FIELD_COUNT + FIGURES_PER_PLAYER ==>
            FigureTarget(places, p, d, f) == Some(Destination(p, pos + d - FIELD_COUNT - 1)))
      && (pos + d > FIELD_COUNT + FIGURES_PER_PLAYER ==> FigureTarget(places, p, d, f) == None)
      && (FigureTarget(places, p, d, f).Some? ==>
            IsPlace(FigureTarget(places, p, d, f).value) && FigureTarget(places, p, d, f).value != places[f])
  {
    var idx := places[f].index;
    RelativePositionRange(idx, p);
  }

  // ---------------------------------------------------------------------------
  // Looking figures up (querySelector) and moving them (moveFigure)
  // ---------------------------------------------------------------------------

  /** target.querySelector(".figure"): the first figure, from figure k on, that
      stands on t. */
  function Occupant(places: seq<Place>, t: Place, k: nat): (r: Option<int>)
    ensures r.Some? ==> k <= r.value < |places| && places[r.value] == t
    decreases |places| - k
  {
    if k >= |places| then None
    else if places[k] == t then Some(k)
    else Occupant(places, t, k + 1)
  }

  /** Occupant finds a figure on t exactly when there is one, and the one it
      finds is the first. */
  lemma {:induction false} OccupantSpec(places: seq<Place>, t: Place, k: nat)
    ensures match Occupant(places, t, k)
      case Some(g) => k <= g < |places| && places[g] == t && forall h :: k <= h < g ==> places[h] != t
      case None => forall h :: k <= h < |places| ==> places[h] != t
    decreases |places| - k
  {
    if k < |places| && places[k] != t {
      OccupantSpec(places, t, k + 1);
    }
  }

  /** Some figure of player p stands on t (querySelector(".figure.player-p")). */
  predicate HoldsFigureOf(places: seq<Place>, t: Place, p: int)
  {
    exists g | 0 <= g < |places| :: places[g] == t && Owner(g) == p
  }

  /** The houses a captured figure of player o may be sent to, in document order:
      the four home houses, then the four destination houses (".house.player-o"). */
  function HouseOrder(o: int): seq<Place>
  {
    seq(FIGURES_PER_PLAYER, s requires 0 <= s < FIGURES_PER_PLAYER => House(o, s))
      + seq(FIGURES_PER_PLAYER, s requires 0 <= s < FIGURES_PER_PLAYER => Destination(o, s))
  }

  /** The first of the houses that holds no figure. */
  function FirstFree(places: seq<Place>, houses: seq<Place>): Option<Place>
    decreases |houses|
  {
    if |houses| == 0 then None
    else if Occupant(places, houses[0], 0).None? then Some(houses[0])
    else FirstFree(places, houses[1..])
  }

  /** FirstFree finds an empty house exactly when there is one, and the one it
      finds comes before every other empty one. */
  lemma {:induction false} FirstFreeSpec(places: seq<Place>, houses: seq<Place>)
    ensures FirstFree(places, houses).Some? ==>
      var h := FirstFree(places, houses).value;
      exists k :: 0 <= k < |houses| && houses[k] == h
        && (forall g :: 0 <= g < |places| ==> places[g] != h)
        && forall j :: 0 <= j < k ==> exists g :: 0 <= g < |places| && places[g] == houses[j]
    ensures FirstFree(places, houses).None? ==>
      forall j :: 0 <= j < |houses| ==> exists g :: 0 <= g < |places| && places[g] == houses[j]
    decreases |houses|
  {
    if |houses| > 0 {
      OccupantSpec(places, houses[0], 0);
      FirstFreeSpec(places, houses[1..]);
      if Occupant(places, houses[0], 0).Some? {
        var g0 := Occupant(places, houses[0], 0).value;
        assert places[g0] == houses[0];
        match FirstFree(places, houses[1..])
        case Some(h) =>
          var k :| 0 <= k < |houses[1..]| && houses[1..][k] == h
            && (forall g :: 0 <= g < |places| ==> places[g] != h)
            && forall j :: 0 <= j < k ==> exists g :: 0 <= g < |places| && places[g] == houses[1..][j];
          assert houses[k + 1] == h;
          forall j | 0 <= j < k + 1
            ensures exists g :: 0 <= g < |places| && places[g] == houses[j]
          {
            if j == 0 {
              assert places[g0] == houses[0];
            } else {
              assert houses[j] == houses[1..][j - 1];
            }
          }
        case None =>
          forall j | 0 <= j < |houses|
            ensures exists g :: 0 <= g < |places| && places[g] == houses[j]
          {
            if j == 0 {
              assert places[g0] == houses[0];
            } else {
              assert houses[j] == houses[1..][j - 1];
            }
          }
      }
    }
  }

  /** A player one of whose figures is away from the home houses has an empty
      home house: four figures cannot fill four houses when one is elsewhere. So
      a captured figure always goes back to an empty home house, never to a
      destination house, and the search never comes up empty. */
  lemma HomeHasRoom(places: seq<Place>, o: int, away: int)
    requires ValidBoard(places) && IsPlayer(o) && 0 <= away < |places| && Owner(away) == o
    requires !places[away].House?
    ensures var h := FirstFree(places, HouseOrder(o));
      && h.Some? && h.value.House? && h.value.owner == o && 0 <= h.value.slot < FIGURES_PER_PLAYER
      && forall g :: 0 <= g < |places| ==> places[g] != h.value
  {
    var houses := HouseOrder(o);
    var free := EmptyHomeHouse(places, o, away);
    FirstFreeSpec(places, houses);
    var h := FirstFree(places, houses);
    assert houses[free] == House(o, free);
    if h.None? {
      assert false;
    } else {
      var k :| 0 <= k < |houses| && houses[k] == h.value
        && (forall g :: 0 <= g < |places| ==> places[g] != h.value)
        && forall j :: 0 <= j < k ==> exists g :: 0 <= g < |places| && places[g] == houses[j];
      if k >= FIGURES_PER_PLAYER {
        assert false;
      }
    }
  }

  /** Some home house of o holds no figure when a figure of o is elsewhere. */
  lemma EmptyHomeHouse(places: seq<Place>, o: int, away: int) returns (s: int)
    requires ValidBoard(places) && IsPlayer(o) && 0 <= away < |places| && Owner(away) == o
    requires !places[away].House?
    ensures 0 <= s < FIGURES_PER_PLAYER && forall g :: 0 <= g < |places| ==> places[g] != House(o, s)
  {
    var g0 := Occupant(places, House(o, 0), 0);
    var g1 := Occupant(places, House(o, 1), 0);
    var g2 := Occupant(places, House(o, 2), 0);
    var g3 := Occupant(places, House(o, 3), 0);
    if g0.None? {
      OccupantSpec(places, House(o, 0), 0);
      s := 0;
    } else if g1.None? {
      OccupantSpec(places, House(o, 1), 0);
      s := 1;
    } else if g2.None? {
      OccupantSpec(places, House(o, 2), 0);
      s := 2;
    } else if g3.None? {
      OccupantSpec(places, House(o, 3), 0);
      s := 3;
    } else {
      var a, b, c, e := g0.value, g1.value, g2.value, g3.value;
      OwnerRange(a, o);
      OwnerRange(b, o);
      OwnerRange(c, o);
      OwnerRange(e, o);
      OwnerRange(away, o);
      FiveInFour(a, b, c, e, away, FIGURES_PER_PLAYER * o);
      assert false;
    }
  }

  /** Four different numbers fill a range of four: a fifth one in it equals one of them. */
  lemma FiveInFour(a: int, b: int, c: int, e: int, x: int, lo: int)
    requires lo <= a < lo + 4 && lo <= b < lo + 4 && lo <= c < lo + 4 && lo <= e < lo + 4 && lo <= x < lo + 4
    requires a != b && a != c && a != e && b != c && b != e && c != e
    ensures x == a || x == b || x == c || x == e
  {
  }

  /** The figures of player o are 4 * o .. 4 * o + 3. */
  lemma OwnerRange(f: int, o: int)
    requires Owner(f) == o
    ensures FIGURES_PER_PLAYER * o <= f < FIGURES_PER_PLAYER * o + FIGURES_PER_PLAYER
  {
  }

  /** moveFigure(figure f, target t) with player p on turn: the new places and
      whether the figure moved (afterMoving runs exactly then). A figure of p on
      t blocks the move; a figure of another player on t is sent to the first
      empty house of its owner first. */
  function MoveResult(places: seq<Place>, p: int, f: int, t: Place): (r: (seq<Place>, bool))
    requires 0 <= f < |places|
    ensures |r.0| == |places|
  {
    match Occupant(places, t, 0)
    case Some(g) =>
      if Owner(g) == p then (places, false)
      else
        var sent := match FirstFree(places, HouseOrder(Owner(g))) {
          case Some(h) => places[g := h]
          case None => places
        };
        (sent[f := t], true)
    case None => (places[f := t], true)
  }

  /** Under the board invariant, moving a figure of p to a place of the board
      other than its own, that is a field or one of p's destination houses: the
      move is blocked exactly when a figure of p stands there, and then nothing
      changes; otherwise the figure ends on t, a figure of another player on t is
      captured and stands in one of its owner's home houses, no other figure
      moves, and the board invariant still holds. */
  lemma MoveFigureOutcome(places: seq<Place>, p: int, f: int, t: Place)
    requires ValidBoard(places) && IsPlayer(p) && 0 <= f < |places| && Owner(f) == p
    requires IsPlace(t) && t != places[f] && (t.Field? || (t.Destination? && t.owner == p))
    ensures var (r, moved) := MoveResult(places, p, f, t);
      && (moved <==> !HoldsFigureOf(places, t, p))
      && (!moved ==> r == places)
      && (moved ==> r[f] == t)
      && (moved ==> forall g :: 0 <= g < |places| && g != f && places[g] != t ==> r[g] == places[g])
      && (moved ==> forall g :: 0 <= g < |places| && places[g] == t ==>
            r[g].House? && r[g].owner == Owner(g) && Owner(g) != p)
      && ValidBoard(r)
  {
    var (r, moved) := MoveResult(places, p, f, t);
    OccupantSpec(places, t, 0);
    match Occupant(places, t, 0)
    case Some(g) =>
      if Owner(g) != p {
        assert t.Field?;
        HomeHasRoom(places, Owner(g), g);
        forall g' | 0 <= g' < |places| && places[g'] == t
          ensures Owner(g') != p
        {
          assert g' == g;
        }
        forall a, b | 0 <= a < b < |r|
          ensures r[a] != r[b]
        {
          assert g != f;
        }
      }
    case None =>
  }

  // ---------------------------------------------------------------------------
  // canPlayerMove
  // ---------------------------------------------------------------------------

  /** The path part of canPlayerMove for a figure of p on field idx: its target
      field holds no figure of p, or its destination house holds no figure. */
  predicate PathMoveOpen(places: seq<Place>, p: int, d: int, idx: int)
  {
    var pos := RelativePosition(idx, p);
    if pos + d > FIELD_COUNT then
      pos + d <= FIELD_COUNT + FIGURES_PER_PLAYER
      && Occupant(places, Destination(p, pos + d - FIELD_COUNT - 1), 0).None?
    else !HoldsFigureOf(places, Field((idx + d) % FIELD_COUNT), p)
  }

  /** canPlayerMove(d) for player p: a figure waits in one of p's home houses,
      p's start field holds no figure of p and d is 6; or some figure of p on the
      path has an open move. */
  predicate CanPlayerMove(places: seq<Place>, p: int, d: int)
  {
    var inHouse := exists g | 0 <= g < |places| :: places[g].House? && places[g].owner == p;
    var startFree := !HoldsFigureOf(places, Field(StartField(p)), p);
    var onPath := exists g | 0 <= g < |places| ::
      places[g].Field? && Owner(g) == p && PathMoveOpen(places, p, d, places[g].index);
    (inHouse && startFree && d == 6) || onPath
  }

  /** canPlayerMove() without a roll is always false: no figure can leave home
      without a 6, and a figure on the path would have to move onto its own field. */
  lemma CanPlayerMoveWithoutRollIsFalse(places: seq<Place>, p: int)
    requires ValidBoard(places) && IsPlayer(p)
    ensures !CanPlayerMove(places, p, 0)
  {
    forall g | 0 <= g < |places| && places[g].Field? && Owner(g) == p
      ensures !PathMoveOpen(places, p, 0, places[g].index)
    {
      var idx := places[g].index;
      RelativePositionRange(idx, p);
      assert (idx + 0) % FIELD_COUNT == idx;
      assert HoldsFigureOf(places, Field(idx), p);
    }
  }

  /** The click on figure f of player p after a roll of d moves it. */
  predicate ClickMoves(places: seq<Place>, p: int, d: int, f: int)
    requires 0 <= f < |places| && d >= 0
  {
    match FigureTarget(places, p, d, f)
    case Some(t) => MoveResult(places, p, f, t).1
    case None => false
  }

  /** canPlayerMove(d) holds exactly when clicking some figure of the player
      would move it: the turn passes after a roll only when no click could. */
  lemma CanPlayerMoveIffSomeClickMoves(places: seq<Place>, p: int, d: int)
    requires ValidBoard(places) && IsPlayer(p) && 1 <= d <= 6
    ensures CanPlayerMove(places, p, d) <==> exists f :: 0 <= f < |places| && Owner(f) == p && ClickMoves(places, p, d, f)
  {
    if CanPlayerMove(places, p, d) {
      SomeClickMoves(places, p, d);
    }
    if f :| 0 <= f < |places| && Owner(f) == p && ClickMoves(places, p, d, f) {
      ClickMovesOnlyIfCanMove(places, p, d, f);
    }
  }

  /** canPlayerMove(d) finds a figure whose click moves it. */
  lemma SomeClickMoves(places: seq<Place>, p: int, d: int)
    requires ValidBoard(places) && IsPlayer(p) && 1 <= d <= 6 && CanPlayerMove(places, p, d)
    ensures exists f :: 0 <= f < |places| && Owner(f) == p && ClickMoves(places, p, d, f)
  {
    var startFree := !HoldsFigureOf(places, Field(StartField(p)), p);
    if g :| 0 <= g < |places| && places[g].House? && places[g].owner == p && startFree && d == 6 {
      LeavingHomeMoves(places, p, g);
    } else {
      var g :| 0 <= g < |places| && places[g].Field? && Owner(g) == p && PathMoveOpen(places, p, d, places[g].index);
      ClickOnPath(places, p, d, g);
      assert ClickMoves(places, p, d, g);
    }
  }

  /** On a 6, a figure in a home house moves out when its start field holds no
      figure of its own. */
  lemma LeavingHomeMoves(places: seq<Place>, p: int, g: int)
    requires ValidBoard(places) && IsPlayer(p) && 0 <= g < |places| && places[g].House? && places[g].owner == p
    requires !HoldsFigureOf(places, Field(StartField(p)), p)
    ensures ClickMoves(places, p, 6, g)
  {
    MoveFigureOutcome(places, p, g, Field(StartField(p)));
  }

  /** A figure whose click moves it makes canPlayerMove(d) true. */
  lemma ClickMovesOnlyIfCanMove(places: seq<Place>, p: int, d: int, f: int)
    requires ValidBoard(places) && IsPlayer(p) && 1 <= d <= 6
    requires 0 <= f < |places| && Owner(f) == p && ClickMoves(places, p, d, f)
    ensures CanPlayerMove(places, p, d)
  {
    match places[f]
    case Field(idx) =>
      ClickOnPath(places, p, d, f);
    case House(o, s) =>
      MoveFigureOutcome(places, p, f, Field(StartField(p)));
    case Destination(o, s) =>
  }

  /** For a figure of p on the path, the click moves it exactly when the path
      part of canPlayerMove finds its move open. */
  lemma ClickOnPath(places: seq<Place>, p: int, d: int, g: int)
    requires ValidBoard(places) && IsPlayer(p) && 1 <= d <= 6
    requires 0 <= g < |places| && places[g].Field? && Owner(g) == p
    ensures ClickMoves(places, p, d, g) <==> PathMoveOpen(places, p, d, places[g].index)
  {
    var idx := places[g].index;
    var pos := RelativePosition(idx, p);
    TargetAdvances(places, p, d, g);
    match FigureTarget(places, p, d, g)
    case Some(t) =>
      MoveFigureOutcome(places, p, g, t);
      if t.Destination? {
        OccupantSpec(places, t, 0);
        assert HoldsFigureOf(places, t, p) <==> Occupant(places, t, 0).Some? by {
          if Occupant(places, t, 0).Some? {
            var h := Occupant(places, t, 0).value;
            assert places[h] == t && Owner(h) == p;
          }
        }
      }
    case None =>
  }

  // ---------------------------------------------------------------------------
  // Turns: the state of the table and its transitions
  // ---------------------------------------------------------------------------

  /** Everything the rules read and write: where the figures stand, whose turn it
      is, whether the dice of the player on turn was thrown and has come to rest,
      and the number each of the four dice shows. */
  datatype Table = Table(
    places: seq<Place>,
    playerOnTurn: int,
    diceRolledOver: bool,
    playerThrewDice: bool,
    dice: seq<int>)

  predicate ValidTable(t: Table)
  {
    && ValidBoard(t.places)
    && IsPlayer(t.playerOnTurn)
    && |t.dice| == NUMBER_OF_PLAYERS
    && (forall i :: 0 <= i < |t.dice| ==> 1 <= t.dice[i] <= 6)
    && (t.diceRolledOver ==> t.playerThrewDice)
  }

  /** moveToNextPlayer(diceValue): both flags cleared; the turn passes on unless
      the value is 6 (None stands for a call without a value). */
  function NextPlayer(t: Table, diceValue: Option<int>): (n: Table)
    ensures n.places == t.places && n.dice == t.dice
  {
    var cleared := t.(playerThrewDice := false, diceRolledOver := false);
    if diceValue == Some(6) then cleared
    else cleared.(playerOnTurn := (t.playerOnTurn + 1) % NUMBER_OF_PLAYERS)
  }

  /** A 6 keeps the turn; any other value, or none, passes it to the next player
      in the order 0, 1, 2, 3, 0, so four passes in a row come back to the same
      player after each other player had one turn; the start of the game (-1)
      passes to player 0. Nothing but the turn and the flags changes. */
  lemma NextPlayerRotates(t: Table, diceValue: Option<int>)
    requires -1 <= t.playerOnTurn < NUMBER_OF_PLAYERS
    ensures var n := NextPlayer(t, diceValue);
      && !n.playerThrewDice && !n.diceRolledOver
      && n.places == t.places && n.dice == t.dice
      && (IsPlayer(t.playerOnTurn) || diceValue != Some(6) ==> IsPlayer(n.playerOnTurn))
      && (diceValue == Some(6) ==> n.playerOnTurn == t.playerOnTurn)
      && (diceValue != Some(6) ==> n.playerOnTurn != t.playerOnTurn)
      && (t.playerOnTurn == -1 && diceValue == None ==> n.playerOnTurn == 0)
    ensures diceValue != Some(6) && IsPlayer(t.playerOnTurn) ==>
      var n1 := NextPlayer(t, None);
      var n2 := NextPlayer(n1, None);
      var n3 := NextPlayer(n2, None);
      && NextPlayer(n3, None).playerOnTurn == t.playerOnTurn
      && {t.playerOnTurn, n1.playerOnTurn, n2.playerOnTurn, n3.playerOnTurn} == {0, 1, 2, 3}
  {
  }

  /** The state at the start: the figures at home, dice showing 1..5, and
      moveToNextPlayer() giving the first turn to player 0. */
  function InitialTable(dice: seq<int>): Table
  {
    NextPlayer(Table(InitialPlaces(), -1, false, false, dice), None)
  }

  lemma InitialTableValid(dice: seq<int>)
    requires |dice| == NUMBER_OF_PLAYERS && forall i :: 0 <= i < |dice| ==> 1 <= dice[i] <= 5
    ensures var t := InitialTable(dice);
      ValidTable(t) && t.playerOnTurn == 0 && !t.playerThrewDice && !t.diceRolledOver
  {
    InitialPlacesValid();
  }

  /** handleDiceClick(i): only the dice of the player on turn, and only once per
      turn, starts rolling. */
  function DiceClick(t: Table, i: int): Table
  {
    if i != t.playerOnTurn || t.playerThrewDice then t else t.(playerThrewDice := true)
  }

  /** The last tick of the dice animation: the dice of the player on turn shows
      d, and when no figure of that player can move with d the turn passes on,
      even on a 6. */
  function DiceSettled(t: Table, d: int): Table
    requires 0 <= t.playerOnTurn < |t.dice|
  {
    var rolled := t.(dice := t.dice[t.playerOnTurn := d], diceRolledOver := true);
    if !CanPlayerMove(t.places, t.playerOnTurn, d) then NextPlayer(rolled, None) else rolled
  }

  /** The rules part of handleFigureClick(figure f): off-turn clicks and clicks
      before the dice has come to rest are ignored; so are figures in destination
      houses and figures that cannot go where the roll takes them. A figure that
      leaves home keeps the turn for another roll (canPlayerMove() is false); any
      other move passes it on unless the roll was a 6. */
  function FigureClick(t: Table, f: int): Table
    requires ValidTable(t) && 0 <= f < FIGURE_COUNT
  {
    var i := Owner(f);
    if i != t.playerOnTurn || !t.diceRolledOver then t
    else
      var d := t.dice[i];
      match FigureTarget(t.places, i, d, f)
      case None => t
      case Some(target) =>
        var (places, moved) := MoveResult(t.places, i, f, target);
        var after := t.(places := places);
        if !moved then after
        else if t.places[f].House? then
          (if !CanPlayerMove(places, i, 0) then NextPlayer(after, Some(d)) else after)
        else NextPlayer(after, Some(d))
  }

  /** A figure click keeps the table valid; it changes nothing off turn, before
      the roll has settled, or for a figure in a destination house; when it moves
      a figure, the turn stays with the player on a 6 (always when leaving home)
      and passes to the next player otherwise, and the roll is over with the
      dice free to be thrown again. */
  lemma FigureClickKeepsValid(t: Table, f: int)
    requires ValidTable(t) && 0 <= f < FIGURE_COUNT
    ensures var n := FigureClick(t, f);
      && ValidTable(n)
      && (Owner(f) != t.playerOnTurn || !t.diceRolledOver || t.places[f].Destination? ==> n == t)
      && (n.places != t.places ==>
            && !n.diceRolledOver && !n.playerThrewDice
            && (n.playerOnTurn == t.playerOnTurn <==> t.dice[Owner(f)] == 6)
            && (t.places[f].House? ==> n.playerOnTurn == t.playerOnTurn))
  {
    var i := Owner(f);
    if i == t.playerOnTurn && t.diceRolledOver {
      match FigureTarget(t.places, i, t.dice[i], f)
      case None =>
      case Some(target) =>
        ClickWithTarget(t, f, target);
    }
  }

  /** FigureClickKeepsValid when the roll gives the figure a target. */
  lemma ClickWithTarget(t: Table, f: int, target: Place)
    requires ValidTable(t) && 0 <= f < FIGURE_COUNT && Owner(f) == t.playerOnTurn && t.diceRolledOver
    requires FigureTarget(t.places, t.playerOnTurn, t.dice[t.playerOnTurn], f) == Some(target)
    ensures var n := FigureClick(t, f);
      && ValidTable(n)
      && (n.places != t.places ==>
            && !n.diceRolledOver && !n.playerThrewDice
            && (n.playerOnTurn == t.playerOnTurn <==> t.dice[Owner(f)] == 6)
            && (t.places[f].House? ==> n.playerOnTurn == t.playerOnTurn))
  {
    var i := t.playerOnTurn;
    var d := t.dice[i];
    if t.places[f].Field? {
      TargetAdvances(t.places, i, d, f);
    }
    MoveFigureOutcome(t.places, i, f, target);
    var (places, moved) := MoveResult(t.places, i, f, target);
    var after := t.(places := places);
    if !moved {
      assert FigureClick(t, f) == after;
    } else {
      if t.places[f].House? {
        CanPlayerMoveWithoutRollIsFalse(places, i);
      }
      assert FigureClick(t, f) == NextPlayer(after, Some(d));
      NextPlayerRotates(after, Some(d));
    }
  }

  /** A dice click keeps the table valid and starts a roll only for the player on
      turn who has not thrown yet. */
  lemma DiceClickKeepsValid(t: Table, i: int)
    requires ValidTable(t)
    ensures var n := DiceClick(t, i);
      && ValidTable(n)
      && (n != t <==> i == t.playerOnTurn && !t.playerThrewDice)
      && (n != t ==> n.playerThrewDice && !n.diceRolledOver)
  {
  }

  /** When the roll settles on d: the table stays valid; if some figure click of
      the player would move, the player keeps the turn with the dice at rest on
      d; otherwise the turn passes to the next player, also on a 6. */
  lemma DiceSettledDecides(t: Table, d: int)
    requires ValidTable(t) && t.playerThrewDice && !t.diceRolledOver && 1 <= d <= 6
    ensures var n := DiceSettled(t, d);
      var p := t.playerOnTurn;
      && ValidTable(n) && n.places == t.places
      && ((exists f :: 0 <= f < FIGURE_COUNT && Owner(f) == p && ClickMoves(t.places, p, d, f)) ==>
            n.playerOnTurn == p && n.diceRolledOver && n.dice[p] == d)
      && ((forall f :: 0 <= f < FIGURE_COUNT && Owner(f) == p ==> !ClickMoves(t.places, p, d, f)) ==>
            n.playerOnTurn == (p + 1) % NUMBER_OF_PLAYERS && !n.diceRolledOver && !n.playerThrewDice)
  {
    CanPlayerMoveIffSomeClickMoves(t.places, t.playerOnTurn, d);
  }

  /** Once the dice of the player on turn is at rest, clicking one of the
      player's figures moves it exactly when ClickMoves says so; together with
      DiceSettledDecides, a player who keeps the turn after a roll always has a
      click that makes progress. */
  lemma FigureClickMovesIff(t: Table, f: int)
    requires ValidTable(t) && t.diceRolledOver && 0 <= f < FIGURE_COUNT && Owner(f) == t.playerOnTurn
    ensures FigureClick(t, f).places != t.places <==> ClickMoves(t.places, t.playerOnTurn, t.dice[t.playerOnTurn], f)
  {
    var p := t.playerOnTurn;
    var d := t.dice[p];
    match FigureTarget(t.places, p, d, f)
    case None =>
    case Some(target) =>
      if t.places[f].Field? {
        TargetAdvances(t.places, p, d, f);
      }
      MoveFigureOutcome(t.places, p, f, target);
  }

  // ---------------------------------------------------------------------------
  // The game as the page runs it
  // ---------------------------------------------------------------------------

  class Game {
    var places: seq<Place>
    var playerOnTurn: int
    var diceRolledOver: bool
    var playerThrewDice: bool
    var dice: seq<int>

    function State(): Table
      reads this
    {
      Table(places, playerOnTurn, diceRolledOver, playerThrewDice, dice)
    }

    ghost predicate Valid()
      reads this
    {
      ValidTable(State())
    }

    /** The page's start: createFigures, createDices (showing the given numbers,
        1..5) and moveToNextPlayer(). */
    constructor (initialDice: seq<int>)
      requires |initialDice| == NUMBER_OF_PLAYERS && forall i :: 0 <= i < |initialDice| ==> 1 <= initialDice[i] <= 5
      ensures Valid() && State() == InitialTable(initialDice)
    {
      places := InitialPlaces();
      playerOnTurn := -1;
      diceRolledOver := false;
      playerThrewDice := false;
      dice := initialDice;
      new;
      InitialTableValid(initialDice);
      MoveToNextPlayer(None);
    }

    /** The loop of moveFigure over the houses of a captured figure's owner: the
        first that holds no figure. */
    method FindFreeHouse(o: int) returns (h: Option<Place>)
      ensures h == FirstFree(places, HouseOrder(o))
    {
      var houses := HouseOrder(o);
      var k := 0;
      while k < |houses|
        invariant 0 <= k <= |houses| && FirstFree(places, houses[k..]) == FirstFree(places, houses)
      {
        if Occupant(places, houses[k], 0).None? {
          return Some(houses[k]);
        }
        assert houses[k..][1..] == houses[k + 1..];
        k := k + 1;
      }
      return None;
    }

    /** moveFigure(figure f, target): re-parents the figures; moved tells whether
        afterMoving runs. */
    method MoveFigure(f: int, target: Place) returns (moved: bool)
      requires 0 <= f < |places|
      modifies this
      ensures (places, moved) == MoveResult(old(places), playerOnTurn, f, target)
      ensures playerOnTurn == old(playerOnTurn) && dice == old(dice)
      ensures diceRolledOver == old(diceRolledOver) && playerThrewDice == old(playerThrewDice)
    {
      var occupied := Occupant(places, target, 0);
      if occupied.Some? {
        var g := occupied.value;
        if Owner(g) == playerOnTurn {
          return false;
        }
        var home := FindFreeHouse(Owner(g));
        if home.Some? {
          places := places[g := home.value];
        }
      }
      places := places[f := target];
      moved := true;
    }

    /** moveToNextPlayer(diceValue). */
    method MoveToNextPlayer(diceValue: Option<int>)
      modifies this
      ensures State() == NextPlayer(old(State()), diceValue)
    {
      playerThrewDice := false;
      diceRolledOver := false;
      if diceValue == Some(6) {
        return;
      }
      playerOnTurn := (playerOnTurn + 1) % NUMBER_OF_PLAYERS;
    }

    /** handleFigureClick(figure f, Owner(f)). */
    method HandleFigureClick(f: int)
      requires Valid() && 0 <= f < FIGURE_COUNT
      modifies this
      ensures Valid() && State() == FigureClick(old(State()), f)
    {
      FigureClickKeepsValid(State(), f);
      var i := Owner(f);
      if i != playerOnTurn || !diceRolledOver {
        return;
      }
      var diceValue := dice[i];
      match places[f]
      case Destination(_, _) =>
      case House(_, _) =>
        LeaveHouse(f, diceValue);
      case Field(figurePositionIndex) =>
        MoveOnPath(f, figurePositionIndex, diceValue);
    }

    /** The branch of handleFigureClick for a figure in a home house. */
    method LeaveHouse(f: int, diceValue: int)
      requires Valid() && 0 <= f < FIGURE_COUNT && Owner(f) == playerOnTurn && diceRolledOver
      requires places[f].House? && diceValue == dice[playerOnTurn]
      modifies this
      ensures State() == FigureClick(old(State()), f)
    {
      if diceValue == 6 {
        var moved := MoveFigure(f, Field(StartField(playerOnTurn)));
        if moved && !CanPlayerMove(places, playerOnTurn, 0) {
          MoveToNextPlayer(Some(diceValue));
        }
      }
    }

    /** The branch of handleFigureClick for a figure on field figurePositionIndex. */
    method MoveOnPath(f: int, figurePositionIndex: int, diceValue: int)
      requires Valid() && 0 <= f < FIGURE_COUNT && Owner(f) == playerOnTurn && diceRolledOver
      requires places[f] == Field(figurePositionIndex) && diceValue == dice[playerOnTurn]
      modifies this
      ensures State() == FigureClick(old(State()), f)
    {
      var playerPosition := RelativePosition(figurePositionIndex, playerOnTurn);
      if playerPosition + diceValue > FIELD_COUNT {
        if playerPosition + diceValue <= FIELD_COUNT + FIGURES_PER_PLAYER {
          var moved := MoveFigure(f, Destination(playerOnTurn, playerPosition + diceValue - FIELD_COUNT - 1));
          if moved {
            MoveToNextPlayer(Some(diceValue));
          }
        }
      } else {
        var moved := MoveFigure(f, Field((figurePositionIndex + diceValue) % FIELD_COUNT));
        if moved {
          MoveToNextPlayer(Some(diceValue));
        }
      }
    }

    /** handleDiceClick(dice i): the click that starts the roll. */
    method HandleDiceClick(i: int)
      requires Valid()
      modifies this
      ensures Valid() && State() == DiceClick(old(State()), i)
    {
      DiceClickKeepsValid(State(), i);
      if i != playerOnTurn || playerThrewDice {
        return;
      }
      playerThrewDice := true;
    }

    /** The tenth tick of the dice interval, whose random number is d. */
    method SettleDice(d: int)
      requires Valid() && playerThrewDice && !diceRolledOver && 1 <= d <= 6
      modifies this
      ensures Valid() && State() == DiceSettled(old(State()), d)
    {
      DiceSettledDecides(State(), d);
      dice := dice[playerOnTurn := d];
      diceRolledOver := true;
      if !CanPlayerMove(places, playerOnTurn, d) {
        MoveToNextPlayer(None);
      }
    }
  }
}
