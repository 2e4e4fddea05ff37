/** The board model and the axial hex-grid geometry of the settlers game
    (game/game.go): resources, hexes and the neighbour relation, the
    structures players own, and the read-only lookups the resolver uses. */
module Game {

  datatype Option<T> = None | Some(value: T)

  /** Five real resources followed by two pseudo-resources that only tag
      tiles, in declaration order. */
  datatype Resource = Brick | Grain | Lumber | Ore | Wool | Desert | Sea

  /** The integer each resource kind is given by its declaration order. */
  function Ordinal(r: Resource): nat
  {
    match r
    case Brick => 0
    case Grain => 1
    case Lumber => 2
    case Ore => 3
    case Wool => 4
    case Desert => 5
    case Sea => 6
  }

  predicate IsReal(r: Resource)
  {
    Ordinal(r) < 5
  }

  /** Axial coordinates: the column and row of a hex. */
  datatype Hex = Hex(column: int, row: int)

  function Abs(x: int): (r: int)
    ensures r >= 0 && (r == x || r == -x)
  {
    if x < 0 then -x else x
  }

  /** The six unit directions of the axial grid. */
  const NeighbourOffsets: set<Hex> :=
    {Hex(1, 0), Hex(1, -1), Hex(0, -1), Hex(-1, 0), Hex(-1, 1), Hex(0, 1)}

  function Offset(a: Hex, b: Hex): Hex
  {
    Hex(a.column - b.column, a.row - b.row)
  }

  /** True when the coordinate difference a - b is one of the six directions. */
  predicate IsNeighbour(a: Hex, b: Hex)
  {
    Offset(a, b) in NeighbourOffsets
  }

  function Translate(h: Hex, d: Hex): Hex
  {
    Hex(h.column + d.column, h.row + d.row)
  }

  /** Grid distance in axial coordinates: half the sum of the absolute
      differences along the three cube axes. */
  function Distance(a: Hex, b: Hex): int
  {
    var dc, dr := a.column - b.column, a.row - b.row;
    (Abs(dc) + Abs(dr) + Abs(dc + dr)) / 2
  }

  lemma NeighbourOffsetsAreListed(a: Hex, b: Hex)
    ensures IsNeighbour(a, b) <==>
      var (dc, dr) := (a.column - b.column, a.row - b.row);
      (dc, dr) in {(1, 0), (1, -1), (0, -1), (-1, 0), (-1, 1), (0, 1)}
  {
  }

  lemma NotOwnNeighbour(a: Hex)
    ensures !IsNeighbour(a, a)
  {
  }

  lemma NeighbourSymmetric(a: Hex, b: Hex)
    ensures IsNeighbour(a, b) <==> IsNeighbour(b, a)
  {
  }

  lemma NeighbourTranslationInvariant(a: Hex, b: Hex, d: Hex)
    ensures IsNeighbour(Translate(a, d), Translate(b, d)) <==> IsNeighbour(a, b)
  {
    assert Offset(Translate(a, d), Translate(b, d)) == Offset(a, b);
  }

  /** The six listed directions are exactly the hexes at grid distance one. */
  lemma NeighbourIffDistanceOne(a: Hex, b: Hex)
    ensures IsNeighbour(a, b) <==> Distance(a, b) == 1
  {
    var dc, dr := a.column - b.column, a.row - b.row;
    if Distance(a, b) == 1 {
      assert Abs(dc) + Abs(dr) + Abs(dc + dr) == 2;
      assert Offset(a, b) == Hex(dc, dr);
    }
  }

  predicate IsSharedNeighbour(a: Hex, b: Hex, c: Hex)
  {
    IsNeighbour(a, c) && IsNeighbour(b, c)
  }

  /** Position of the first element of xs satisfying p, or |xs| if none does. */
  function FirstIndex<T>(xs: seq<T>, p: T -> bool): (n: nat)
    ensures n <= |xs|
    ensures forall i :: 0 <= i < n ==> !p(xs[i])
    ensures n < |xs| ==> p(xs[n])
  {
    if xs == [] || p(xs[0]) then 0 else 1 + FirstIndex(xs[1..], p)
  }

  /** The first candidate, in order, that neighbours both a and b; the zero
      hex and false when there is none. */
  function FindSharedNeighbour(a: Hex, b: Hex, candidates: seq<Hex>): (r: (Hex, bool))
    ensures r.1 ==> r.0 in candidates && IsSharedNeighbour(a, b, r.0)
    ensures r.1 ==>
      exists i :: 0 <= i < |candidates| && candidates[i] == r.0 &&
        forall j :: 0 <= j < i ==> !IsSharedNeighbour(a, b, candidates[j])
    ensures !r.1 <==> forall i :: 0 <= i < |candidates| ==> !IsSharedNeighbour(a, b, candidates[i])
    ensures !r.1 ==> r.0 == Hex(0, 0)
  {
    var i := FirstIndex(candidates, (c: Hex) => IsSharedNeighbour(a, b, c));
    if i < |candidates| then (candidates[i], true) else (Hex(0, 0), false)
  }

  lemma SharedNeighbourExample()
    ensures FindSharedNeighbour(Hex(-1, 0), Hex(0, 0),
      [Hex(-1, -1), Hex(-1, 1), Hex(-1, 0), Hex(0, 0), Hex(-1, 0), Hex(-2, 2)]) == (Hex(-1, 1), true)
  {
    var a, b := Hex(-1, 0), Hex(0, 0);
    var candidates := [Hex(-1, -1), Hex(-1, 1), Hex(-1, 0), Hex(0, 0), Hex(-1, 0), Hex(-2, 2)];
    assert !IsNeighbour(b, candidates[0]);
    assert IsSharedNeighbour(a, b, candidates[1]);
  }

  /** A tile: where it lies, what it produces and the dice sum that triggers it. */
  datatype Tile = Tile(location: Hex, resource: Resource, number: int)

  /** A road lies between two neighbouring hexes. */
  datatype Road = Road(a: Hex, b: Hex, player: int)

  /** A settlement or a city stands where three hexes meet. */
  datatype Settlement = Settlement(a: Hex, b: Hex, c: Hex, player: int)

  datatype City = City(a: Hex, b: Hex, c: Hex, player: int)

  datatype DevelopmentCard = Knight | YearOfPlenty | Monopoly | RoadBuilding | VictoryPoint

  type PlayerId = int

  /** A player's five resource counters (signed, as in the source). */
  datatype Resources = Resources(brick: int, grain: int, lumber: int, ore: int, wool: int)

  datatype DevelopmentCards = DevelopmentCards(inHand: seq<DevelopmentCard>, played: seq<DevelopmentCard>)

  datatype Player = Player(
    id: PlayerId,
    resources: Resources,
    developmentCards: DevelopmentCards,
    settlements: seq<Settlement>,
    cities: seq<City>)

  datatype Board = Board(robber: Hex, players: seq<Player>, tiles: seq<Tile>)

  /** The counter a player keeps for a resource kind; pseudo-resources have none. */
  function Held(res: Resources, k: Resource): int
  {
    match k
    case Brick => res.brick
    case Grain => res.grain
    case Lumber => res.lumber
    case Ore => res.ore
    case Wool => res.wool
    case Desert => 0
    case Sea => 0
  }

  predicate NonNegative(res: Resources)
  {
    res.brick >= 0 && res.grain >= 0 && res.lumber >= 0 && res.ore >= 0 && res.wool >= 0
  }

  /** The first player carrying the given id, if any. */
  function FindPlayer(players: seq<Player>, id: PlayerId): (r: Option<Player>)
    ensures r.None? <==> forall i :: 0 <= i < |players| ==> players[i].id != id
    ensures r.Some? ==> r.value.id == id
    ensures r.Some? ==>
      exists i :: 0 <= i < |players| && players[i] == r.value &&
        forall j :: 0 <= j < i ==> players[j].id != id
  {
    var i := FirstIndex(players, (p: Player) => p.id == id);
    if i < |players| then Some(players[i]) else None
  }

  /** The elements of xs that satisfy keep, in their original order. */
  function Filter<T(!new)>(xs: seq<T>, keep: T -> bool): (r: seq<T>)
    ensures |r| <= |xs|
    ensures forall x :: x in r <==> x in xs && keep(x)
  {
    if xs == [] then []
    else (if keep(xs[0]) then [xs[0]] else []) + Filter(xs[1..], keep)
  }

  lemma {:induction false} FilterAppend<T(!new)>(xs: seq<T>, ys: seq<T>, keep: T -> bool)
    ensures Filter(xs + ys, keep) == Filter(xs, keep) + Filter(ys, keep)
  {
    if xs == [] {
      assert xs + ys == ys;
    } else {
      assert (xs + ys)[1..] == xs[1..] + ys;
      FilterAppend(xs[1..], ys, keep);
    }
  }

  /** Filter keeps every copy of a kept element and no copy of a dropped one,
      so the length of its result counts duplicates. */
  lemma {:induction false} FilterMultiset<T(!new)>(xs: seq<T>, keep: T -> bool, x: T)
    ensures multiset(Filter(xs, keep))[x] == if keep(x) then multiset(xs)[x] else 0
  {
    if xs != [] {
      FilterMultiset(xs[1..], keep, x);
      assert xs == [xs[0]] + xs[1..];
    }
  }

  lemma {:induction false} FilterAll<T(!new)>(xs: seq<T>, keep: T -> bool)
    requires forall i :: 0 <= i < |xs| ==> keep(xs[i])
    ensures Filter(xs, keep) == xs
  {
    if xs != [] {
      FilterAll(xs[1..], keep);
    }
  }

  lemma {:induction false} FilterNone<T(!new)>(xs: seq<T>, keep: T -> bool)
    requires forall i :: 0 <= i < |xs| ==> !keep(xs[i])
    ensures Filter(xs, keep) == []
  {
    if xs != [] {
      FilterNone(xs[1..], keep);
    }
  }

  /** Dropping an element that Filter discards does not change its result. */
  lemma FilterSkips<T(!new)>(xs: seq<T>, x: T, ys: seq<T>, keep: T -> bool)
    requires !keep(x)
    ensures Filter(xs + [x] + ys, keep) == Filter(xs + ys, keep)
  {
    FilterAppend(xs + [x], ys, keep);
    FilterAppend(xs, [x], keep);
    FilterAppend(xs, ys, keep);
    assert Filter([x], keep) == [];
  }

  /** Whether a structure standing where hexes a, b and c meet touches the given hex. */
  predicate OnVertex(location: Hex, a: Hex, b: Hex, c: Hex)
  {
    location == a || location == b || location == c
  }

  function CityTouches(location: Hex): City -> bool
  {
    (c: City) => OnVertex(location, c.a, c.b, c.c)
  }

  function SettlementTouches(location: Hex): Settlement -> bool
  {
    (s: Settlement) => OnVertex(location, s.a, s.b, s.c)
  }

  /** The cities adjacent to the hex, in their original order. */
  function FindAdjacentCities(location: Hex, cities: seq<City>): (r: seq<City>)
    ensures forall c :: c in r <==> c in cities && OnVertex(location, c.a, c.b, c.c)
  {
    Filter(cities, CityTouches(location))
  }

  /** The settlements adjacent to the hex, in their original order. */
  function FindAdjacentSettlements(location: Hex, settlements: seq<Settlement>): (r: seq<Settlement>)
    ensures forall s :: s in r <==> s in settlements && OnVertex(location, s.a, s.b, s.c)
  {
    Filter(settlements, SettlementTouches(location))
  }
}
