/** The resolver (game/actions.go): one operation per action kind, each
    reading a board snapshot and returning the ordered effects the action
    causes. The board is never changed. */
module Actions {
  import opened Game
  import opened Effects

  /** Why a purchase is refused (the source terminates the process instead). */
  datatype Error = PlayerNotFound(id: PlayerId) | InsufficientResources

  datatype Result<T> = Ok(value: T) | Err(error: Error)

  // ---------------------------------------------------------------------------
  // Paying a player

  /** A payment of n units of kind r to a player; paying less than one unit
      is a fatal error in the source, so callers must not ask for it. */
  function Pay(playerId: PlayerId, r: Resource, n: int): (e: Effect)
    requires n >= 1
    ensures e.AddResources? && e.playerId == playerId && e.resources.Keys == {r}
    ensures forall k :: Get(e.resources, k) == if k == r then n else 0
  {
    AddResources(playerId, map[r := n])
  }

  // ---------------------------------------------------------------------------
  // A player's resources as a list of units

  /** How often the counting loop `for i := 0; i < n; i++` runs. */
  function Count(n: int): nat
  {
    if n < 0 then 0 else n
  }

  function Repeat(k: Resource, n: int): (r: seq<Resource>)
    ensures |r| == Count(n)
    ensures forall i :: 0 <= i < |r| ==> r[i] == k
  {
    seq(Count(n), _ => k)
  }

  /** One entry per unit held: the bricks, then grain, lumber, ore and wool. */
  function Units(res: Resources): seq<Resource>
  {
    Repeat(Brick, res.brick) + Repeat(Grain, res.grain) + Repeat(Lumber, res.lumber)
      + Repeat(Ore, res.ore) + Repeat(Wool, res.wool)
  }

  /** Index of the first unit of kind k in Units(res): the units of every
      kind declared before k come first. */
  function StartOf(res: Resources, k: Resource): nat
  {
    match k
    case Brick => 0
    case Grain => Count(res.brick)
    case Lumber => Count(res.brick) + Count(res.grain)
    case Ore => Count(res.brick) + Count(res.grain) + Count(res.lumber)
    case Wool => Count(res.brick) + Count(res.grain) + Count(res.lumber) + Count(res.ore)
    case _ => Count(res.brick) + Count(res.grain) + Count(res.lumber) + Count(res.ore) + Count(res.wool)
  }

  lemma UnitsLength(res: Resources)
    ensures |Units(res)| == Count(res.brick) + Count(res.grain) + Count(res.lumber) + Count(res.ore) + Count(res.wool)
    ensures NonNegative(res) ==> |Units(res)| == res.brick + res.grain + res.lumber + res.ore + res.wool
  {
  }

  /** Position i of Units(res) holds kind k exactly when i lies in k's block. */
  lemma UnitAt(res: Resources, i: int, k: Resource)
    requires 0 <= i < |Units(res)|
    ensures Units(res)[i] == k <==> IsReal(k) && StartOf(res, k) <= i < StartOf(res, k) + Count(Held(res, k))
  {
  }

  lemma UnitIsHeld(res: Resources, i: int)
    requires 0 <= i < |Units(res)|
    ensures IsReal(Units(res)[i]) && Held(res, Units(res)[i]) >= 1
  {
    UnitAt(res, i, Units(res)[i]);
  }

  /** The units are listed in declaration order of their kinds. */
  lemma UnitsOrdered(res: Resources)
    ensures forall i, j :: 0 <= i <= j < |Units(res)| ==> Ordinal(Units(res)[i]) <= Ordinal(Units(res)[j])
  {
    forall i, j | 0 <= i <= j < |Units(res)|
      ensures Ordinal(Units(res)[i]) <= Ordinal(Units(res)[j])
    {
      UnitAt(res, i, Units(res)[i]);
      UnitAt(res, j, Units(res)[j]);
    }
  }

  lemma {:induction false} RepeatMultiset(k: Resource, n: int, j: Resource)
    ensures multiset(Repeat(k, n))[j] == if j == k then Count(n) else 0
    decreases Count(n)
  {
    if Count(n) > 0 {
      assert Repeat(k, n) == Repeat(k, n - 1) + [k];
      RepeatMultiset(k, n - 1, j);
    } else {
      assert Repeat(k, n) == [];
    }
  }

  /** Every kind occurs in Units(res) exactly as often as its counter says
      (a negative counter contributing nothing). */
  lemma UnitsCount(res: Resources, k: Resource)
    ensures multiset(Units(res))[k] == Count(Held(res, k))
  {
    RepeatMultiset(Brick, res.brick, k);
    RepeatMultiset(Grain, res.grain, k);
    RepeatMultiset(Lumber, res.lumber, k);
    RepeatMultiset(Ore, res.ore, k);
    RepeatMultiset(Wool, res.wool, k);
  }

  /** The closure in resourcesAsSlice: append n copies of k. */
  method AppendUnits(rs: seq<Resource>, n: int, k: Resource) returns (out: seq<Resource>)
    ensures out == rs + Repeat(k, n)
  {
    out := rs;
    var i := 0;
    while i < n
      invariant i <= Count(n)
      invariant out == rs + Repeat(k, i)
    {
      out := out + [k];
      i := i + 1;
    }
  }

  method ResourcesAsSlice(p: Player) returns (rs: seq<Resource>)
    ensures rs == Units(p.resources)
  {
    rs := [];
    rs := AppendUnits(rs, p.resources.brick, Brick);
    rs := AppendUnits(rs, p.resources.grain, Grain);
    rs := AppendUnits(rs, p.resources.lumber, Lumber);
    rs := AppendUnits(rs, p.resources.ore, Ore);
    rs := AppendUnits(rs, p.resources.wool, Wool);
  }

  // ---------------------------------------------------------------------------
  // Rolling the dice

  /** The effects one tile yields for one player: cities first, paid double,
      then settlements; nothing for a structure kind with no adjacent piece. */
  function PlayerPayouts(t: Tile, p: Player): seq<Effect>
  {
    var cities := FindAdjacentCities(t.location, p.cities);
    var settlements := FindAdjacentSettlements(t.location, p.settlements);
    (if |cities| > 0 then [Pay(p.id, t.resource, |cities| * 2)] else [])
      + (if |settlements| > 0 then [Pay(p.id, t.resource, |settlements|)] else [])
  }

  /** The effects one tile yields for the players in board order. */
  function TilePayouts(t: Tile, players: seq<Player>): seq<Effect>
  {
    if players == [] then []
    else TilePayouts(t, players[..|players| - 1]) + PlayerPayouts(t, players[|players| - 1])
  }

  /** The effects the given tiles yield, tile by tile in board order. */
  function Payouts(tiles: seq<Tile>, players: seq<Player>): seq<Effect>
  {
    if tiles == [] then []
    else Payouts(tiles[..|tiles| - 1], players) + TilePayouts(tiles[|tiles| - 1], players)
  }

  /** Length of the leading run of tiles whose number is the dice sum. */
  function LeadingRun(tiles: seq<Tile>, sum: int): (n: nat)
    ensures n <= |tiles|
    ensures forall i :: 0 <= i < n ==> tiles[i].number == sum
    ensures n < |tiles| ==> tiles[n].number != sum
  {
    FirstIndex(tiles, (t: Tile) => t.number != sum)
  }

  /** What the source's roll produces: the payouts of the leading run of
      matching tiles only, since its tile loop stops at the first tile whose
      number differs from the sum. */
  function RollEffects(tiles: seq<Tile>, players: seq<Player>, sum: int): seq<Effect>
  {
    Payouts(tiles[..LeadingRun(tiles, sum)], players)
  }

  lemma PayoutsSnoc(tiles: seq<Tile>, i: nat, players: seq<Player>)
    requires i < |tiles|
    ensures Payouts(tiles[..i + 1], players) == Payouts(tiles[..i], players) + TilePayouts(tiles[i], players)
  {
    assert tiles[..i + 1][..i] == tiles[..i];
  }

  lemma TilePayoutsSnoc(t: Tile, players: seq<Player>, k: nat)
    requires k < |players|
    ensures TilePayouts(t, players[..k + 1]) == TilePayouts(t, players[..k]) + PlayerPayouts(t, players[k])
  {
    assert players[..k + 1][..k] == players[..k];
  }

  /** Sequence concatenation is associative. Dafny knows this unaided; the
      lemma only names the step for PayTile's loop, where it saves the solver
      a search. */
  lemma AppendAssoc<T>(a: seq<T>, b: seq<T>, c: seq<T>)
    ensures (a + b) + c == a + (b + c)
  {
  }

  /** The body of DoRoll's inner loop: appends what one triggered tile pays
      one player. */
  method PayPlayer(effects0: seq<Effect>, t: Tile, p: Player) returns (effects: seq<Effect>)
    ensures effects == effects0 + PlayerPayouts(t, p)
  {
    effects := effects0;
    var cities := FindAdjacentCities(t.location, p.cities);
    if |cities| > 0 {
      effects := effects + [Pay(p.id, t.resource, |cities| * 2)];
    }
    var settlements := FindAdjacentSettlements(t.location, p.settlements);
    if |settlements| > 0 {
      effects := effects + [Pay(p.id, t.resource, |settlements|)];
    }
  }

  /** The inner loop of DoRoll: appends what one triggered tile pays each
      player, in board order. */
  method PayTile(effects0: seq<Effect>, t: Tile, players: seq<Player>) returns (effects: seq<Effect>)
    ensures effects == effects0 + TilePayouts(t, players)
  {
    effects := effects0;
    var k := 0;
    while k < |players|
      invariant 0 <= k <= |players|
      invariant effects == effects0 + TilePayouts(t, players[..k])
    {
      effects := PayPlayer(effects, t, players[k]);
      TilePayoutsSnoc(t, players, k);
      AppendAssoc(effects0, TilePayouts(t, players[..k]), PlayerPayouts(t, players[k]));
      k := k + 1;
    }
    assert players[..k] == players;
  }

  /** Pays out the tiles whose number is the dice sum, scanning tiles in board
      order and stopping at the first tile whose number differs. */
  method DoRoll(b: Board, r: Roll) returns (effects: seq<Effect>)
    ensures effects == RollEffects(b.tiles, b.players, r.a + r.b)
  {
    effects := [];
    var sum := r.a + r.b;
    var i := 0;
    while i < |b.tiles|
      invariant 0 <= i <= |b.tiles|
      invariant i <= LeadingRun(b.tiles, sum)
      invariant effects == Payouts(b.tiles[..i], b.players)
    {
      var t := b.tiles[i];
      if !(t.number == sum) {
        assert i == LeadingRun(b.tiles, sum);
        break;
      }
      effects := PayTile(effects, t, b.players);
      PayoutsSnoc(b.tiles, i, b.players);
      i := i + 1;
    }
  }

  /** What one player is owed by one tile: two units per adjacent city and one
      per adjacent settlement. */
  ghost function Yield(t: Tile, p: Player): nat
  {
    2 * |FindAdjacentCities(t.location, p.cities)| + |FindAdjacentSettlements(t.location, p.settlements)|
  }

  /** What one tile owes the players carrying the given id. */
  ghost function TileYield(t: Tile, players: seq<Player>, id: PlayerId): nat
  {
    if players == [] then 0 else
    var last := players[|players| - 1];
    TileYield(t, players[..|players| - 1], id) + (if last.id == id then Yield(t, last) else 0)
  }

  /** What the given tiles of kind k owe the players carrying the given id. */
  ghost function Entitled(tiles: seq<Tile>, players: seq<Player>, id: PlayerId, k: Resource): nat
  {
    if tiles == [] then 0 else
    var last := tiles[|tiles| - 1];
    Entitled(tiles[..|tiles| - 1], players, id, k) + (if last.resource == k then TileYield(last, players, id) else 0)
  }

  lemma PlayerPayoutsNet(t: Tile, p: Player, id: PlayerId, k: Resource)
    ensures NetChange(PlayerPayouts(t, p), id, k) == if p.id == id && t.resource == k then Yield(t, p) else 0
  {
    var cities := FindAdjacentCities(t.location, p.cities);
    var settlements := FindAdjacentSettlements(t.location, p.settlements);
    var cs: seq<Effect> := if |cities| > 0 then [Pay(p.id, t.resource, |cities| * 2)] else [];
    var ss: seq<Effect> := if |settlements| > 0 then [Pay(p.id, t.resource, |settlements|)] else [];
    NetChangeAppend(cs, ss, id, k);
  }

  lemma {:induction false} TilePayoutsNet(t: Tile, players: seq<Player>, id: PlayerId, k: Resource)
    ensures NetChange(TilePayouts(t, players), id, k) == if t.resource == k then TileYield(t, players, id) else 0
  {
    if players != [] {
      var n := |players| - 1;
      TilePayoutsNet(t, players[..n], id, k);
      PlayerPayoutsNet(t, players[n], id, k);
      NetChangeAppend(TilePayouts(t, players[..n]), PlayerPayouts(t, players[n]), id, k);
    }
  }

  /** Summed over all the effects, each player receives of each kind exactly
      what the tiles owe them. */
  lemma {:induction false} PayoutsNet(tiles: seq<Tile>, players: seq<Player>, id: PlayerId, k: Resource)
    ensures NetChange(Payouts(tiles, players), id, k) == Entitled(tiles, players, id, k)
  {
    if tiles != [] {
      var n := |tiles| - 1;
      PayoutsNet(tiles[..n], players, id, k);
      TilePayoutsNet(tiles[n], players, id, k);
      NetChangeAppend(Payouts(tiles[..n], players), TilePayouts(tiles[n], players), id, k);
    }
  }

  lemma {:induction false} RollPaysEntitlement(tiles: seq<Tile>, players: seq<Player>, sum: int, id: PlayerId, k: Resource)
    ensures NetChange(RollEffects(tiles, players, sum), id, k) == Entitled(tiles[..LeadingRun(tiles, sum)], players, id, k)
  {
    PayoutsNet(tiles[..LeadingRun(tiles, sum)], players, id, k);
  }

  /** A payment of at least one unit of a single kind, produced by one of the
      tiles, to one of the players. */
  ghost predicate IsPayment(e: Effect, tiles: seq<Tile>, players: seq<Player>)
  {
    && e.AddResources?
    && (exists p :: p in players && p.id == e.playerId)
    && (exists t :: t in tiles && e.resources.Keys == {t.resource})
    && forall k :: k in e.resources ==> e.resources[k] >= 1
  }

  lemma {:induction false} TilePayoutsArePayments(t: Tile, players: seq<Player>, tiles: seq<Tile>)
    requires t in tiles
    ensures forall e :: e in TilePayouts(t, players) ==> IsPayment(e, tiles, players)
  {
    if players != [] {
      var n := |players| - 1;
      TilePayoutsArePayments(t, players[..n], tiles);
      assert forall p :: p in players[..n] ==> p in players;
      assert players[n] in players;
    }
  }

  lemma {:induction false} PayoutsArePayments(tiles: seq<Tile>, players: seq<Player>)
    ensures forall e :: e in Payouts(tiles, players) ==> IsPayment(e, tiles, players)
  {
    if tiles != [] {
      var n := |tiles| - 1;
      PayoutsArePayments(tiles[..n], players);
      TilePayoutsArePayments(tiles[n], players, tiles);
      assert forall t :: t in tiles[..n] ==> t in tiles;
    }
  }

  /** Every effect of a roll pays a board player at least one unit of the
      resource of a tile in the leading run, whose number is the dice sum. */
  lemma {:induction false} RollEffectsArePayments(tiles: seq<Tile>, players: seq<Player>, sum: int)
    ensures forall e :: e in RollEffects(tiles, players, sum) ==> IsPayment(e, tiles[..LeadingRun(tiles, sum)], players)
    ensures forall t :: t in tiles[..LeadingRun(tiles, sum)] ==> t.number == sum
  {
    PayoutsArePayments(tiles[..LeadingRun(tiles, sum)], players);
  }

  lemma {:induction false} RollStopsAtFirstMismatch(tiles: seq<Tile>, players: seq<Player>, sum: int)
    requires tiles != [] && tiles[0].number != sum
    ensures RollEffects(tiles, players, sum) == []
  {
  }

  /** The board of the source's roll test: a city of player 1 and one of the two
      settlements of player 2 touch the brick tile numbered 4. */
  lemma RollExample()
    ensures
      var players := [
        Player(1, Resources(0, 0, 0, 0, 0), DevelopmentCards([], []), [],
          [City(Hex(0, 0), Hex(0, 1), Hex(-1, 1), 0)]),
        Player(2, Resources(0, 0, 0, 0, 0), DevelopmentCards([], []),
          [Settlement(Hex(0, 0), Hex(0, -1), Hex(1, -1), 0), Settlement(Hex(0, 2), Hex(0, 3), Hex(1, 3), 0)], [])];
      var tiles := [Tile(Hex(0, 0), Brick, 4)];
      RollEffects(tiles, players, 1 + 3) == [AddResources(1, map[Brick := 2]), AddResources(2, map[Brick := 1])]
  {
    var p1 := Player(1, Resources(0, 0, 0, 0, 0), DevelopmentCards([], []), [],
      [City(Hex(0, 0), Hex(0, 1), Hex(-1, 1), 0)]);
    var s1, s2 := Settlement(Hex(0, 0), Hex(0, -1), Hex(1, -1), 0), Settlement(Hex(0, 2), Hex(0, 3), Hex(1, 3), 0);
    var p2 := Player(2, Resources(0, 0, 0, 0, 0), DevelopmentCards([], []), [s1, s2], []);
    var t := Tile(Hex(0, 0), Brick, 4);
    assert [t][..LeadingRun([t], 4)] == [t];
    assert FindAdjacentCities(t.location, p1.cities) == p1.cities;
    var touches := SettlementTouches(t.location);
    assert [s1, s2][1..] == [s2];
    assert [s2][1..] == [];
    assert Filter([s2], touches) == [];
    assert FindAdjacentSettlements(t.location, p2.settlements) == [s1];
    assert PlayerPayouts(t, p1) == [AddResources(1, map[Brick := 2])];
    assert PlayerPayouts(t, p2) == [AddResources(2, map[Brick := 1])];
    assert [p1, p2][..1] == [p1];
    assert [p1][..0] == [];
    assert TilePayouts(t, [p1]) == PlayerPayouts(t, p1);
    assert TilePayouts(t, [p1, p2]) == PlayerPayouts(t, p1) + PlayerPayouts(t, p2);
    assert [t][..0] == [];
    assert Payouts([t], [p1, p2]) == TilePayouts(t, [p1, p2]);
  }

  function Matches(sum: int): Tile -> bool
  {
    (t: Tile) => t.number == sum
  }

  /** The tiles a roll of the given sum should pay for, wherever they lie. */
  function MatchingTiles(tiles: seq<Tile>, sum: int): (r: seq<Tile>)
    ensures forall t :: t in r <==> t in tiles && t.number == sum
  {
    Filter(tiles, Matches(sum))
  }

  /** The roll the game's rules call for: every tile whose number is the sum
      pays out, in board order. */
  function FullScanEffects(tiles: seq<Tile>, players: seq<Player>, sum: int): seq<Effect>
  {
    Payouts(MatchingTiles(tiles, sum), players)
  }

  /** A tile whose number is not the sum, wherever it lies, changes nothing in
      the full scan; the source's roll, by contrast, ignores every tile after it. */
  lemma {:induction false} FullScanIgnoresNonMatching(xs: seq<Tile>, t: Tile, ys: seq<Tile>, players: seq<Player>, sum: int)
    requires t.number != sum
    ensures FullScanEffects(xs + [t] + ys, players, sum) == FullScanEffects(xs + ys, players, sum)
    ensures RollEffects([t] + ys, players, sum) == []
  {
    FilterSkips(xs, t, ys, Matches(sum));
    assert ([t] + ys)[..LeadingRun([t] + ys, sum)] == [];
  }

  /** When no matching tile follows the first mismatch, the matching tiles are
      exactly the leading run. */
  lemma {:induction false} MatchingTilesAreLeadingRun(tiles: seq<Tile>, sum: int)
    requires forall i :: LeadingRun(tiles, sum) <= i < |tiles| ==> tiles[i].number != sum
    ensures MatchingTiles(tiles, sum) == tiles[..LeadingRun(tiles, sum)]
  {
    var n := LeadingRun(tiles, sum);
    var keep := Matches(sum);
    assert tiles == tiles[..n] + tiles[n..];
    assert forall i :: 0 <= i < |tiles[..n]| ==> keep(tiles[..n][i]);
    assert forall i :: 0 <= i < |tiles[n..]| ==> !keep(tiles[n..][i]) by {
      forall i | 0 <= i < |tiles[n..]| ensures !keep(tiles[n..][i]) {
        assert tiles[n..][i] == tiles[n + i];
      }
    }
    FilterAppend(tiles[..n], tiles[n..], keep);
    FilterAll(tiles[..n], keep);
    FilterNone(tiles[n..], keep);
  }

  /** When no matching tile follows the first mismatch the source's roll and
      the full scan agree. */
  lemma {:induction false} RollAgreesWithFullScan(tiles: seq<Tile>, players: seq<Player>, sum: int)
    requires forall i :: LeadingRun(tiles, sum) <= i < |tiles| ==> tiles[i].number != sum
    ensures RollEffects(tiles, players, sum) == FullScanEffects(tiles, players, sum)
  {
    MatchingTilesAreLeadingRun(tiles, sum);
  }

  lemma FullScanSnoc(tiles: seq<Tile>, i: nat, players: seq<Player>, sum: int)
    requires i < |tiles|
    ensures FullScanEffects(tiles[..i + 1], players, sum)
      == FullScanEffects(tiles[..i], players, sum) + (if tiles[i].number == sum then TilePayouts(tiles[i], players) else [])
  {
    var keep := Matches(sum);
    assert tiles[..i + 1] == tiles[..i] + [tiles[i]];
    FilterAppend(tiles[..i], [tiles[i]], keep);
    assert [tiles[i]][1..] == [];
    var m := MatchingTiles(tiles[..i], sum);
    if tiles[i].number == sum {
      assert (m + [tiles[i]])[..|m|] == m;
    } else {
      assert m + [] == m;
    }
  }

  /** The roll with the early exit removed: every tile is visited and each one
      whose number is the sum pays out. */
  method DoRollFullScan(b: Board, r: Roll) returns (effects: seq<Effect>)
    ensures effects == FullScanEffects(b.tiles, b.players, r.a + r.b)
  {
    effects := [];
    var sum := r.a + r.b;
    var i := 0;
    while i < |b.tiles|
      invariant 0 <= i <= |b.tiles|
      invariant effects == FullScanEffects(b.tiles[..i], b.players, sum)
    {
      var t := b.tiles[i];
      FullScanSnoc(b.tiles, i, b.players, sum);
      if t.number == sum {
        effects := PayTile(effects, t, b.players);
      }
      i := i + 1;
    }
    assert b.tiles[..i] == b.tiles;
  }

  /** Summed over the full scan, each player receives of each kind exactly what
      all matching tiles owe them. */
  lemma FullScanPaysEntitlement(tiles: seq<Tile>, players: seq<Player>, sum: int, id: PlayerId, k: Resource)
    ensures NetChange(FullScanEffects(tiles, players, sum), id, k) == Entitled(MatchingTiles(tiles, sum), players, id, k)
  {
    PayoutsNet(MatchingTiles(tiles, sum), players, id, k);
  }

  /** A mismatching tile in front hides a matching tile that would pay out. */
  lemma RollSkipsLaterMatchingTile()
    ensures
      var players := [Player(1, Resources(0, 0, 0, 0, 0), DevelopmentCards([], []), [],
        [City(Hex(0, 0), Hex(0, 1), Hex(-1, 1), 0)])];
      var tiles := [Tile(Hex(2, 0), Grain, 6), Tile(Hex(0, 0), Brick, 4)];
      && RollEffects(tiles, players, 4) == []
      && FullScanEffects(tiles, players, 4) == [AddResources(1, map[Brick := 2])]
  {
    var p := Player(1, Resources(0, 0, 0, 0, 0), DevelopmentCards([], []), [],
      [City(Hex(0, 0), Hex(0, 1), Hex(-1, 1), 0)]);
    var t0, t1 := Tile(Hex(2, 0), Grain, 6), Tile(Hex(0, 0), Brick, 4);
    assert [t0, t1][..LeadingRun([t0, t1], 4)] == [];
    var keep := Matches(4);
    assert [t0, t1] == [t0] + [t1];
    FilterAppend([t0], [t1], keep);
    assert Filter([t0], keep) == [];
    assert Filter([t1], keep) == [t1];
    assert MatchingTiles([t0, t1], 4) == [t1];
    assert FindAdjacentCities(t1.location, p.cities) == p.cities;
    assert PlayerPayouts(t1, p) == [AddResources(1, map[Brick := 2])];
    assert [p][..0] == [];
  }

  // ---------------------------------------------------------------------------
  // Robbing a player

  /** The range rand.Intn(|units| - 1) draws from: the victim's last unit is
      never drawn, and fewer than two units make the draw panic. */
  predicate RobChoiceAllowed(players: seq<Player>, victim: PlayerId, choice: nat)
  {
    match FindPlayer(players, victim)
    case None => true
    case Some(v) => choice < |Units(v.resources)| - 1
  }

  /** Moving the victim's unit at position choice to the robber; nothing when
      the victim is not on the board. Any unit the victim holds may be chosen. */
  function RobEffects(players: seq<Player>, rob: Rob, choice: nat): (r: seq<Effect>)
    requires FindPlayer(players, rob.victim).Some? ==> choice < |Units(FindPlayer(players, rob.victim).value.resources)|
    ensures FindPlayer(players, rob.victim).None? <==> r == []
    ensures FindPlayer(players, rob.victim).Some? ==>
      && |r| == 2
      && r[0].RemoveResources? && r[0].playerId == rob.victim
      && r[1].AddResources? && r[1].playerId == rob.robber
      && r[0].resources == r[1].resources
      && |r[0].resources.Keys| == 1
      && forall k :: k in r[0].resources ==>
           r[0].resources[k] == 1 && IsReal(k) && Held(FindPlayer(players, rob.victim).value.resources, k) >= 1
  {
    match FindPlayer(players, rob.victim)
    case None => []
    case Some(v) =>
      UnitIsHeld(v.resources, choice);
      var k := Units(v.resources)[choice];
      assert map[k := 1].Keys == {k};
      [RemoveResources(rob.victim, map[k := 1]), AddResources(rob.robber, map[k := 1])]
  }

  method DoRob(b: Board, r: Rob, choice: nat) returns (effects: seq<Effect>)
    requires RobChoiceAllowed(b.players, r.victim, choice)
    ensures effects == RobEffects(b.players, r, choice)
  {
    effects := [];
    var i := 0;
    while i < |b.players|
      invariant 0 <= i <= |b.players|
      invariant forall j :: 0 <= j < i ==> b.players[j].id != r.victim
      invariant effects == []
    {
      var p := b.players[i];
      if p.id == r.victim {
        var resources := ResourcesAsSlice(p);
        var robbedResource := resources[choice];
        effects := effects + [
          RemoveResources(r.victim, map[robbedResource := 1]),
          AddResources(r.robber, map[robbedResource := 1])
        ];
        break;
      }
      i := i + 1;
    }
  }

  /** Robbing moves resources between hands and creates or destroys none. */
  lemma RobConserves(players: seq<Player>, rob: Rob, choice: nat, k: Resource)
    requires FindPlayer(players, rob.victim).Some? ==> choice < |Units(FindPlayer(players, rob.victim).value.resources)|
    ensures SystemChange(RobEffects(players, rob, choice), k) == 0
    ensures rob.robber != rob.victim ==>
      NetChange(RobEffects(players, rob, choice), rob.victim, k) == -NetChange(RobEffects(players, rob, choice), rob.robber, k)
  {
    var r := RobEffects(players, rob, choice);
    if r != [] {
      assert r == [r[0], r[1]];
      LedgerOfPair(r[0], r[1], rob.victim, k);
      LedgerOfPair(r[0], r[1], rob.robber, k);
    }
  }

  /** Over the full range of choices, every kind the victim holds can be taken. */
  lemma RobAnyHeldKindReachable(players: seq<Player>, rob: Rob, k: Resource)
    requires FindPlayer(players, rob.victim).Some?
    requires Held(FindPlayer(players, rob.victim).value.resources, k) >= 1
    ensures IsReal(k)
    ensures
      var res := FindPlayer(players, rob.victim).value.resources;
      && StartOf(res, k) < |Units(res)|
      && RobEffects(players, rob, StartOf(res, k))
         == [RemoveResources(rob.victim, map[k := 1]), AddResources(rob.robber, map[k := 1])]
  {
    var res := FindPlayer(players, rob.victim).value.resources;
    UnitsLength(res);
    UnitAt(res, StartOf(res, k), k);
  }

  /** The source's draw needs at least two units: a victim with fewer cannot be robbed. */
  lemma RobNeedsTwoUnits(players: seq<Player>, victim: PlayerId, choice: nat)
    requires FindPlayer(players, victim).Some?
    requires |Units(FindPlayer(players, victim).value.resources)| < 2
    ensures !RobChoiceAllowed(players, victim, choice)
  {
  }

  /** A victim holding one brick and one wool only ever loses the brick: the
      wool is the last unit and the source's draw never reaches it. */
  lemma RobLastUnitUnreachable(choice: nat)
    requires RobChoiceAllowed([Player(2, Resources(1, 0, 0, 0, 1), DevelopmentCards([], []), [], [])], 2, choice)
    ensures RobEffects([Player(2, Resources(1, 0, 0, 0, 1), DevelopmentCards([], []), [], [])], Rob(1, 2), choice)
      == [RemoveResources(2, map[Brick := 1]), AddResources(1, map[Brick := 1])]
  {
    var res := Resources(1, 0, 0, 0, 1);
    UnitsLength(res);
    UnitAt(res, 0, Brick);
  }

  // ---------------------------------------------------------------------------
  // Trading

  /** Each side gains the other's offer and gives up its own; the holdings are
      not checked. */
  function DoTrade(b: Board, t: Trade): (r: seq<Effect>)
    ensures r == [
      AddResources(t.party.playerId, t.counterparty.resources),
      RemoveResources(t.party.playerId, t.party.resources),
      AddResources(t.counterparty.playerId, t.party.resources),
      RemoveResources(t.counterparty.playerId, t.counterparty.resources)]
    ensures forall k :: SystemChange(r, k) == 0
    ensures t.party.playerId != t.counterparty.playerId ==> forall k ::
      && NetChange(r, t.party.playerId, k) == Get(t.counterparty.resources, k) - Get(t.party.resources, k)
      && NetChange(r, t.counterparty.playerId, k) == Get(t.party.resources, k) - Get(t.counterparty.resources, k)
    ensures forall id, k :: id != t.party.playerId && id != t.counterparty.playerId ==> NetChange(r, id, k) == 0
  {
    var r := [
      AddResources(t.party.playerId, t.counterparty.resources),
      RemoveResources(t.party.playerId, t.party.resources),

      AddResources(t.counterparty.playerId, t.party.resources),
      RemoveResources(t.counterparty.playerId, t.counterparty.resources)
    ];
    assert forall id, k :: NetChange(r, id, k) == Delta(r[0], id, k) + Delta(r[1], id, k) + Delta(r[2], id, k) + Delta(r[3], id, k) by {
      forall id, k {
        LedgerOfQuad(r[0], r[1], r[2], r[3], id, k);
      }
    }
    assert forall k :: SystemChange(r, k) == Flow(r[0], k) + Flow(r[1], k) + Flow(r[2], k) + Flow(r[3], k) by {
      forall k {
        LedgerOfQuad(r[0], r[1], r[2], r[3], t.party.playerId, k);
      }
    }
    r
  }

  // ---------------------------------------------------------------------------
  // Purchases

  const DevCardCost: Bag := map[Grain := 1, Wool := 1, Ore := 1]
  const RoadCost: Bag := map[Lumber := 1, Brick := 1]
  const SettlementCost: Bag := map[Lumber := 1, Brick := 1, Grain := 1, Wool := 1]
  const CityCost: Bag := map[Ore := 3, Grain := 2]

  /** The counters after the bag has been taken away. */
  ghost function Deduct(res: Resources, bag: Bag): Resources
  {
    Resources(res.brick - Get(bag, Brick), res.grain - Get(bag, Grain), res.lumber - Get(bag, Lumber),
      res.ore - Get(bag, Ore), res.wool - Get(bag, Wool))
  }

  /** Each fixed cost is covered exactly when the source's thresholds are met. */
  lemma CostThresholds(res: Resources)
    ensures Covers(res, DevCardCost) <==> res.grain >= 1 && res.ore >= 1 && res.wool >= 1
    ensures Covers(res, RoadCost) <==> res.lumber >= 1 && res.brick >= 1
    ensures Covers(res, SettlementCost) <==> res.lumber >= 1 && res.brick >= 1 && res.grain >= 1 && res.wool >= 1
    ensures Covers(res, CityCost) <==> res.ore >= 3 && res.grain >= 2
  {
    assert Grain in DevCardCost && Ore in DevCardCost && Wool in DevCardCost;
    assert Lumber in RoadCost && Brick in RoadCost;
    assert Lumber in SettlementCost && Brick in SettlementCost && Grain in SettlementCost && Wool in SettlementCost;
    assert Ore in CityCost && Grain in CityCost;
  }

  /** A purchase's two effects charge the buyer exactly the cost. */
  lemma PurchaseCharges(add: Effect, id: PlayerId, cost: Bag, k: Resource)
    requires !add.AddResources? && !add.RemoveResources?
    ensures NetChange([add, RemoveResources(id, cost)], id, k) == -Get(cost, k)
  {
    LedgerOfPair(add, RemoveResources(id, cost), id, k);
  }

  function DoBuyDevCard(b: Board, buy: BuyDevCard): (r: Result<seq<Effect>>)
    ensures FindPlayer(b.players, buy.playerId).None? <==> r == Err(PlayerNotFound(buy.playerId))
    ensures FindPlayer(b.players, buy.playerId).Some? ==>
      var res := FindPlayer(b.players, buy.playerId).value.resources;
      && (r.Ok? <==> Covers(res, DevCardCost))
      && (!Covers(res, DevCardCost) ==> r == Err(InsufficientResources))
      && (r.Ok? && NonNegative(res) ==> NonNegative(Deduct(res, DevCardCost)))
    ensures r.Ok? ==> r.value == [AddDevCard(buy.playerId, buy.card), RemoveResources(buy.playerId, DevCardCost)]
    ensures r.Ok? ==> forall k :: NetChange(r.value, buy.playerId, k) == -Get(DevCardCost, k)
  {
    match FindPlayer(b.players, buy.playerId)
    case None => Err(PlayerNotFound(buy.playerId))
    case Some(player) =>
      CostThresholds(player.resources);
      if player.resources.grain < 1 || player.resources.ore < 1 || player.resources.wool < 1 then
        Err(InsufficientResources)
      else
        var r := [AddDevCard(buy.playerId, buy.card), RemoveResources(buy.playerId, DevCardCost)];
        assert forall k :: NetChange(r, buy.playerId, k) == -Get(DevCardCost, k) by {
          forall k {
            PurchaseCharges(AddDevCard(buy.playerId, buy.card), buy.playerId, DevCardCost, k);
          }
        }
        Ok(r)
  }

  function DoBuildRoad(b: Board, road: BuildRoad): (r: Result<seq<Effect>>)
    ensures FindPlayer(b.players, road.playerId).None? <==> r == Err(PlayerNotFound(road.playerId))
    ensures FindPlayer(b.players, road.playerId).Some? ==>
      var res := FindPlayer(b.players, road.playerId).value.resources;
      && (r.Ok? <==> Covers(res, RoadCost))
      && (!Covers(res, RoadCost) ==> r == Err(InsufficientResources))
      && (r.Ok? && NonNegative(res) ==> NonNegative(Deduct(res, RoadCost)))
    ensures r.Ok? ==> r.value == [AddRoad(road.playerId, road.road), RemoveResources(road.playerId, RoadCost)]
    ensures r.Ok? ==> forall k :: NetChange(r.value, road.playerId, k) == -Get(RoadCost, k)
  {
    match FindPlayer(b.players, road.playerId)
    case None => Err(PlayerNotFound(road.playerId))
    case Some(player) =>
      CostThresholds(player.resources);
      if player.resources.lumber < 1 || player.resources.brick < 1 then
        Err(InsufficientResources)
      else
        var r := [AddRoad(road.playerId, road.road), RemoveResources(road.playerId, RoadCost)];
        assert forall k :: NetChange(r, road.playerId, k) == -Get(RoadCost, k) by {
          forall k {
            PurchaseCharges(AddRoad(road.playerId, road.road), road.playerId, RoadCost, k);
          }
        }
        Ok(r)
  }

  function DoBuildSettlement(b: Board, s: BuildSettlement): (r: Result<seq<Effect>>)
    ensures FindPlayer(b.players, s.playerId).None? <==> r == Err(PlayerNotFound(s.playerId))
    ensures FindPlayer(b.players, s.playerId).Some? ==>
      var res := FindPlayer(b.players, s.playerId).value.resources;
      && (r.Ok? <==> Covers(res, SettlementCost))
      && (!Covers(res, SettlementCost) ==> r == Err(InsufficientResources))
      && (r.Ok? && NonNegative(res) ==> NonNegative(Deduct(res, SettlementCost)))
    ensures r.Ok? ==> r.value == [AddSettlement(s.playerId, s.settlement), RemoveResources(s.playerId, SettlementCost)]
    ensures r.Ok? ==> forall k :: NetChange(r.value, s.playerId, k) == -Get(SettlementCost, k)
  {
    match FindPlayer(b.players, s.playerId)
    case None => Err(PlayerNotFound(s.playerId))
    case Some(player) =>
      CostThresholds(player.resources);
      if player.resources.lumber < 1 || player.resources.brick < 1
        || player.resources.grain < 1 || player.resources.wool < 1 then
        Err(InsufficientResources)
      else
        var r := [AddSettlement(s.playerId, s.settlement), RemoveResources(s.playerId, SettlementCost)];
        assert forall k :: NetChange(r, s.playerId, k) == -Get(SettlementCost, k) by {
          forall k {
            PurchaseCharges(AddSettlement(s.playerId, s.settlement), s.playerId, SettlementCost, k);
          }
        }
        Ok(r)
  }

  function DoBuildCity(b: Board, c: BuildCity): (r: Result<seq<Effect>>)
    ensures FindPlayer(b.players, c.playerId).None? <==> r == Err(PlayerNotFound(c.playerId))
    ensures FindPlayer(b.players, c.playerId).Some? ==>
      var res := FindPlayer(b.players, c.playerId).value.resources;
      && (r.Ok? <==> Covers(res, CityCost))
      && (!Covers(res, CityCost) ==> r == Err(InsufficientResources))
      && (r.Ok? && NonNegative(res) ==> NonNegative(Deduct(res, CityCost)))
    ensures r.Ok? ==> r.value == [AddCity(c.playerId, c.city), RemoveResources(c.playerId, CityCost)]
    ensures r.Ok? ==> forall k :: NetChange(r.value, c.playerId, k) == -Get(CityCost, k)
  {
    match FindPlayer(b.players, c.playerId)
    case None => Err(PlayerNotFound(c.playerId))
    case Some(player) =>
      CostThresholds(player.resources);
      if player.resources.ore < 3 || player.resources.grain < 2 then
        Err(InsufficientResources)
      else
        var r := [AddCity(c.playerId, c.city), RemoveResources(c.playerId, CityCost)];
        assert forall k :: NetChange(r, c.playerId, k) == -Get(CityCost, k) by {
          forall k {
            PurchaseCharges(AddCity(c.playerId, c.city), c.playerId, CityCost, k);
          }
        }
        Ok(r)
  }

  // ---------------------------------------------------------------------------
  // The source's table tests for trades and purchases

  lemma TradeExample()
    ensures
      var players := [
        Player(1, Resources(0, 0, 0, 3, 0), DevelopmentCards([], []), [], []),
        Player(2, Resources(2, 4, 0, 0, 0), DevelopmentCards([], []), [], [])];
      var trade := Trade(Offer(1, map[Brick := 2, Grain := 3]), Offer(2, map[Ore := 3]));
      DoTrade(Board(Hex(0, 0), players, []), trade) == [
        AddResources(1, map[Ore := 3]), RemoveResources(1, map[Brick := 2, Grain := 3]),
        AddResources(2, map[Brick := 2, Grain := 3]), RemoveResources(2, map[Ore := 3])]
  {
  }

  lemma BuyDevCardExample()
    ensures
      var b := Board(Hex(0, 0), [Player(1, Resources(0, 1, 0, 3, 1), DevelopmentCards([], []), [], [])], []);
      DoBuyDevCard(b, BuyDevCard(1, VictoryPoint))
        == Ok([AddDevCard(1, VictoryPoint), RemoveResources(1, map[Grain := 1, Wool := 1, Ore := 1])])
  {
  }

  lemma BuildRoadExample()
    ensures
      var b := Board(Hex(0, 0), [Player(1, Resources(1, 0, 1, 0, 0), DevelopmentCards([], []), [], [])], []);
      var road := Road(Hex(0, 0), Hex(0, 1), 0);
      DoBuildRoad(b, BuildRoad(1, road)) == Ok([AddRoad(1, road), RemoveResources(1, map[Brick := 1, Lumber := 1])])
  {
    var b := Board(Hex(0, 0), [Player(1, Resources(1, 0, 1, 0, 0), DevelopmentCards([], []), [], [])], []);
    assert FindPlayer(b.players, 1) == Some(b.players[0]);
    assert map[Brick := 1, Lumber := 1] == RoadCost;
  }

  lemma BuildSettlementExample()
    ensures
      var b := Board(Hex(0, 0), [Player(1, Resources(1, 1, 1, 0, 2), DevelopmentCards([], []), [], [])], []);
      var s := Settlement(Hex(0, 0), Hex(0, 1), Hex(1, 1), 0);
      DoBuildSettlement(b, BuildSettlement(1, s))
        == Ok([AddSettlement(1, s), RemoveResources(1, map[Brick := 1, Lumber := 1, Grain := 1, Wool := 1])])
  {
    var b := Board(Hex(0, 0), [Player(1, Resources(1, 1, 1, 0, 2), DevelopmentCards([], []), [], [])], []);
    assert FindPlayer(b.players, 1) == Some(b.players[0]);
    assert map[Brick := 1, Lumber := 1, Grain := 1, Wool := 1] == SettlementCost;
  }
}
