/** The vocabulary of the resolver (game/actions.go): the effects it emits,
    the actions players declare, and a ghost ledger that reads resource
    amounts off an effect list so the resolver's promises can be stated. */
module Effects {
  import opened Game

  /** A bag of resources: a count per kind, a missing kind counting zero. */
  type Bag = map<Resource, int>

  function Get(bag: Bag, k: Resource): int
  {
    if k in bag then bag[k] else 0
  }

  /** An atomic state change, to be applied in the order it is returned. */
  datatype Effect =
    | AddResources(playerId: PlayerId, resources: Bag)
    | RemoveResources(playerId: PlayerId, resources: Bag)
    | AddDevCard(playerId: PlayerId, card: DevelopmentCard)
    | AddRoad(playerId: PlayerId, road: Road)
    | AddSettlement(playerId: PlayerId, settlement: Settlement)
    | AddCity(playerId: PlayerId, city: City)

  datatype Roll = Roll(a: int, b: int)

  datatype Rob = Rob(robber: PlayerId, victim: PlayerId)

  /** One side of a trade: who offers, and what. */
  datatype Offer = Offer(playerId: PlayerId, resources: Bag)

  datatype Trade = Trade(party: Offer, counterparty: Offer)

  datatype BuyDevCard = BuyDevCard(playerId: PlayerId, card: DevelopmentCard)

  datatype BuildRoad = BuildRoad(playerId: PlayerId, road: Road)

  datatype BuildSettlement = BuildSettlement(playerId: PlayerId, settlement: Settlement)

  datatype BuildCity = BuildCity(playerId: PlayerId, city: City)

  /** Something a player declares, not yet checked against the board. */
  datatype Action =
    | RollAction(roll: Roll)
    | RobAction(rob: Rob)
    | TradeAction(trade: Trade)
    | BuyDevCardAction(buy: BuyDevCard)
    | BuildRoadAction(buildRoad: BuildRoad)
    | BuildSettlementAction(buildSettlement: BuildSettlement)
    | BuildCityAction(buildCity: BuildCity)

  /** How much of kind k one effect gives to (positive) or takes from
      (negative) the given player. */
  ghost function Delta(e: Effect, id: PlayerId, k: Resource): int
  {
    match e
    case AddResources(p, bag) => if p == id then Get(bag, k) else 0
    case RemoveResources(p, bag) => if p == id then -Get(bag, k) else 0
    case _ => 0
  }

  /** How much of kind k one effect adds to or removes from all hands together. */
  ghost function Flow(e: Effect, k: Resource): int
  {
    match e
    case AddResources(_, bag) => Get(bag, k)
    case RemoveResources(_, bag) => -Get(bag, k)
    case _ => 0
  }

  /** The net change of a player's count of kind k once all effects are applied. */
  ghost function NetChange(effects: seq<Effect>, id: PlayerId, k: Resource): int
  {
    if effects == [] then 0 else Delta(effects[0], id, k) + NetChange(effects[1..], id, k)
  }

  /** The net change, over all players together, of the amount of kind k in hand. */
  ghost function SystemChange(effects: seq<Effect>, k: Resource): int
  {
    if effects == [] then 0 else Flow(effects[0], k) + SystemChange(effects[1..], k)
  }

  lemma {:induction false} NetChangeAppend(xs: seq<Effect>, ys: seq<Effect>, id: PlayerId, k: Resource)
    ensures NetChange(xs + ys, id, k) == NetChange(xs, id, k) + NetChange(ys, id, k)
  {
    if xs != [] {
      assert (xs + ys)[1..] == xs[1..] + ys;
      NetChangeAppend(xs[1..], ys, id, k);
    } else {
      assert xs + ys == ys;
    }
  }

  lemma {:induction false} SystemChangeAppend(xs: seq<Effect>, ys: seq<Effect>, k: Resource)
    ensures SystemChange(xs + ys, k) == SystemChange(xs, k) + SystemChange(ys, k)
  {
    if xs != [] {
      assert (xs + ys)[1..] == xs[1..] + ys;
      SystemChangeAppend(xs[1..], ys, k);
    } else {
      assert xs + ys == ys;
    }
  }

  lemma LedgerOfPair(e0: Effect, e1: Effect, id: PlayerId, k: Resource)
    ensures NetChange([e0, e1], id, k) == Delta(e0, id, k) + Delta(e1, id, k)
    ensures SystemChange([e0, e1], k) == Flow(e0, k) + Flow(e1, k)
  {
    assert [e0, e1][1..] == [e1];
    assert [e1][1..] == [];
    assert NetChange([e1], id, k) == Delta(e1, id, k) + NetChange([], id, k);
    assert SystemChange([e1], k) == Flow(e1, k) + SystemChange([], k);
  }

  lemma LedgerOfQuad(e0: Effect, e1: Effect, e2: Effect, e3: Effect, id: PlayerId, k: Resource)
    ensures NetChange([e0, e1, e2, e3], id, k) == Delta(e0, id, k) + Delta(e1, id, k) + Delta(e2, id, k) + Delta(e3, id, k)
    ensures SystemChange([e0, e1, e2, e3], k) == Flow(e0, k) + Flow(e1, k) + Flow(e2, k) + Flow(e3, k)
  {
    assert [e0, e1, e2, e3] == [e0, e1] + [e2, e3];
    LedgerOfPair(e0, e1, id, k);
    LedgerOfPair(e2, e3, id, k);
    NetChangeAppend([e0, e1], [e2, e3], id, k);
    SystemChangeAppend([e0, e1], [e2, e3], k);
  }

  /** A player's holdings cover a bag when every kind the bag names is held at
      least in the amount the bag names. */
  predicate Covers(res: Resources, bag: Bag)
  {
    forall k :: k in bag ==> Held(res, k) >= bag[k]
  }
}
