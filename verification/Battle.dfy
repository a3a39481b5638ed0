/** One level in play (internal/gameplay/battle/service.go): the order engine, its commands, and what
    every run of commands keeps. A battle is a value here, with pure steps; the class of `BattleRuntime`
    is the source's mutable object, proved to take exactly those steps. */
module Battle {
  import opened Common
  import opened GameData

  datatype OrderState = OrderState(
    orderId: int, name: string, orderType: string, requirements: seq<ResourceAmount>, completed: bool)

  /** The part of a session that completing orders changes. */
  datatype Engine = Engine(
    resources: map<string, int>, orders: seq<OrderState>, completed: nat, nextIndex: nat, pending: seq<ItemCount>)

  datatype Battle = Battle(turn: int, actionPoint: int, engine: Engine, settled: bool, failed: bool)

  /** The row of a player's progress on a level, and what a settlement answers. */
  datatype Progress = Progress(clearCount: int, firstAt: int, lastAt: int)

  datatype SettleResult = SettleResult(firstClear: bool, progress: Progress, rewards: seq<ItemCount>)

  datatype BattleError =
    | InvalidReqId | CardNotFound | CardNotInSession | InsufficientResource | InsufficientActionPoint
    | LevelNotComplete | LevelAlreadyComplete | LevelFailed | StorageFailed

  // ---- Resources and requirements ----

  function Amount(m: map<string, int>, r: string): int {
    if r in m then m[r] else 0
  }

  predicate CanComplete(m: map<string, int>, reqs: seq<ResourceAmount>) {
    forall i :: 0 <= i < |reqs| ==> Amount(m, reqs[i].resource) >= reqs[i].count
  }

  function Take(m: map<string, int>, req: ResourceAmount): map<string, int> {
    m[req.resource := Amount(m, req.resource) - req.count]
  }

  function Consume(m: map<string, int>, reqs: seq<ResourceAmount>): map<string, int> {
    if reqs == [] then m else Take(Consume(m, reqs[..|reqs| - 1]), reqs[|reqs| - 1])
  }

  /** How much of `r` a list of requirements asks for in all. */
  function Demand(reqs: seq<ResourceAmount>, r: string): int {
    if reqs == [] then 0
    else Demand(reqs[..|reqs| - 1], r) + if reqs[|reqs| - 1].resource == r then reqs[|reqs| - 1].count else 0
  }

  ghost predicate NonNegativeCounts(reqs: seq<ResourceAmount>) {
    forall i :: 0 <= i < |reqs| ==> reqs[i].count >= 0
  }

  /** Consuming takes exactly the total demand of every resource. */
  lemma {:induction false} ConsumeTakesDemand(m: map<string, int>, reqs: seq<ResourceAmount>, r: string)
    ensures Amount(Consume(m, reqs), r) == Amount(m, r) - Demand(reqs, r)
  {
    if reqs != [] {
      ConsumeTakesDemand(m, reqs[..|reqs| - 1], r);
    }
  }

  lemma {:induction false} DemandNonNegative(reqs: seq<ResourceAmount>, r: string)
    requires NonNegativeCounts(reqs)
    ensures Demand(reqs, r) >= 0
  {
    if reqs != [] {
      DemandNonNegative(reqs[..|reqs| - 1], r);
    }
  }

  // ---- The order engine ----

  const BLANK_ORDER := OrderState(0, "", "", [], false)

  /** The order drawn for list position `i`: the pool is used round robin. */
  function PoolOrder(d: Data, lv: LevelConfig, i: nat): OrderState {
    if lv.orderPool == [] then BLANK_ORDER
    else
      var id := lv.orderPool[i % |lv.orderPool|].orderId;
      if id in d.orders then
        var o := d.orders[id];
        OrderState(o.orderId, o.name, o.orderType, o.requirements, false)
      else BLANK_ORDER
  }

  function OrderRewards(d: Data, orderId: int): seq<ItemCount> {
    if orderId in d.orders then d.orders[orderId].rewards else []
  }

  function AppendOrder(d: Data, lv: LevelConfig, s: Engine): Engine {
    s.(orders := s.orders + [PoolOrder(d, lv, s.nextIndex)],
       nextIndex := if lv.orderPool == [] then s.nextIndex else s.nextIndex + 1)
  }

  predicate Ready(s: Engine, i: nat)
    requires i < |s.orders|
  {
    !s.orders[i].completed && CanComplete(s.resources, s.orders[i].requirements)
  }

  function Complete(d: Data, lv: LevelConfig, s: Engine, i: nat): Engine
    requires i < |s.orders|
  {
    var o := s.orders[i];
    var paid := s.(
      resources := Consume(s.resources, o.requirements),
      orders := s.orders[i := o.(completed := true)],
      completed := s.completed + 1,
      pending := s.pending + OrderRewards(d, o.orderId));
    if paid.completed < lv.target then AppendOrder(d, lv, paid) else paid
  }

  function Visit(d: Data, lv: LevelConfig, s: Engine, i: nat): Engine
    requires i < |s.orders|
  {
    if Ready(s, i) then Complete(d, lv, s, i) else s
  }

  /** Orders still to be looked at, plus orders that may still be drawn. */
  function Remaining(lv: LevelConfig, s: Engine, i: nat): int {
    |s.orders| - i + if lv.target > s.completed then lv.target - s.completed else 0
  }

  /** The reference: one left-to-right scan over the list while it grows. */
  function Scan(d: Data, lv: LevelConfig, s: Engine, i: nat): Engine
    requires i <= |s.orders|
    decreases Remaining(lv, s, i)
  {
    if i == |s.orders| then s else Scan(d, lv, Visit(d, lv, s, i), i + 1)
  }

  /** Requirement counts are not negative; the validator makes them positive. */
  ghost predicate Sane(d: Data, s: Engine) {
    && (forall i :: 0 <= i < |s.orders| ==> NonNegativeCounts(s.orders[i].requirements))
    && (forall k :: k in d.orders ==> NonNegativeCounts(d.orders[k].requirements))
  }

  /** No order before `n` can be completed. */
  ghost predicate QuietBefore(s: Engine, n: nat) {
    n <= |s.orders| && forall k :: 0 <= k < n ==> !Ready(s, k)
  }

  /** Visiting order `i` leaves it quiet, and wakes no other order: resources only fall. */
  lemma VisitQuietens(d: Data, lv: LevelConfig, s: Engine, i: nat)
    requires Sane(d, s) && i < |s.orders|
    ensures Sane(d, Visit(d, lv, s, i)) && |s.orders| <= |Visit(d, lv, s, i).orders|
    ensures !Ready(Visit(d, lv, s, i), i)
    ensures forall k :: 0 <= k < |s.orders| && !Ready(s, k) ==> !Ready(Visit(d, lv, s, i), k)
  {
    if Ready(s, i) {
      forall r ensures Amount(Consume(s.resources, s.orders[i].requirements), r) <= Amount(s.resources, r) {
        ConsumeTakesDemand(s.resources, s.orders[i].requirements, r);
        DemandNonNegative(s.orders[i].requirements, r);
      }
    }
  }

  /** After the scan nothing unfinished is completable. */
  lemma {:induction false} ScanQuietens(d: Data, lv: LevelConfig, s: Engine, i: nat)
    requires Sane(d, s) && QuietBefore(s, i)
    ensures var t := Scan(d, lv, s, i); Sane(d, t) && QuietBefore(t, |t.orders|)
    decreases Remaining(lv, s, i)
  {
    if i < |s.orders| {
      VisitQuietens(d, lv, s, i);
      ScanQuietens(d, lv, Visit(d, lv, s, i), i + 1);
    }
  }

  // ---- Bookkeeping: what the engine counts, over the completed orders ----

  /** A quantity an order contributes once it is completed. */
  datatype Measure = Orders | Needs(resource: string) | Pays(data: Data, item: ItemCount)

  function Weight(m: Measure, o: OrderState): int {
    match m
    case Orders => 1
    case Needs(r) => Demand(o.requirements, r)
    case Pays(d, item) => if o.orderId in d.orders then multiset(d.orders[o.orderId].rewards)[item] else 0
  }

  /** The sum of a measure over the completed orders. */
  function Done(m: Measure, orders: seq<OrderState>): int {
    if orders == [] then 0
    else
      var o := orders[|orders| - 1];
      Done(m, orders[..|orders| - 1]) + (if o.completed then Weight(m, o) else 0)
  }

  lemma {:induction false} DoneMark(m: Measure, orders: seq<OrderState>, i: nat)
    requires i < |orders| && !orders[i].completed
    ensures Done(m, orders[i := orders[i].(completed := true)]) == Done(m, orders) + Weight(m, orders[i])
  {
    var marked, n := orders[i := orders[i].(completed := true)], |orders| - 1;
    if i == n {
      assert marked[..n] == orders[..n];
    } else {
      DoneMark(m, orders[..n], i);
      assert marked[..n] == orders[..n][i := orders[i].(completed := true)];
    }
  }

  lemma DoneAppend(m: Measure, orders: seq<OrderState>, o: OrderState)
    requires !o.completed
    ensures Done(m, orders + [o]) == Done(m, orders)
  {
    assert (orders + [o])[..|orders|] == orders;
  }

  function Min(a: int, b: int): int { if a < b then a else b }

  /** The list is the pool drawn in order, as long as the goal allows. */
  ghost predicate Listed(d: Data, lv: LevelConfig, s: Engine) {
    && |s.orders| == lv.initialOrders + Min(s.completed, lv.target - 1) && s.nextIndex == |s.orders|
    && forall i :: 0 <= i < |s.orders| ==> s.orders[i].(completed := false) == PoolOrder(d, lv, i)
  }

  /** The counter and the pending rewards are those of the completed orders. */
  ghost predicate Counted(d: Data, s: Engine) {
    && s.completed == Done(Orders, s.orders)
    && forall item :: multiset(s.pending)[item] == Done(Pays(d, item), s.orders)
  }

  ghost predicate Booked(d: Data, lv: LevelConfig, s: Engine) {
    Listed(d, lv, s) && Counted(d, s)
  }

  /** What is left of a resource plus what completed orders took of it. */
  ghost function Funds(s: Engine, r: string): int {
    Amount(s.resources, r) + Done(Needs(r), s.orders)
  }

  lemma DoneComplete(m: Measure, d: Data, lv: LevelConfig, s: Engine, i: nat)
    requires i < |s.orders| && !s.orders[i].completed
    ensures Done(m, Complete(d, lv, s, i).orders) == Done(m, s.orders) + Weight(m, s.orders[i])
  {
    DoneMark(m, s.orders, i);
    DoneAppend(m, s.orders[i := s.orders[i].(completed := true)], PoolOrder(d, lv, s.nextIndex));
  }

  lemma CompleteKeepsList(d: Data, lv: LevelConfig, s: Engine, i: nat)
    requires i < |s.orders| && lv.orderPool != [] && lv.target >= 1 && Listed(d, lv, s)
    ensures Listed(d, lv, Complete(d, lv, s, i))
  {
  }

  lemma CompleteKeepsCounts(d: Data, lv: LevelConfig, s: Engine, i: nat)
    requires i < |s.orders| && !s.orders[i].completed && Counted(d, s)
    ensures Counted(d, Complete(d, lv, s, i))
  {
    var t := Complete(d, lv, s, i);
    DoneComplete(Orders, d, lv, s, i);
    forall item ensures multiset(t.pending)[item] == Done(Pays(d, item), t.orders) {
      DoneComplete(Pays(d, item), d, lv, s, i);
      assert multiset(t.pending) == multiset(s.pending) + multiset(OrderRewards(d, s.orders[i].orderId));
    }
  }

  lemma VisitKeepsBooks(d: Data, lv: LevelConfig, s: Engine, i: nat)
    requires i < |s.orders| && lv.orderPool != [] && lv.target >= 1 && Booked(d, lv, s)
    ensures Booked(d, lv, Visit(d, lv, s, i))
    ensures forall r :: Funds(Visit(d, lv, s, i), r) == Funds(s, r)
  {
    if Ready(s, i) {
      CompleteKeepsList(d, lv, s, i);
      CompleteKeepsCounts(d, lv, s, i);
      forall r ensures Funds(Complete(d, lv, s, i), r) == Funds(s, r) {
        DoneComplete(Needs(r), d, lv, s, i);
        ConsumeTakesDemand(s.resources, s.orders[i].requirements, r);
      }
    }
  }

  lemma {:induction false} ScanKeepsBooks(d: Data, lv: LevelConfig, s: Engine, i: nat)
    requires i <= |s.orders| && lv.orderPool != [] && lv.target >= 1 && Booked(d, lv, s)
    ensures Booked(d, lv, Scan(d, lv, s, i))
    ensures forall r :: Funds(Scan(d, lv, s, i), r) == Funds(s, r)
    decreases Remaining(lv, s, i)
  {
    if i < |s.orders| {
      VisitKeepsBooks(d, lv, s, i);
      ScanKeepsBooks(d, lv, Visit(d, lv, s, i), i + 1);
    }
  }

  // ---- Card effects ----

  predicate IsGain(e: EffectConfig) { e.effectType == "gain_resource" || e.effectType == "periodic_gain" }

  predicate IsConvert(e: EffectConfig) { e.effectType == "convert_resource" }

  function Put(m: map<string, int>, r: string, n: int): map<string, int> {
    m[r := Amount(m, r) + n]
  }

  /** One effect; `None` when a conversion finds too little. Every other effect type does nothing. */
  function ApplyEffect(m: map<string, int>, e: EffectConfig): Option<map<string, int>> {
    if IsGain(e) then Some(Put(m, e.resource, e.value))
    else if IsConvert(e) then
      if Amount(m, e.resource) < e.value then None
      else Some(Put(Put(m, e.resource, -e.value), e.toResource, e.toValue))
    else Some(m)
  }

  function ApplyEffects(m: map<string, int>, effects: seq<EffectConfig>): Option<map<string, int>> {
    if effects == [] then Some(m)
    else
      match ApplyEffects(m, effects[..|effects| - 1])
      case None => None
      case Some(m') => ApplyEffect(m', effects[|effects| - 1])
  }

  /** What the effects bring in of `r`: gains and the products of conversions. */
  function Gained(effects: seq<EffectConfig>, r: string): int {
    if effects == [] then 0
    else
      var e := effects[|effects| - 1];
      Gained(effects[..|effects| - 1], r)
      + if e.effectType in {"gain_resource", "periodic_gain"} && e.resource == r then e.value
        else if e.effectType == "convert_resource" && e.toResource == r then e.toValue else 0
  }

  /** What conversions use up of `r`. */
  function Converted(effects: seq<EffectConfig>, r: string): int {
    if effects == [] then 0
    else
      var e := effects[|effects| - 1];
      Converted(effects[..|effects| - 1], r) + if e.effectType == "convert_resource" && e.resource == r then e.value else 0
  }

  lemma {:induction false} EffectsBalance(m: map<string, int>, effects: seq<EffectConfig>, r: string)
    requires ApplyEffects(m, effects).Some?
    ensures Amount(ApplyEffects(m, effects).value, r) == Amount(m, r) + Gained(effects, r) - Converted(effects, r)
  {
    if effects != [] {
      EffectsBalance(m, effects[..|effects| - 1], r);
    }
  }

  /** Conversion `i` finds enough after all that the effects before it brought in and used up. */
  predicate Fits(m: map<string, int>, effects: seq<EffectConfig>, i: nat)
    requires i < |effects|
  {
    var e, before := effects[i], effects[..i];
    e.effectType == "convert_resource" ==> Amount(m, e.resource) + Gained(before, e.resource) - Converted(before, e.resource) >= e.value
  }

  /** The effects go through exactly when every conversion finds enough. */
  lemma {:induction false} EffectsFitIff(m: map<string, int>, effects: seq<EffectConfig>)
    ensures ApplyEffects(m, effects).Some? <==> forall i :: 0 <= i < |effects| ==> Fits(m, effects, i)
  {
    if effects != [] {
      var n := |effects| - 1;
      EffectsFitIff(m, effects[..n]);
      forall i | 0 <= i < n ensures Fits(m, effects, i) <==> Fits(m, effects[..n], i) { assert effects[..n][..i] == effects[..i]; }
      assert (forall i :: 0 <= i < |effects| ==> Fits(m, effects, i)) <==> (forall i :: 0 <= i < n ==> Fits(m, effects[..n], i)) && Fits(m, effects, n);
      if ApplyEffects(m, effects[..n]).Some? { EffectsBalance(m, effects[..n], effects[n].resource); }
    }
  }

  lemma {:induction false} FlowConcat(a: seq<EffectConfig>, b: seq<EffectConfig>, r: string)
    ensures Gained(a + b, r) == Gained(a, r) + Gained(b, r)
    ensures Converted(a + b, r) == Converted(a, r) + Converted(b, r)
  {
    if b == [] {
      assert a + b == a;
    } else {
      FlowConcat(a, b[..|b| - 1], r);
      assert (a + b)[..|a + b| - 1] == a + b[..|b| - 1];
    }
  }

  // ---- Commands ----

  /** `committed` says whether the settlement transaction went through. */
  datatype Command = PlayCard(cardId: int, reqId: string) | EndTurn(reqId: string) | Settle(reqId: string, committed: bool)

  datatype Outcome = Outcome(after: Battle, error: Option<BattleError>)

  function Fail(b: Battle, e: BattleError): Outcome { Outcome(b, Some(e)) }

  function StepPlay(d: Data, lv: LevelConfig, b: Battle, cardId: int, reqId: string): Outcome {
    if reqId == "" then Fail(b, InvalidReqId)
    else if cardId !in d.cards then Fail(b, CardNotFound)
    else if cardId !in lv.fixedCards then Fail(b, CardNotInSession)
    else if b.settled then Outcome(b, None)
    else if b.failed then Fail(b, LevelFailed)
    else if d.cards[cardId].cost > b.actionPoint then Fail(b, InsufficientActionPoint)
    else
      match ApplyEffects(b.engine.resources, d.cards[cardId].effects)
      case None => Fail(b, InsufficientResource)
      case Some(m) =>
        Outcome(b.(actionPoint := b.actionPoint - d.cards[cardId].cost,
                   engine := Scan(d, lv, b.engine.(resources := m), 0)), None)
  }

  function StepEndTurn(lv: LevelConfig, b: Battle, reqId: string): Outcome {
    if reqId == "" then Fail(b, InvalidReqId)
    else if b.settled || b.failed then Outcome(b, None)
    else if b.engine.completed >= lv.target then Fail(b, LevelAlreadyComplete)
    else if b.turn >= lv.turnLimit then Outcome(b.(failed := true, actionPoint := 0), None)
    else Outcome(b.(turn := b.turn + 1, actionPoint := lv.actionPointPerTurn), None)
  }

  function StepSettle(lv: LevelConfig, b: Battle, reqId: string, committed: bool): Outcome {
    if reqId == "" then Fail(b, InvalidReqId)
    else if b.settled then Outcome(b, None)
    else if b.failed then Fail(b, LevelFailed)
    else if b.engine.completed < lv.target then Fail(b, LevelNotComplete)
    else if !committed then Fail(b, StorageFailed)
    else Outcome(b.(settled := true), None)
  }

  function Step(d: Data, lv: LevelConfig, b: Battle, c: Command): Outcome {
    match c
    case PlayCard(cardId, reqId) => StepPlay(d, lv, b, cardId, reqId)
    case EndTurn(reqId) => StepEndTurn(lv, b, reqId)
    case Settle(reqId, committed) => StepSettle(lv, b, reqId, committed)
  }

  function InitialEngine(d: Data, lv: LevelConfig, n: nat): Engine {
    if n == 0 then Engine(map[], [], 0, 0, []) else AppendOrder(d, lv, InitialEngine(d, lv, n - 1))
  }

  function Start(d: Data, lv: LevelConfig): Battle {
    Battle(1, lv.actionPointPerTurn, InitialEngine(d, lv, if lv.initialOrders > 0 then lv.initialOrders else 0), false, false)
  }

  function Run(d: Data, lv: LevelConfig, commands: seq<Command>): Battle {
    if commands == [] then Start(d, lv)
    else Step(d, lv, Run(d, lv, commands[..|commands| - 1]), commands[|commands| - 1]).after
  }

  /** The card named is one of the session's. */
  predicate InHand(d: Data, lv: LevelConfig, c: Command) { c.PlayCard? && c.reqId != "" && c.cardId in d.cards && c.cardId in lv.fixedCards }

  predicate Running(b: Battle) { !b.settled && !b.failed }

  /** What it takes for a card to have an effect. */
  ghost predicate Playable(d: Data, lv: LevelConfig, b: Battle, c: Command) {
    && InHand(d, lv, c) && Running(b) && d.cards[c.cardId].cost <= b.actionPoint
    && forall i :: 0 <= i < |d.cards[c.cardId].effects| ==> Fits(b.engine.resources, d.cards[c.cardId].effects, i)
  }

  /** The effects a command brings to bear: those of a playable card. */
  ghost function Applied(d: Data, lv: LevelConfig, b: Battle, c: Command): seq<EffectConfig> {
    if Playable(d, lv, b, c) then d.cards[c.cardId].effects else []
  }

  ghost function Played(d: Data, lv: LevelConfig, commands: seq<Command>): seq<EffectConfig> {
    if commands == [] then []
    else
      var before := commands[..|commands| - 1];
      Played(d, lv, before) + Applied(d, lv, Run(d, lv, before), commands[|commands| - 1])
  }

  // ---- What every run keeps ----

  /** The state a player can see between two commands. */
  ghost predicate Consistent(d: Data, lv: LevelConfig, b: Battle, effects: seq<EffectConfig>) {
    && Booked(d, lv, b.engine) && Sane(d, b.engine)
    && QuietBefore(b.engine, |b.engine.orders|)
    && (forall r :: Amount(b.engine.resources, r)
                    == Gained(effects, r) - Converted(effects, r) - Done(Needs(r), b.engine.orders))
    && 1 <= b.turn <= lv.turnLimit && 0 <= b.actionPoint <= lv.actionPointPerTurn
    && (b.failed ==> b.turn == lv.turnLimit && b.engine.completed < lv.target && !b.settled)
    && (b.settled ==> b.engine.completed >= lv.target)
  }

  lemma {:induction false} InitialEngineBooked(d: Data, lv: LevelConfig, n: nat)
    requires BattleReady(d) && LevelReady(d, lv)
    ensures var s := InitialEngine(d, lv, n);
      && s.resources == map[] && s.pending == [] && s.completed == 0 && |s.orders| == n == s.nextIndex
      && Sane(d, s) && QuietBefore(s, n)
      && (forall i :: 0 <= i < n ==> s.orders[i] == PoolOrder(d, lv, i))
      && (forall m :: Done(m, s.orders) == 0)
  {
    if n > 0 {
      InitialEngineBooked(d, lv, n - 1);
      var s, o := InitialEngine(d, lv, n - 1), PoolOrder(d, lv, n - 1);
      assert OrderReady(d.orders[lv.orderPool[(n - 1) % |lv.orderPool|].orderId]);
      assert o.requirements != [] && o.requirements[0].count > 0;
      forall m ensures Done(m, InitialEngine(d, lv, n).orders) == 0 {
        DoneAppend(m, s.orders, o);
      }
      var t := InitialEngine(d, lv, n);
      forall k | 0 <= k < n ensures !Ready(t, k) {
        if k < n - 1 { assert !Ready(s, k); }
      }
    }
  }

  lemma StartConsistent(d: Data, lv: LevelConfig)
    requires BattleReady(d) && LevelReady(d, lv)
    ensures Consistent(d, lv, Start(d, lv), [])
  {
    InitialEngineBooked(d, lv, lv.initialOrders);
    var s := Start(d, lv).engine;
    assert Listed(d, lv, s);
    assert Counted(d, s);
    assert forall r :: Gained([], r) == 0 && Converted([], r) == 0 && Done(Needs(r), s.orders) == 0;
  }

  lemma StepConsistent(d: Data, lv: LevelConfig, b: Battle, effects: seq<EffectConfig>, c: Command)
    requires BattleReady(d) && LevelReady(d, lv) && Consistent(d, lv, b, effects)
    ensures Consistent(d, lv, Step(d, lv, b, c).after, effects + Applied(d, lv, b, c))
  {
    var added := Applied(d, lv, b, c);
    var next := Step(d, lv, b, c).after;
    if c.PlayCard? { PlayMeans(d, lv, b, c); }
    if next.engine == b.engine && added == [] {
      assert effects + added == effects;
    } else {
      var card := d.cards[c.cardId];
      var m := ApplyEffects(b.engine.resources, card.effects).value;
      var s := b.engine.(resources := m);
      ScanKeepsBooks(d, lv, s, 0);
      ScanQuietens(d, lv, s, 0);
      forall r ensures Amount(next.engine.resources, r)
                       == Gained(effects + added, r) - Converted(effects + added, r) - Done(Needs(r), next.engine.orders) {
        assert Funds(next.engine, r) == Funds(s, r);
        EffectsBalance(b.engine.resources, card.effects, r);
        FlowConcat(effects, added, r);
      }
      ScanOnlyAdds(d, lv, s, 0);
    }
  }

  lemma {:induction false} ScanOnlyAdds(d: Data, lv: LevelConfig, s: Engine, i: nat)
    requires i <= |s.orders|
    ensures Scan(d, lv, s, i).completed >= s.completed
    decreases Remaining(lv, s, i)
  {
    if i < |s.orders| {
      ScanOnlyAdds(d, lv, Visit(d, lv, s, i), i + 1);
    }
  }

  /** Every run of commands, from the start of a validated level, leaves a consistent battle: each
      resource is gains minus conversions minus the needs of completed orders, the pending rewards are
      those of the completed orders, the list is the pool drawn round robin to the length the goal
      allows, and no unfinished order is completable. */
  lemma {:induction false} EveryRunConsistent(d: Data, lv: LevelConfig, commands: seq<Command>)
    requires BattleReady(d) && LevelReady(d, lv)
    ensures Consistent(d, lv, Run(d, lv, commands), Played(d, lv, commands))
  {
    if commands == [] {
      StartConsistent(d, lv);
    } else {
      var before := commands[..|commands| - 1];
      EveryRunConsistent(d, lv, before);
      StepConsistent(d, lv, Run(d, lv, before), Played(d, lv, before), commands[|commands| - 1]);
    }
  }

  /** A card takes effect, for its cost, exactly when it is playable. Otherwise nothing changes, and the
      error, if the level was not settled anyway, names the first thing that was wrong. */
  lemma PlayMeans(d: Data, lv: LevelConfig, b: Battle, c: Command)
    requires c.PlayCard?
    ensures var Outcome(after, error) := Step(d, lv, b, c);
      && (error.None? <==> Playable(d, lv, b, c) || (InHand(d, lv, c) && b.settled))
      && (if Playable(d, lv, b, c) then after == b.(actionPoint := b.actionPoint - d.cards[c.cardId].cost, engine := after.engine) else after == b)
      && (error == Some(InvalidReqId) <==> c.reqId == "")
      && (error == Some(CardNotFound) <==> c.reqId != "" && c.cardId !in d.cards)
      && (error == Some(CardNotInSession) <==> c.reqId != "" && c.cardId in d.cards && !InHand(d, lv, c))
      && (error == Some(LevelFailed) <==> InHand(d, lv, c) && !b.settled && b.failed)
      && (error == Some(InsufficientActionPoint) <==> InHand(d, lv, c) && Running(b) && d.cards[c.cardId].cost > b.actionPoint)
  {
    if InHand(d, lv, c) { EffectsFitIff(b.engine.resources, d.cards[c.cardId].effects); }
  }

  /** Ending a turn of a running level short of its goal begins the next with a full allowance, or fails
      the level in its last turn; nothing else about the battle changes, and otherwise nothing at all. */
  lemma EndTurnMeans(d: Data, lv: LevelConfig, b: Battle, reqId: string)
    ensures var Outcome(after, error) := Step(d, lv, b, EndTurn(reqId));
      var short := Running(b) && b.engine.completed < lv.target;
      && (error == if reqId == "" then Some(InvalidReqId) else if Running(b) && !short then Some(LevelAlreadyComplete) else None)
      && after.engine == b.engine && after.settled == b.settled
      && (after.failed <==> b.failed || (reqId != "" && short && b.turn >= lv.turnLimit))
      && (after.turn == b.turn + if reqId != "" && short && b.turn < lv.turnLimit then 1 else 0)
      && (after.actionPoint == if after.turn != b.turn then lv.actionPointPerTurn else if after.failed != b.failed then 0 else b.actionPoint)
  {
  }

  /** A settled level answers every later settlement with a request id, whether storage works or not; one
      that is not settles exactly when it reached its goal in time and storage commits. */
  lemma SettleMeans(d: Data, lv: LevelConfig, b: Battle, reqId: string, committed: bool)
    ensures var Outcome(after, error) := Step(d, lv, b, Settle(reqId, committed));
      && after == b.(settled := after.settled)
      && (after.settled <==> b.settled || (reqId != "" && !b.failed && b.engine.completed >= lv.target && committed))
      && (error.None? <==> reqId != "" && after.settled)
      && (error == Some(InvalidReqId) <==> reqId == "")
      && (error == Some(LevelFailed) <==> reqId != "" && !b.settled && b.failed)
      && (error == Some(LevelNotComplete) <==> reqId != "" && Running(b) && b.engine.completed < lv.target)
  {
  }

  /** What a player sees of an order is what is configured for it. */
  predicate Shows(o: OrderState, c: OrderConfig) {
    o.orderId == c.orderId && o.name == c.name && o.orderType == c.orderType && o.requirements == c.requirements
  }

  /** In every run, entry `i` of the list is the order that the pool has in place `i`, counted round and
      round; and if it is not finished, some resource is short of what it asks for. */
  lemma EveryRunDrawsRoundRobin(d: Data, lv: LevelConfig, commands: seq<Command>, i: nat)
    requires BattleReady(d) && LevelReady(d, lv) && i < |Run(d, lv, commands).engine.orders|
    ensures var s, id := Run(d, lv, commands).engine, lv.orderPool[i % |lv.orderPool|].orderId;
      && id in d.orders && s.orders[i].orderId == id && Shows(s.orders[i], d.orders[id])
      && (!s.orders[i].completed ==> exists q :: q in d.orders[id].requirements && Amount(s.resources, q.resource) < q.count)
  {
    EveryRunConsistent(d, lv, commands);
    var s := Run(d, lv, commands).engine;
    assert s.orders[i].(completed := false) == PoolOrder(d, lv, i) && !Ready(s, i);
  }

  /** A refused command changes nothing: no action point is spent and no effect stays half applied. */
  lemma RefusalChangesNothing(d: Data, lv: LevelConfig, b: Battle, c: Command)
    requires Step(d, lv, b, c).error.Some?
    ensures Step(d, lv, b, c).after == b
  {
  }

  lemma FinishedStands(d: Data, lv: LevelConfig, b: Battle, c: Command)
    requires b.settled || b.failed
    ensures Step(d, lv, b, c).after == b && Applied(d, lv, b, c) == []
  {
  }

  lemma RunStep(d: Data, lv: LevelConfig, commands: seq<Command>)
    requires commands != []
    ensures var before, c := commands[..|commands| - 1], commands[|commands| - 1];
      && Run(d, lv, commands) == Step(d, lv, Run(d, lv, before), c).after
      && Played(d, lv, commands) == Played(d, lv, before) + Applied(d, lv, Run(d, lv, before), c)
  {
  }

  /** Settling and failing are final: no later command changes the battle or applies an effect. */
  lemma {:induction false} FinishedIsFinal(d: Data, lv: LevelConfig, commands: seq<Command>, n: nat)
    requires n <= |commands|
    requires var b := Run(d, lv, commands[..n]); b.settled || b.failed
    ensures Run(d, lv, commands) == Run(d, lv, commands[..n])
    ensures Played(d, lv, commands) == Played(d, lv, commands[..n])
    decreases |commands|
  {
    if n == |commands| {
      assert commands[..n] == commands;
    } else {
      var before := commands[..|commands| - 1];
      assert before[..n] == commands[..n];
      FinishedIsFinal(d, lv, before, n);
      FinishedStands(d, lv, Run(d, lv, before), commands[|commands| - 1]);
      RunStep(d, lv, commands);
    }
  }

  /** What a command costs: that of a card that takes effect. */
  ghost function CostOf(d: Data, lv: LevelConfig, b: Battle, c: Command): int {
    if Playable(d, lv, b, c) then d.cards[c.cardId].cost else 0
  }

  ghost function Spent(d: Data, lv: LevelConfig, commands: seq<Command>): int {
    if commands == [] then 0
    else
      var before, c := commands[..|commands| - 1], commands[|commands| - 1];
      Spent(d, lv, before) + CostOf(d, lv, Run(d, lv, before), c)
  }

  /** What one command spends comes off the points it had, and a new turn brings exactly one allowance. */
  lemma StepSpends(d: Data, lv: LevelConfig, b: Battle, c: Command)
    requires 0 <= b.actionPoint
    ensures var next := Step(d, lv, b, c).after;
      CostOf(d, lv, b, c) + next.actionPoint <= b.actionPoint + if next.turn == b.turn then 0 else lv.actionPointPerTurn
    ensures b.turn <= Step(d, lv, b, c).after.turn <= b.turn + 1
  {
    if c.PlayCard? { PlayMeans(d, lv, b, c); } else if c.EndTurn? { EndTurnMeans(d, lv, b, c.reqId); }
  }

  ghost predicate Within(lv: LevelConfig, b: Battle, spent: int) { spent + b.actionPoint <= lv.actionPointPerTurn * b.turn }

  lemma StepWithin(d: Data, lv: LevelConfig, b: Battle, c: Command, spent: int)
    requires 0 <= b.actionPoint && Within(lv, b, spent)
    ensures Within(lv, Step(d, lv, b, c).after, spent + CostOf(d, lv, b, c))
  {
    StepSpends(d, lv, b, c);
    var a := lv.actionPointPerTurn;
    assert a * (b.turn + 1) == a * b.turn + a;
  }

  /** Points left over are never carried to the next turn, so a run never spends more than one
      allowance per turn begun. */
  lemma {:induction false} SpendingWithinAllowance(d: Data, lv: LevelConfig, commands: seq<Command>)
    requires BattleReady(d) && LevelReady(d, lv)
    ensures Spent(d, lv, commands) + Run(d, lv, commands).actionPoint <= lv.actionPointPerTurn * Run(d, lv, commands).turn
  {
    if commands != [] {
      var before, c := commands[..|commands| - 1], commands[|commands| - 1];
      SpendingWithinAllowance(d, lv, before);
      EveryRunConsistent(d, lv, before);
      StepWithin(d, lv, Run(d, lv, before), c, Spent(d, lv, before));
    }
  }

  // ---- When resources stay non-negative ----

  ghost predicate NonNegative(m: map<string, int>) {
    forall r :: Amount(m, r) >= 0
  }

  ghost predicate NamesEachOnce(reqs: seq<ResourceAmount>) {
    forall i, j :: 0 <= i < j < |reqs| ==> reqs[i].resource != reqs[j].resource
  }

  lemma {:induction false} DemandOnce(reqs: seq<ResourceAmount>, r: string)
    requires NamesEachOnce(reqs)
    ensures Demand(reqs, r) == 0 || exists i :: 0 <= i < |reqs| && reqs[i].resource == r && Demand(reqs, r) == reqs[i].count
    ensures (forall i :: 0 <= i < |reqs| ==> reqs[i].resource != r) ==> Demand(reqs, r) == 0
  {
    if reqs != [] {
      var n := |reqs| - 1;
      DemandOnce(reqs[..n], r);
      if reqs[n].resource == r {
        assert Demand(reqs[..n], r) == 0;
        assert Demand(reqs, r) == reqs[n].count;
      } else if Demand(reqs, r) != 0 {
        var i :| 0 <= i < n && reqs[..n][i].resource == r && Demand(reqs[..n], r) == reqs[..n][i].count;
        assert reqs[i].resource == r && Demand(reqs, r) == reqs[i].count;
      }
    }
  }

  /** The least stock with which `CanComplete` accepts the list. */
  function Stock(reqs: seq<ResourceAmount>): map<string, int> {
    if reqs == [] then map[]
    else
      var m, q := Stock(reqs[..|reqs| - 1]), reqs[|reqs| - 1];
      if Amount(m, q.resource) < q.count then m[q.resource := q.count] else m
  }

  lemma {:induction false} StockSuffices(reqs: seq<ResourceAmount>)
    requires forall i :: 0 <= i < |reqs| ==> reqs[i].count > 0
    ensures NonNegative(Stock(reqs)) && CanComplete(Stock(reqs), reqs)
    ensures forall r :: Amount(Stock(reqs), r) <= Demand(reqs, r)
    ensures forall i, j :: 0 <= i < j < |reqs| && reqs[i].resource == reqs[j].resource ==>
              Amount(Stock(reqs), reqs[i].resource) < Demand(reqs, reqs[i].resource)
  {
    if reqs != [] {
      var n := |reqs| - 1;
      StockSuffices(reqs[..n]);
      assert forall r :: Amount(Stock(reqs[..n]), r) >= 0;
      var m := Stock(reqs[..n]);
      assert reqs[n].count > 0;
      assert Stock(reqs) == if Amount(m, reqs[n].resource) < reqs[n].count then m[reqs[n].resource := reqs[n].count] else m;
      forall r ensures Amount(Stock(reqs), r) >= 0 { assert Amount(m, r) >= 0; }
      forall i, j | 0 <= i < j < |reqs| && reqs[i].resource == reqs[j].resource
        ensures Amount(Stock(reqs), reqs[i].resource) < Demand(reqs, reqs[i].resource)
      {
        assert reqs[..n][i] == reqs[i];
        assert Amount(Stock(reqs[..n]), reqs[i].resource) >= reqs[i].count;
        if j < n { assert reqs[..n][j] == reqs[j]; }
      }
      forall i | 0 <= i < |reqs| ensures Amount(Stock(reqs), reqs[i].resource) >= reqs[i].count {
        if i < n { assert reqs[..n][i] == reqs[i]; }
      }
    }
  }

  /** The engine's affordability test checks each requirement alone. It keeps resources non-negative
      for every stock exactly when the order names no resource twice. */
  lemma CompletionKeepsNonNegativeIff(reqs: seq<ResourceAmount>)
    requires forall i :: 0 <= i < |reqs| ==> reqs[i].count > 0
    ensures (forall m :: NonNegative(m) && CanComplete(m, reqs) ==> NonNegative(Consume(m, reqs))) <==> NamesEachOnce(reqs)
  {
    if NamesEachOnce(reqs) {
      forall m, r | NonNegative(m) && CanComplete(m, reqs) ensures Amount(Consume(m, reqs), r) >= 0 {
        ConsumeTakesDemand(m, reqs, r);
        DemandOnce(reqs, r);
      }
    } else {
      var i, j :| 0 <= i < j < |reqs| && reqs[i].resource == reqs[j].resource;
      StockSuffices(reqs);
      ConsumeTakesDemand(Stock(reqs), reqs, reqs[i].resource);
      assert Amount(Consume(Stock(reqs), reqs), reqs[i].resource) < 0;
    }
  }

  /** For one stock: it stays non-negative exactly when it covers the total demand of every resource. */
  lemma ConsumeStaysNonNegativeIff(m: map<string, int>, reqs: seq<ResourceAmount>)
    ensures NonNegative(Consume(m, reqs)) <==> forall r :: Demand(reqs, r) <= Amount(m, r)
  {
    forall r ensures Amount(Consume(m, reqs), r) == Amount(m, r) - Demand(reqs, r) { ConsumeTakesDemand(m, reqs, r); }
    if NonNegative(Consume(m, reqs)) {
      forall r ensures Demand(reqs, r) <= Amount(m, r) { assert Amount(Consume(m, reqs), r) >= 0; }
    }
  }

  // ---- A configuration that validation accepts and that overdraws ----

  /** One card that brings in one wood, and one order that asks for one wood twice. */
  const WOOD_CARD := CardConfig(1, "wood", "Wood", "common", "gain", 0, [EffectConfig("gain_resource", "wood", 1, "", 0)], [])

  const TWICE_WOOD := OrderConfig(1, "twice", "Twice", "normal", [ResourceAmount("wood", 1), ResourceAmount("wood", 1)], [ItemCount(1, 1)])

  function OneOrderLevel(firstClear: seq<ItemCount>): LevelConfig {
    LevelConfig(1, "Level", 1, 1, 1, 1, 1, "orders", 1, [1], [OrderPoolEntry(1, 1)], firstClear, [])
  }

  function OneOrderData(firstClear: seq<ItemCount>): Data {
    Data(map[1 := WOOD_CARD], map[1 := TWICE_WOOD], map[1 := OneOrderLevel(firstClear)])
  }

  lemma OneOrderAccepted(firstClear: seq<ItemCount>)
    ensures Acceptable([WOOD_CARD], [TWICE_WOOD], [OneOrderLevel(firstClear)], {1})
    ensures var d := OneOrderData(firstClear);
      && Indexes(d.cards, [WOOD_CARD], CardKey) && Indexes(d.orders, [TWICE_WOOD], OrderKey) && Indexes(d.levels, [OneOrderLevel(firstClear)], LevelKey)
      && BattleReady(d)
  {
    var cards, orders, levels, d := [WOOD_CARD], [TWICE_WOOD], [OneOrderLevel(firstClear)], OneOrderData(firstClear);
    assert CardKey(cards[0]) in Ids(cards, CardKey) && OrderKey(orders[0]) in Ids(orders, OrderKey) && LevelKey(levels[0]) in Ids(levels, LevelKey);
    assert Ids(cards, CardKey) == {1} && Ids(orders, OrderKey) == {1} && Ids(levels, LevelKey) == {1};
    AcceptedIsReady(d, cards, orders, levels, {1});
  }

  /** Playing the card completes the order with one wood too little, and the goal is reached. */
  lemma AcceptedLevelOverdraws(firstClear: seq<ItemCount>)
    ensures var b := Run(OneOrderData(firstClear), OneOrderLevel(firstClear), [PlayCard(1, "r")]);
      Amount(b.engine.resources, "wood") == -1 && b.engine.completed == 1 && !b.settled && !b.failed && b.engine.pending == [ItemCount(1, 1)]
  {
    var d, lv := OneOrderData(firstClear), OneOrderLevel(firstClear);
    var start := InitialEngine(d, lv, 1);
    assert InitialEngine(d, lv, 0) == Engine(map[], [], 0, 0, []);
    assert start.orders == [OrderState(1, "Twice", "normal", TWICE_WOOD.requirements, false)];
    assert [PlayCard(1, "r")][..0] == [];
    var effects := WOOD_CARD.effects;
    assert effects[..0] == [];
    assert ApplyEffects(start.resources, effects) == Some(map["wood" := 1]);
    var s := start.(resources := map["wood" := 1]);
    var reqs := TWICE_WOOD.requirements;
    assert Ready(s, 0);
    ConsumeTakesDemand(s.resources, reqs, "wood");
    assert reqs[..1] == [ResourceAmount("wood", 1)] && reqs[..1][..0] == [];
    assert Demand(reqs, "wood") == 2;
    var t := Complete(d, lv, s, 0);
    assert Scan(d, lv, s, 0) == Scan(d, lv, t, 1) == t;
    var b := Run(d, lv, []);
    assert Run(d, lv, [PlayCard(1, "r")]) == Step(d, lv, b, PlayCard(1, "r")).after;
  }

  /** An effect that can never leave a negative amount behind. A conversion may have any cost. */
  predicate SafeEffect(e: EffectConfig) {
    && (IsGain(e) ==> e.value >= 0)
    && (IsConvert(e) ==> if e.resource == e.toResource && e.value < 0 then e.toValue >= e.value else e.toValue >= 0)
  }

  /** `SafeEffect` is exactly what a single effect needs. */
  lemma EffectKeepsNonNegativeIff(e: EffectConfig)
    ensures (forall m :: NonNegative(m) && ApplyEffect(m, e).Some? ==> NonNegative(ApplyEffect(m, e).value)) <==> SafeEffect(e)
  {
    if SafeEffect(e) {
      forall m, r | NonNegative(m) && ApplyEffect(m, e).Some? ensures Amount(ApplyEffect(m, e).value, r) >= 0 {
        assert Amount(m, e.resource) >= 0 && Amount(m, e.toResource) >= 0 && Amount(m, r) >= 0;
      }
    } else {
      var m := if e.value > 0 then map[e.resource := e.value] else map[];
      assert NonNegative(m) && ApplyEffect(m, e).Some?;
      assert Amount(ApplyEffect(m, e).value, if IsGain(e) then e.resource else e.toResource) < 0;
    }
  }

  /** Orders and cards of the level that can never overdraw a resource. */
  ghost predicate NeverOverdraws(d: Data, lv: LevelConfig) {
    && (forall k :: k in d.orders ==> NamesEachOnce(d.orders[k].requirements))
    && (forall k :: k in d.cards && k in lv.fixedCards ==>
          forall i :: 0 <= i < |d.cards[k].effects| ==> SafeEffect(d.cards[k].effects[i]))
  }

  ghost predicate EachOnce(orders: seq<OrderState>) {
    forall i :: 0 <= i < |orders| ==> NamesEachOnce(orders[i].requirements)
  }

  lemma {:induction false} ScanKeepsNonNegative(d: Data, lv: LevelConfig, s: Engine, i: nat)
    requires BattleReady(d) && NeverOverdraws(d, lv) && NonNegative(s.resources) && EachOnce(s.orders) && i <= |s.orders|
    ensures NonNegative(Scan(d, lv, s, i).resources) && EachOnce(Scan(d, lv, s, i).orders)
    decreases Remaining(lv, s, i)
  {
    if i < |s.orders| {
      var reqs := s.orders[i].requirements;
      if Ready(s, i) {
        forall r ensures Amount(Consume(s.resources, reqs), r) >= 0 {
          ConsumeTakesDemand(s.resources, reqs, r);
          DemandOnce(reqs, r);
        }
      }
      ScanKeepsNonNegative(d, lv, Visit(d, lv, s, i), i + 1);
    }
  }

  lemma {:induction false} EffectsKeepNonNegative(m: map<string, int>, effects: seq<EffectConfig>)
    requires NonNegative(m) && ApplyEffects(m, effects).Some?
    requires forall i :: 0 <= i < |effects| ==> SafeEffect(effects[i])
    ensures NonNegative(ApplyEffects(m, effects).value)
  {
    if effects != [] {
      var n := |effects| - 1;
      EffectsKeepNonNegative(m, effects[..n]);
      EffectKeepsNonNegativeIff(effects[n]);
    }
  }

  /** No run of such a level ever shows a negative resource. */
  lemma {:induction false} EveryRunNonNegative(d: Data, lv: LevelConfig, commands: seq<Command>)
    requires BattleReady(d) && LevelReady(d, lv) && NeverOverdraws(d, lv)
    ensures var s := Run(d, lv, commands).engine; NonNegative(s.resources) && EachOnce(s.orders)
  {
    if commands == [] {
      InitialEngineBooked(d, lv, lv.initialOrders);
    } else {
      var b, c := Run(d, lv, commands[..|commands| - 1]), commands[|commands| - 1];
      EveryRunNonNegative(d, lv, commands[..|commands| - 1]);
      if Step(d, lv, b, c).after.engine != b.engine {
        var effects := d.cards[c.cardId].effects;
        EffectsKeepNonNegative(b.engine.resources, effects);
        ScanKeepsNonNegative(d, lv, b.engine.(resources := ApplyEffects(b.engine.resources, effects).value), 0);
      }
    }
  }
}
