/** The mutable session object of internal/gameplay/battle/service.go. Each method changes the fields
    in the source's order and is proved to take the step that `Battle` gives for it. */
module BattleRuntime {
  import opened Common
  import opened GameData
  import opened Battle

  class RuntimeSession {
    const data: Data
    const level: LevelConfig
    const handCards: seq<int>

    var turn: int
    var actionPoint: int
    var resources: map<string, int>
    var activeOrders: seq<OrderState>
    var completedOrders: nat
    var nextOrderIndex: nat
    var pendingRewards: seq<ItemCount>
    var settled: bool
    var failed: bool
    var settleResult: Option<SettleResult>

    function EngineState(): Engine
      reads this
    {
      Engine(resources, activeOrders, completedOrders, nextOrderIndex, pendingRewards)
    }

    function State(): Battle
      reads this
    {
      Battle(turn, actionPoint, EngineState(), settled, failed)
    }

    /** What the reachable states supply to the methods. */
    ghost predicate Valid()
      reads this
    {
      Sane(data, EngineState()) && handCards == level.fixedCards
    }

    /** StartLevel: the first orders are drawn one by one. */
    constructor (d: Data, lv: LevelConfig)
      requires forall k :: k in d.orders ==> NonNegativeCounts(d.orders[k].requirements)
      ensures Valid() && data == d && level == lv && State() == Start(d, lv) && settleResult == None
    {
      data, level, handCards := d, lv, lv.fixedCards;
      turn, actionPoint := 1, lv.actionPointPerTurn;
      resources, activeOrders, completedOrders, nextOrderIndex, pendingRewards := map[], [], 0, 0, [];
      settled, failed, settleResult := false, false, None;
      new;
      var i := 0;
      while i < lv.initialOrders
        invariant 0 <= i && (i <= lv.initialOrders || i == 0)
        invariant EngineState() == InitialEngine(d, lv, i) && Sane(d, EngineState())
        invariant turn == 1 && actionPoint == lv.actionPointPerTurn && !settled && !failed && settleResult == None
      {
        DrawOrder();
        i := i + 1;
      }
    }

    /** `append(ActiveOrders, nextOrder(rs))`. */
    method DrawOrder()
      modifies `activeOrders, `nextOrderIndex
      ensures EngineState() == AppendOrder(data, level, old(EngineState()))
    {
      var order := BLANK_ORDER;
      if |level.orderPool| != 0 {
        var entry := level.orderPool[nextOrderIndex % |level.orderPool|];
        nextOrderIndex := nextOrderIndex + 1;
        if entry.orderId in data.orders {
          var o := data.orders[entry.orderId];
          order := OrderState(o.orderId, o.name, o.orderType, o.requirements, false);
        }
      }
      activeOrders := activeOrders + [order];
    }

    method Affordable(reqs: seq<ResourceAmount>) returns (ok: bool)
      ensures ok <==> CanComplete(resources, reqs)
    {
      for i := 0 to |reqs|
        invariant forall k :: 0 <= k < i ==> Amount(resources, reqs[k].resource) >= reqs[k].count
      {
        if Amount(resources, reqs[i].resource) < reqs[i].count { return false; }
      }
      return true;
    }

    method ConsumeRequirements(reqs: seq<ResourceAmount>)
      modifies `resources
      ensures resources == Consume(old(resources), reqs)
    {
      for i := 0 to |reqs|
        invariant resources == Consume(old(resources), reqs[..i])
      {
        resources := resources[reqs[i].resource := Amount(resources, reqs[i].resource) - reqs[i].count];
        assert reqs[..i + 1][..i] == reqs[..i];
      }
      assert reqs[..|reqs|] == reqs;
    }

    /** Completing one order, as the body of the inner loop does it. */
    method CompleteOrder(i: nat)
      requires i < |activeOrders|
      modifies `resources, `activeOrders, `completedOrders, `nextOrderIndex, `pendingRewards
      ensures EngineState() == Complete(data, level, old(EngineState()), i)
    {
      ConsumeRequirements(activeOrders[i].requirements);
      activeOrders := activeOrders[i := activeOrders[i].(completed := true)];
      completedOrders := completedOrders + 1;
      if activeOrders[i].orderId in data.orders {
        var rewards := data.orders[activeOrders[i].orderId].rewards;
        ghost var before := pendingRewards;
        for k := 0 to |rewards|
          modifies `pendingRewards
          invariant pendingRewards == before + rewards[..k]
        {
          pendingRewards := pendingRewards + [rewards[k]];
        }
        assert rewards[..|rewards|] == rewards;
      }
      assert pendingRewards == old(pendingRewards) + OrderRewards(data, old(activeOrders)[i].orderId);
      if completedOrders < level.target {
        DrawOrder();
      }
    }

    /** The source repeats whole passes over the list until one completes nothing; a pass looks only at
        the entries present when it began. The result is that of a single scan over the growing list. */
    method CompleteReadyOrders()
      requires Sane(data, EngineState())
      modifies `resources, `activeOrders, `completedOrders, `nextOrderIndex, `pendingRewards
      ensures EngineState() == Scan(data, level, old(EngineState()), 0)
      ensures Sane(data, EngineState())
    {
      ghost var goal := Scan(data, level, EngineState(), 0);
      ghost var frontier := 0;
      while true
        invariant Sane(data, EngineState()) && QuietBefore(EngineState(), frontier)
        invariant Scan(data, level, EngineState(), frontier) == goal
        decreases Remaining(level, EngineState(), frontier)
      {
        var completedAny := false;
        ghost var passStart, first := EngineState(), frontier;
        for i := 0 to |activeOrders|
          invariant |passStart.orders| <= |activeOrders|
          invariant frontier == if i < first then first else i
          invariant Sane(data, EngineState()) && QuietBefore(EngineState(), frontier)
          invariant Scan(data, level, EngineState(), frontier) == goal
          invariant if completedAny then Remaining(level, EngineState(), frontier) < Remaining(level, passStart, first)
                    else EngineState() == passStart
        {
          ghost var s := EngineState();
          var payable := Affordable(activeOrders[i].requirements);
          if !activeOrders[i].completed && payable {
            assert Ready(s, i) && frontier == i;
            VisitQuietens(data, level, s, i);
            CompleteOrder(i);
            completedAny := true;
          }
          frontier := if frontier < i + 1 then i + 1 else frontier;
        }
        if !completedAny {
          return;
        }
      }
    }

    /** applyCardEffects works on a clone, which the caller commits only when every effect went through. */
    method ApplyCardEffects(effects: seq<EffectConfig>) returns (next: Option<map<string, int>>)
      ensures next == ApplyEffects(resources, effects)
    {
      var m := resources;
      for i := 0 to |effects|
        invariant ApplyEffects(resources, effects[..i]) == Some(m)
      {
        var e := effects[i];
        assert effects[..i + 1][..i] == effects[..i];
        if e.effectType == "gain_resource" || e.effectType == "periodic_gain" {
          m := m[e.resource := Amount(m, e.resource) + e.value];
        } else if e.effectType == "convert_resource" {
          if Amount(m, e.resource) < e.value {
            EffectsFailEarly(resources, effects, i + 1);
            return None;
          }
          m := m[e.resource := Amount(m, e.resource) - e.value];
          m := m[e.toResource := Amount(m, e.toResource) + e.toValue];
        }
      }
      assert effects[..|effects|] == effects;
      return Some(m);
    }

    method Play(cardId: int, reqId: string) returns (error: Option<BattleError>)
      requires Valid()
      modifies this
      ensures Valid() && Outcome(State(), error) == StepPlay(data, level, old(State()), cardId, reqId)
    {
      if reqId == "" { return Some(InvalidReqId); }
      if cardId !in data.cards { return Some(CardNotFound); }
      var card := data.cards[cardId];
      if cardId !in handCards { return Some(CardNotInSession); }
      if settled { return None; }
      if failed { return Some(LevelFailed); }
      if card.cost > actionPoint { return Some(InsufficientActionPoint); }
      var next := ApplyCardEffects(card.effects);
      if next.None? { return Some(InsufficientResource); }
      actionPoint := actionPoint - card.cost;
      resources := next.value;
      CompleteReadyOrders();
      return None;
    }

    method FinishTurn(reqId: string) returns (error: Option<BattleError>)
      requires Valid()
      modifies `turn, `actionPoint, `failed
      ensures Valid() && Outcome(State(), error) == StepEndTurn(level, old(State()), reqId)
    {
      if reqId == "" { return Some(InvalidReqId); }
      if settled { return None; }
      if failed { return None; }
      if completedOrders >= level.target { return Some(LevelAlreadyComplete); }
      if turn >= level.turnLimit {
        failed := true;
        actionPoint := 0;
        return None;
      }
      turn := turn + 1;
      actionPoint := level.actionPointPerTurn;
      return None;
    }
  }

  /** Once a prefix of the effects fails, the whole list fails. */
  lemma {:induction false} EffectsFailEarly(m: map<string, int>, effects: seq<EffectConfig>, n: nat)
    requires n <= |effects| && ApplyEffects(m, effects[..n]).None?
    ensures ApplyEffects(m, effects).None?
    decreases |effects|
  {
    if n == |effects| {
      assert effects[..n] == effects;
    } else {
      var before := effects[..|effects| - 1];
      assert before[..n] == effects[..n];
      EffectsFailEarly(m, before, n);
    }
  }
}
