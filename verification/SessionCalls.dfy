/** What the calls of `SessionStore` achieve, in every run: a locked session is the current one, a new level
    never replaces an unfinished one, every call ends with what it was asked for, and none waits for ever. */
module SessionCalls {
  import opened Common
  import opened SessionStore

  /** From the moment lockSession returns a session until its lock is released, that session is the
      one the index holds, alive and with the id that was asked for. */
  lemma LockedSessionIsCurrent(run: seq<State>, labels: seq<Label>, i: nat, t: Thread)
    requires IsRun(run, labels) && i < |run| && PcOf(run[i], t).OpWork?
    ensures var s, pc := run[i], PcOf(run[i], t);
      && Indexed(s, pc.uid, pc.current) && pc.current in s.runtimes
      && s.runtimes[pc.current].sid == pc.sid && !s.runtimes[pc.current].deleted
      && s.runtimes[pc.current].holder == Some(t)
  {
    EveryRunInv(run, labels, i);
    var s := run[i];
    assert ThreadRefs(s, t) && ThreadLocks(s, t) && RuntimeOk(s, PcOf(s, t).current);
  }

  /** A published session is marked deleted exactly when it has left the index. */
  lemma DeletedExactlyWhenGone(run: seq<State>, labels: seq<Label>, i: nat, r: Rid)
    requires IsRun(run, labels) && i < |run| && r in run[i].runtimes && run[i].runtimes[r].published
    ensures run[i].runtimes[r].deleted <==> !Indexed(run[i], run[i].runtimes[r].uid, r)
    ensures forall uid :: Indexed(run[i], uid, r) ==> uid == run[i].runtimes[r].uid
  {
    EveryRunInv(run, labels, i);
    assert RuntimeOk(run[i], r);
    forall uid | Indexed(run[i], uid, r) ensures uid == run[i].runtimes[r].uid { assert IndexOk(run[i], uid); }
  }

  function Entry(s: State, uid: Uid): Option<Rid> { if uid in s.sessions then Some(s.sessions[uid]) else None }

  lemma StepPlanSound(s: State, t: Thread, finish: bool, leave: bool)
    requires Inv(s) && Enabled(s, Move(t, finish, leave))
    ensures Sound(s, t, PlanOf(s, PcOf(s, t), finish, leave))
  {
    assert ThreadRefs(s, t);
    if Storing(PcOf(s, t)) { StorePlanSound(s, t, finish, leave); } else { OtherPlanSound(s, t, finish, leave); }
  }

  /** The change counter counts exactly the steps that change the entry. */
  lemma ChangesCountsEntries(s: State, t: Thread, plan: Plan, uid: Uid)
    requires Sound(s, t, plan)
    requires plan.effect.ReleaseWrite? && plan.effect.write.Some? ==> EndsOk(s, plan.effect.write.value)
    ensures var s' := After(s, t, plan);
      Changes(s', uid) == Changes(s, uid) + if Entry(s', uid) != Entry(s, uid) then 1 else 0
  {
  }

  /** An entry disappears or is replaced only by DeletePlayerRuntime of that uid, or by a StartLevel
      that found the level there settled or failed. */
  lemma StartNeverReplacesUnfinished(run: seq<State>, labels: seq<Label>, i: nat, uid: Uid, r: Rid)
    requires IsRun(run, labels) && i < |labels|
    requires Indexed(run[i], uid, r) && !Indexed(run[i + 1], uid, r)
    ensures labels[i].Move? && r in run[i].runtimes
    ensures PcOf(run[i], labels[i].thread) == DelBody(uid, r)
         || (Storing(PcOf(run[i], labels[i].thread)) && run[i].runtimes[r].finished && !run[i].runtimes[r].deleted)
  {
    EveryRunInv(run, labels, i);
    var s, l := run[i], labels[i];
    assert IndexOk(s, uid) && RuntimeOk(s, r);
    if l.Move? {
      assert ThreadRefs(s, l.thread);
      StepPlanSound(s, l.thread, l.finish, l.leave);
    }
  }

  /** The re-check before a replacement never fails: the session was alive when its lock was taken, and
      only the holder of that lock can take it out of the index. So a call retries for two reasons only. */
  lemma SwapCheckNeverFails(run: seq<State>, labels: seq<Label>, i: nat, t: Thread)
    requires IsRun(run, labels) && i < |run| && (PcOf(run[i], t).StoreSwap? || PcOf(run[i], t).StoreSwapWait?)
    ensures Indexed(run[i], PcOf(run[i], t).job.uid, PcOf(run[i], t).current)
  {
    EveryRunInv(run, labels, i);
    assert ThreadRefs(run[i], t) && RuntimeOk(run[i], PcOf(run[i], t).current);
  }

  /** A retry happens only after the entry changed since it was read; over a whole call there are never
      more retries than changes. */
  lemma RetryOnlyAfterChange(run: seq<State>, labels: seq<Label>, i: nat, t: Thread)
    requires IsRun(run, labels) && i < |labels| && labels[i].Move? && labels[i].thread == t
    requires Storing(PcOf(run[i], t)) && PcOf(run[i + 1], t).StoreRead?
    ensures RemembersNil(PcOf(run[i], t)) || RemembersSession(PcOf(run[i], t))
    ensures Changes(run[i], PcOf(run[i], t).job.uid) > PcOf(run[i], t).seen
    ensures PcOf(run[i + 1], t).job == Retry(PcOf(run[i], t).job)
    ensures PcOf(run[i + 1], t).job.retries <= Changes(run[i + 1], PcOf(run[i], t).job.uid) - PcOf(run[i], t).job.base
  {
    EveryRunInv(run, labels, i);
    EveryRunInv(run, labels, i + 1);
    var s := run[i];
    assert ThreadRefs(s, t) && ThreadReads(s, t) && ThreadReads(run[i + 1], t);
    if RemembersSession(PcOf(s, t)) { assert RuntimeOk(s, PcOf(s, t).current); }
  }

  // ---- What each call achieves ----

  /** `t` is busy, up to state `i`, with the call it began in step `a`. */
  ghost predicate InCall(run: seq<State>, labels: seq<Label>, a: nat, i: nat, t: Thread, op: Operation) {
    && IsRun(run, labels) && a < i < |run| && labels[a] == Begin(t, op)
    && forall k :: a < k <= i ==> !PcOf(run[k], t).Idle?
  }

  /** A step keeps what a session is, and never takes a mark off it. */
  predicate Aged(s: State, s': State, r: Rid) {
    r in s.runtimes ==>
      && r in s'.runtimes && s'.runtimes[r].uid == s.runtimes[r].uid && s'.runtimes[r].sid == s.runtimes[r].sid
      && (s.runtimes[r].published ==> s'.runtimes[r].published) && (s.runtimes[r].deleted ==> s'.runtimes[r].deleted)
      && (s.runtimes[r].finished ==> s'.runtimes[r].finished)
  }

  lemma StepAges(s: State, l: Label, r: Rid)
    requires Inv(s) && Enabled(s, l)
    ensures Aged(s, Apply(s, l), r)
  {
    if l.Move? {
      StepPlanSound(s, l.thread, l.finish, l.leave);
      RuntimeFramed(s, l.thread, PlanOf(s, PcOf(s, l.thread), l.finish, l.leave), r);
    }
  }

  lemma RunStepAges(run: seq<State>, labels: seq<Label>, i: nat, r: Rid)
    requires IsRun(run, labels) && i < |labels|
    ensures Aged(run[i], run[i + 1], r)
  {
    EveryRunInv(run, labels, i);
    StepAges(run[i], labels[i], r);
  }

  lemma {:induction false} AgesOver(run: seq<State>, i: nat, j: nat, r: Rid)
    requires i <= j < |run| && forall k :: i <= k < j ==> Aged(run[k], run[k + 1], r)
    ensures Aged(run[i], run[j], r)
  {
    if i < j {
      AgesOver(run, i, j - 1, r);
      assert Aged(run[j - 1], run[j - 1 + 1], r);
    }
  }

  lemma RunAges(run: seq<State>, labels: seq<Label>, i: nat, j: nat, r: Rid)
    requires IsRun(run, labels) && i <= j < |run|
    ensures Aged(run[i], run[j], r)
  {
    forall k | i <= k < j ensures Aged(run[k], run[k + 1], r) { RunStepAges(run, labels, k, r); }
    AgesOver(run, i, j, r);
  }

  /** The step that gives up `s.mu` in DeletePlayerRuntime leaves the session it found deleted and, if
      that was still the entry, the player without one. */
  lemma DeleteRemoves(run: seq<State>, labels: seq<Label>, i: nat, uid: Uid, r: Rid)
    requires IsRun(run, labels) && i < |labels| && labels[i].Move? && PcOf(run[i], labels[i].thread) == DelBody(uid, r)
    ensures r in run[i + 1].runtimes && run[i + 1].runtimes[r].deleted && !Indexed(run[i + 1], uid, r)
    ensures Entry(run[i + 1], uid) == if Indexed(run[i], uid, r) then None else Entry(run[i], uid)
  {
    EveryRunInv(run, labels, i);
    EveryRunInv(run, labels, i + 1);
    assert ThreadRefs(run[i], labels[i].thread) && RuntimeOk(run[i], r) && RuntimeOk(run[i + 1], r);
  }

  /** Whatever entry the player had in `s` is deleted in `s'`. */
  predicate GoneBy(s: State, s': State, uid: Uid) {
    uid in s.sessions ==> s.sessions[uid] in s'.runtimes && s'.runtimes[s.sessions[uid]].deleted
  }

  predicate Deleting(pc: Pc) { pc.DelRead? || pc.DelReading? || HasFound(pc) }

  predicate HasFound(pc: Pc) { pc.DelLock? || pc.DelWait? || pc.DelBody? || pc.DelUnlock? }

  /** What a step does to the program counter of a busy goroutine. */
  lemma PcAfter(s: State, l: Label, t: Thread)
    requires Enabled(s, l) && !PcOf(s, t).Idle?
    ensures if l.Move? && l.thread == t then PcOf(Apply(s, l), t) == PlanOf(s, PcOf(s, t), l.finish, l.leave).pc
            else PcOf(Apply(s, l), t) == PcOf(s, t)
  {
  }

  /** A deletion that goes on works on the entry it read. */
  lemma DeletingStep(s: State, pc: Pc, finish: bool, leave: bool)
    requires Deleting(pc) && (Foot(pc).held.Some? ==> Foot(pc).held.value in s.runtimes)
    ensures var pc' := PlanOf(s, pc, finish, leave).pc;
      pc'.Idle? || (Deleting(pc') && pc'.uid == pc.uid
        && (HasFound(pc') ==> if HasFound(pc) then pc'.current == pc.current else Indexed(s, pc.uid, pc'.current)))
  {
  }

  /** A deletion of `t` is over, or goes on with what it read. */
  predicate DeletionGoesOn(s: State, s': State, t: Thread) {
    var pc, pc' := PcOf(s, t), PcOf(s', t);
    Deleting(pc) && !pc'.Idle? ==>
      && Deleting(pc') && pc'.uid == pc.uid
      && (HasFound(pc') ==> if HasFound(pc) then pc'.current == pc.current else Indexed(s, pc.uid, pc'.current))
  }

  lemma DeletingRunStep(run: seq<State>, labels: seq<Label>, i: nat, t: Thread)
    requires IsRun(run, labels) && i < |labels|
    ensures DeletionGoesOn(run[i], run[i + 1], t)
  {
    var s, l := run[i], labels[i];
    if Deleting(PcOf(s, t)) {
      PcAfter(s, l, t);
      if l.Move? && l.thread == t { DeletingStep(s, PcOf(s, t), l.finish, l.leave); }
    }
  }

  ghost predicate WasEntry(run: seq<State>, a: nat, i: nat, uid: Uid, r: Rid) { exists k :: a < k <= i < |run| && Indexed(run[k], uid, r) }

  lemma StillWasEntry(run: seq<State>, a: nat, i: nat, uid: Uid, r: Rid)
    requires a < i && i + 1 < |run| && (WasEntry(run, a, i, uid, r) || Indexed(run[i], uid, r))
    ensures WasEntry(run, a, i + 1, uid, r)
  {
    if Indexed(run[i], uid, r) {
      assert a < i <= i + 1;
    } else {
      var k :| a < k <= i && Indexed(run[k], uid, r);
      assert a < k <= i + 1;
    }
  }

  lemma {:induction false} DeletionOver(run: seq<State>, a: nat, i: nat, t: Thread, uid: Uid)
    requires a < i < |run| && PcOf(run[a + 1], t) == DelRead(uid)
    requires forall k :: a < k <= i ==> !PcOf(run[k], t).Idle?
    requires forall k :: a < k < i ==> DeletionGoesOn(run[k], run[k + 1], t)
    ensures var pc := PcOf(run[i], t); Deleting(pc) && pc.uid == uid && (HasFound(pc) ==> WasEntry(run, a, i, uid, pc.current))
    decreases i
  {
    if a + 1 < i {
      DeletionOver(run, a, i - 1, t, uid);
      assert DeletionGoesOn(run[i - 1], run[i - 1 + 1], t);
      var pc := PcOf(run[i], t);
      if HasFound(pc) { StillWasEntry(run, a, i - 1, uid, pc.current); }
    }
  }

  /** The session a deletion works on was the entry at some moment of the call. */
  lemma DeletionWorksOnAnEntry(run: seq<State>, labels: seq<Label>, a: nat, i: nat, t: Thread, uid: Uid)
    requires InCall(run, labels, a, i, t, Delete(uid))
    ensures var pc := PcOf(run[i], t); Deleting(pc) && pc.uid == uid && (HasFound(pc) ==> WasEntry(run, a, i, uid, pc.current))
  {
    forall k | a < k < i ensures DeletionGoesOn(run[k], run[k + 1], t) { DeletingRunStep(run, labels, k, t); }
    DeletionOver(run, a, i, t, uid);
  }

  lemma DeletionStops(s: State, t: Thread, finish: bool, leave: bool)
    requires ThreadRefs(s, t) && Deleting(PcOf(s, t)) && PlanOf(s, PcOf(s, t), finish, leave).pc.Idle?
    ensures var pc := PcOf(s, t);
      if HasFound(pc) then pc.current in s.runtimes && s.runtimes[pc.current].deleted else pc.uid !in s.sessions
  {
  }

  /** When DeletePlayerRuntime returns, there was a moment during the call such that whatever entry the
      player had then is deleted by now. */
  lemma DeleteEnds(run: seq<State>, labels: seq<Label>, a: nat, i: nat, t: Thread, uid: Uid)
    requires InCall(run, labels, a, i, t, Delete(uid)) && i < |labels| && PcOf(run[i + 1], t).Idle?
    ensures exists k :: a < k <= i && GoneBy(run[k], run[i + 1], uid)
  {
    DeletionWorksOnAnEntry(run, labels, a, i, t, uid);
    EveryRunInv(run, labels, i);
    var l, pc := labels[i], PcOf(run[i], t);
    PcAfter(run[i], l, t);
    assert ThreadRefs(run[i], t);
    DeletionStops(run[i], t, l.finish, l.leave);
    if HasFound(pc) {
      var k :| a < k <= i && Indexed(run[k], uid, pc.current);
      RunAges(run, labels, i, i + 1, pc.current);
      assert GoneBy(run[k], run[i + 1], uid);
    } else {
      assert GoneBy(run[i], run[i + 1], uid);
    }
  }

  /** The call publishes its session in step `k`: the session becomes the player's entry. */
  predicate PublishesAt(run: seq<State>, labels: seq<Label>, k: nat, t: Thread, uid: Uid, next: Rid) {
    && k < |labels| && k + 1 < |run| && labels[k].Move? && labels[k].thread == t
    && !Indexed(run[k], uid, next) && Indexed(run[k + 1], uid, next)
    && (uid in run[k].sessions ==> GoneBy(run[k], run[k + 1], uid))
  }

  lemma PublishingStep(run: seq<State>, labels: seq<Label>, i: nat, t: Thread)
    requires IsRun(run, labels) && i < |labels| && labels[i].Move? && labels[i].thread == t
    requires PcOf(run[i], t).StoreSwap? || (PcOf(run[i], t).StoreInsert? && PcOf(run[i + 1], t).Idle?)
    ensures PublishesAt(run, labels, i, t, PcOf(run[i], t).job.uid, PcOf(run[i], t).job.next)
  {
    EveryRunInv(run, labels, i);
    EveryRunInv(run, labels, i + 1);
    var s, pc := run[i], PcOf(run[i], t);
    assert ThreadRefs(s, t) && RuntimeOk(s, pc.job.next) && IndexOk(run[i + 1], pc.job.uid);
    if pc.StoreSwap? {
      SwapCheckNeverFails(run, labels, i, t);
      assert RuntimeOk(run[i + 1], pc.current);
    }
  }

  ghost predicate Published(run: seq<State>, labels: seq<Label>, a: nat, i: nat, t: Thread, uid: Uid, next: Rid) {
    exists k: nat :: a < k < i && PublishesAt(run, labels, k, t, uid, next)
  }

  /** Step `k` of a storeSession call of `t` that goes on: the job stays, and the last unlock follows its
      publication. */
  predicate StoringGoesOn(run: seq<State>, labels: seq<Label>, k: nat, t: Thread)
    requires k + 1 < |run|
  {
    var pc, pc' := PcOf(run[k], t), PcOf(run[k + 1], t);
    Storing(pc) && !pc'.Idle? ==>
      && Storing(pc') && pc'.job.uid == pc.job.uid && pc'.job.next == pc.job.next
      && (pc'.StoreUnlock? ==> pc.StoreUnlock? || PublishesAt(run, labels, k, t, pc.job.uid, pc.job.next))
  }

  lemma StoringRunStep(run: seq<State>, labels: seq<Label>, k: nat, t: Thread)
    requires IsRun(run, labels) && k < |labels|
    ensures StoringGoesOn(run, labels, k, t)
  {
    var s, l := run[k], labels[k];
    if Storing(PcOf(s, t)) {
      EveryRunInv(run, labels, k);
      assert ThreadRefs(s, t);
      PcAfter(s, l, t);
      if l.Move? && l.thread == t && PcOf(s, t).StoreSwap? { PublishingStep(run, labels, k, t); }
    }
  }

  lemma PublishedNext(run: seq<State>, labels: seq<Label>, a: nat, i: nat, t: Thread, uid: Uid, next: Rid)
    requires a < i && (Published(run, labels, a, i, t, uid, next) || PublishesAt(run, labels, i, t, uid, next))
    ensures Published(run, labels, a, i + 1, t, uid, next)
  {
    if Published(run, labels, a, i, t, uid, next) {
      var k: nat :| a < k < i && PublishesAt(run, labels, k, t, uid, next);
      assert a < k < i + 1;
    }
  }

  lemma {:induction false} JobOver(run: seq<State>, labels: seq<Label>, a: nat, i: nat, t: Thread, uid: Uid, next: Rid)
    requires a < i < |run| && PcOf(run[a + 1], t).StoreRead? && PcOf(run[a + 1], t).job.uid == uid && PcOf(run[a + 1], t).job.next == next
    requires forall k :: a < k <= i ==> !PcOf(run[k], t).Idle?
    requires forall k: nat :: a < k < i ==> StoringGoesOn(run, labels, k, t)
    ensures var pc := PcOf(run[i], t);
      Storing(pc) && pc.job.uid == uid && pc.job.next == next && (pc.StoreUnlock? ==> Published(run, labels, a, i, t, uid, next))
    decreases i
  {
    if a + 1 < i {
      JobOver(run, labels, a, i - 1, t, uid, next);
      assert StoringGoesOn(run, labels, i - 1, t);
      if PcOf(run[i], t).StoreUnlock? { PublishedNext(run, labels, a, i - 1, t, uid, next); }
    }
  }

  /** A storeSession call carries its own session, and has published it when it only has to unlock. */
  lemma JobStays(run: seq<State>, labels: seq<Label>, a: nat, i: nat, t: Thread, uid: Uid, sid: string, next: Rid)
    requires InCall(run, labels, a, i, t, StartLevel(uid, sid, next))
    ensures var pc := PcOf(run[i], t);
      Storing(pc) && pc.job.uid == uid && pc.job.next == next && (pc.StoreUnlock? ==> Published(run, labels, a, i, t, uid, next))
  {
    forall k: nat | a < k < i ensures StoringGoesOn(run, labels, k, t) { StoringRunStep(run, labels, k, t); }
    JobOver(run, labels, a, i, t, uid, next);
  }

  /** When storeSession returns, either the player's entry was an unfinished level at that moment, and it
      is an error; or the call has made its own session the entry, under the id that was asked for, and
      what was there before is deleted. */
  lemma StartEnds(run: seq<State>, labels: seq<Label>, a: nat, i: nat, t: Thread, uid: Uid, sid: string, next: Rid)
    requires InCall(run, labels, a, i, t, StartLevel(uid, sid, next)) && i < |labels| && PcOf(run[i + 1], t).Idle?
    ensures next in run[i + 1].runtimes && run[i + 1].runtimes[next].uid == uid && run[i + 1].runtimes[next].sid == sid
    ensures if run[i + 1].runtimes[next].published then Published(run, labels, a, i + 1, t, uid, next)
            else uid in run[i].sessions && run[i].sessions[uid] in run[i].runtimes && !run[i].runtimes[run[i].sessions[uid]].finished
  {
    JobStays(run, labels, a, i, t, uid, sid, next);
    EveryRunInv(run, labels, i);
    RunAges(run, labels, a + 1, i + 1, next);
    var l, pc := labels[i], PcOf(run[i], t);
    PcAfter(run[i], l, t);
    assert ThreadRefs(run[i], t) && (pc.StoreCheck? ==> RuntimeOk(run[i], pc.current));
    if pc.StoreInsert? {
      PublishingStep(run, labels, i, t);
      PublishedShows(run, labels, i, t, uid, next);
      assert a < i < i + 1;
    } else if pc.StoreUnlock? {
      var k: nat :| a < k < i && PublishesAt(run, labels, k, t, uid, next);
      PublishedShows(run, labels, k, t, uid, next);
      RunAges(run, labels, k + 1, i + 1, next);
      assert a < k < i + 1;
    }
  }

  lemma PublishedShows(run: seq<State>, labels: seq<Label>, k: nat, t: Thread, uid: Uid, next: Rid)
    requires IsRun(run, labels) && PublishesAt(run, labels, k, t, uid, next)
    ensures next in run[k + 1].runtimes && run[k + 1].runtimes[next].published
  {
    EveryRunInv(run, labels, k + 1);
    assert IndexOk(run[k + 1], uid) && RuntimeOk(run[k + 1], next);
  }

  /** A command is refused exactly when the player has no entry as it reads, or the session it found is no
      longer the entry or has another id as it locks it. */
  lemma CommandRefusedIff(run: seq<State>, labels: seq<Label>, i: nat, t: Thread)
    requires IsRun(run, labels) && i < |labels| && labels[i].Move? && labels[i].thread == t
    ensures var s, pc, pc' := run[i], PcOf(run[i], t), PcOf(run[i + 1], t);
      && (pc.OpReading? ==> if pc.uid in s.sessions then pc' == OpLock(pc.uid, pc.sid, s.sessions[pc.uid]) else pc'.Idle?)
      && (pc.OpCheck? ==> if Indexed(s, pc.uid, pc.current) && s.runtimes[pc.current].sid == pc.sid
                          then pc' == OpWork(pc.uid, pc.sid, pc.current) else pc'.Idle?)
  {
    EveryRunInv(run, labels, i);
    assert ThreadRefs(run[i], t);
    if PcOf(run[i], t).OpCheck? { assert RuntimeOk(run[i], PcOf(run[i], t).current); }
  }

  /** A command that holds its session may finish it, and touches no other session and no entry. */
  lemma CommandWorks(s: State, t: Thread, finish: bool, leave: bool, r: Rid)
    requires Enabled(s, Move(t, finish, leave)) && PcOf(s, t).OpWork? && r in s.runtimes
    ensures var s', pc := Apply(s, Move(t, finish, leave)), PcOf(s, t);
      && s'.sessions == s.sessions && r in s'.runtimes
      && (r == pc.current ==> (s'.runtimes[r].finished <==> s.runtimes[r].finished || finish) && s'.runtimes[r].deleted == s.runtimes[r].deleted)
      && (r != pc.current ==> s'.runtimes[r] == s.runtimes[r])
      && (if leave then PcOf(s', t).Idle? && s'.runtimes[pc.current].holder.None? else PcOf(s', t) == pc)
  {
  }

  // ---- Deadlock freedom ----

  /** The strictest reading of Go's RWMutex: no reader is let in while a writer waits. */
  ghost predicate Runnable(s: State, t: Thread) {
    && Enabled(s, Move(t, false, true))
    && (WaitsToRead(PcOf(s, t)) ==> forall u :: !WaitsToWrite(PcOf(s, u)))
  }

  lemma PerformsWhenFree(s: State, t: Thread)
    requires Inv(s) && !PcOf(s, t).Idle?
    requires WaitsToRead(PcOf(s, t)) ==> s.mu.writer.None?
    requires WaitsToWrite(PcOf(s, t)) ==> s.mu.writer.None? && s.mu.readers == {}
    requires WaitsForSession(PcOf(s, t)) ==> PcOf(s, t).current in s.runtimes && s.runtimes[PcOf(s, t).current].holder.None?
    ensures Enabled(s, Move(t, false, true))
  {
    assert ThreadLocks(s, t) && ThreadRefs(s, t);
  }

  lemma SomeReader(readers: set<Thread>) returns (t: Thread)
    requires readers != {}
    ensures t in readers
  {
    assert (forall r :: r !in readers) ==> readers == {};
    t :| t in readers;
  }

  /** What stands in the way of `t` is `u`: it holds the session `t` wants or `s.mu`, or it waits for
      `s.mu` to write and so keeps a reader out. */
  predicate WaitsFor(s: State, t: Thread, u: Thread) {
    var pc := PcOf(s, t);
    || (WaitsForSession(pc) && pc.current in s.runtimes && s.runtimes[pc.current].holder == Some(u))
    || ((WaitsToRead(pc) || WaitsToWrite(pc)) && s.mu.writer == Some(u))
    || (WaitsToWrite(pc) && u in s.mu.readers)
    || (WaitsToRead(pc) && WaitsToWrite(PcOf(s, u)))
  }

  function Rank(pc: Pc): nat { if WaitsToRead(pc) || WaitsForSession(pc) then 2 else if WaitsToWrite(pc) then 1 else 0 }

  /** Waiting goes strictly down: who holds `s.mu` waits for nothing, and who holds a session waits for
      `s.mu` to write at most. So no goroutines ever wait for each other in a circle. */
  lemma WaitsDescend(run: seq<State>, labels: seq<Label>, i: nat, t: Thread, u: Thread)
    requires IsRun(run, labels) && i < |run| && WaitsFor(run[i], t, u)
    ensures Rank(PcOf(run[i], u)) < Rank(PcOf(run[i], t)) && !PcOf(run[i], u).Idle?
  {
    EveryRunInv(run, labels, i);
    var s, pc := run[i], PcOf(run[i], t);
    assert ThreadLocks(s, u);
    if WaitsForSession(pc) && pc.current in s.runtimes { assert RuntimeOk(s, pc.current); }
  }

  lemma BlockedWaits(s: State, t: Thread) returns (u: Thread)
    requires Inv(s) && !PcOf(s, t).Idle? && !Runnable(s, t)
    ensures WaitsFor(s, t, u)
  {
    var pc := PcOf(s, t);
    assert ThreadRefs(s, t);
    if s.mu.writer.Some? && (WaitsToRead(pc) || WaitsToWrite(pc)) {
      u := s.mu.writer.value;
    } else if WaitsToWrite(pc) && s.mu.readers != {} {
      u := SomeReader(s.mu.readers);
    } else if WaitsForSession(pc) && s.runtimes[pc.current].holder.Some? {
      u := s.runtimes[pc.current].holder.value;
    } else {
      PerformsWhenFree(s, t);
      u :| WaitsToWrite(PcOf(s, u));
    }
  }

  ghost predicate WaitChain(s: State, chain: seq<Thread>) {
    chain != [] && forall k :: 0 <= k < |chain| - 1 ==> WaitsFor(s, chain[k], chain[k + 1])
  }

  /** In every reachable state, every goroutine with work in progress can take a step itself, or heads a
      chain, each waiting for the next, that ends in one that can. */
  lemma {:induction false} NeverDeadlocked(run: seq<State>, labels: seq<Label>, i: nat, t: Thread) returns (chain: seq<Thread>)
    requires IsRun(run, labels) && i < |run| && !PcOf(run[i], t).Idle?
    ensures WaitChain(run[i], chain) && chain[0] == t && Runnable(run[i], chain[|chain| - 1])
    decreases Rank(PcOf(run[i], t))
  {
    EveryRunInv(run, labels, i);
    var s := run[i];
    if Runnable(s, t) {
      chain := [t];
    } else {
      var u := BlockedWaits(s, t);
      WaitsDescend(run, labels, i, t, u);
      var rest := NeverDeadlocked(run, labels, i, u);
      chain := [t] + rest;
      forall k | 0 <= k < |chain| - 1 ensures WaitsFor(s, chain[k], chain[k + 1]) {
        if k > 0 { assert WaitsFor(s, rest[k - 1], rest[k - 1 + 1]); }
      }
    }
  }
}
