/** The session index of internal/gameplay/battle/service.go and its two levels of locks, as steps of
    any number of goroutines. `s.mu` guards the uid index, each session has its own `rs.mu`, and a
    session that left the index is marked deleted.

    A step is one lock acquisition, or one critical section up to its release. Idle goroutines may
    begin StartLevel (storeSession), a locked command (lockSession; PlayCard, EndTurn and SettleLevel
    differ only in what they do while they hold the session) or DeletePlayerRuntime. */
module SessionStore {
  import opened Common

  type Uid = string
  type Thread = int
  type Rid = int

  /** `finished` stands for Settled or Failed, which are never reset. */
  datatype Runtime = Runtime(
    uid: Uid, sid: string, holder: Option<Thread>, deleted: bool, finished: bool, published: bool)

  datatype RwLock = RwLock(writer: Option<Thread>, readers: set<Thread>)

  /** One storeSession call; `base` is the number of index changes when it began. */
  datatype Job = Job(uid: Uid, next: Rid, retries: nat, base: nat)

  datatype Pc =
    | Idle
    // storeSession
    | StoreRead(job: Job)                                      // waits for s.mu (read)
    | StoreReading(job: Job)                                   // holds s.mu (read)
    | StoreInsertWait(job: Job, seen: nat)                     // read nil; waits for s.mu
    | StoreInsert(job: Job, seen: nat)                         // holds s.mu
    | StoreLock(job: Job, current: Rid, seen: nat)             // waits for current.mu
    | StoreCheck(job: Job, current: Rid, seen: nat)            // holds current.mu
    | StoreSwapWait(job: Job, current: Rid, seen: nat)         // holds current.mu, waits for s.mu
    | StoreSwap(job: Job, current: Rid, seen: nat)             // holds both
    | StoreUnlock(job: Job, current: Rid, seen: nat, again: bool) // holds current.mu
    // lockSession and the command that follows
    | OpRead(uid: Uid, sid: string)
    | OpReading(uid: Uid, sid: string)
    | OpLock(uid: Uid, sid: string, current: Rid)
    | OpCheck(uid: Uid, sid: string, current: Rid)             // holds current.mu
    | OpWork(uid: Uid, sid: string, current: Rid)              // lockSession has returned the session
    // DeletePlayerRuntime
    | DelRead(uid: Uid)
    | DelReading(uid: Uid)
    | DelLock(uid: Uid, current: Rid)
    | DelWait(uid: Uid, current: Rid)                          // holds current.mu, waits for s.mu
    | DelBody(uid: Uid, current: Rid)                          // holds both
    | DelUnlock(uid: Uid, current: Rid)                        // holds current.mu

  /** `changes[uid]` counts how often `sessions[uid]` was written. */
  datatype State = State(
    mu: RwLock, sessions: map<Uid, Rid>, runtimes: map<Rid, Runtime>, threads: map<Thread, Pc>, changes: map<Uid, nat>)

  datatype Operation = StartLevel(uid: Uid, sid: string, next: Rid) | Command(uid: Uid, sid: string) | Delete(uid: Uid)

  /** `finish` and `leave` are the choices of a command that holds its session: whether this bit of work
      settles or fails the level, and whether it is done and unlocks. */
  datatype Label = Begin(thread: Thread, op: Operation) | Move(thread: Thread, finish: bool, leave: bool)

  // ---- Reading a program counter ----

  /** The locks a goroutine holds at a program counter: `s.mu` to read, `s.mu` to write, one session. */
  datatype Footprint = Footprint(reading: bool, writing: bool, held: Option<Rid>)

  const NOTHING := Footprint(false, false, None)

  function Foot(pc: Pc): Footprint {
    match pc
    case StoreReading(_) => Footprint(true, false, None)
    case OpReading(_, _) => Footprint(true, false, None)
    case DelReading(_) => Footprint(true, false, None)
    case StoreInsert(_, _) => Footprint(false, true, None)
    case StoreSwap(_, r, _) => Footprint(false, true, Some(r))
    case DelBody(_, r) => Footprint(false, true, Some(r))
    case StoreCheck(_, r, _) => Footprint(false, false, Some(r))
    case StoreSwapWait(_, r, _) => Footprint(false, false, Some(r))
    case StoreUnlock(_, r, _, _) => Footprint(false, false, Some(r))
    case OpCheck(_, _, r) => Footprint(false, false, Some(r))
    case OpWork(_, _, r) => Footprint(false, false, Some(r))
    case DelWait(_, r) => Footprint(false, false, Some(r))
    case DelUnlock(_, r) => Footprint(false, false, Some(r))
    case _ => NOTHING
  }

  predicate WaitsToRead(pc: Pc) { pc.StoreRead? || pc.OpRead? || pc.DelRead? }
  predicate WaitsToWrite(pc: Pc) { pc.StoreInsertWait? || pc.StoreSwapWait? || pc.DelWait? }
  predicate WaitsForSession(pc: Pc) { pc.StoreLock? || pc.OpLock? || pc.DelLock? }
  predicate Storing(pc: Pc) {
    pc.StoreRead? || pc.StoreReading? || pc.StoreInsertWait? || pc.StoreInsert? || pc.StoreLock?
    || pc.StoreCheck? || pc.StoreSwapWait? || pc.StoreSwap? || pc.StoreUnlock?
  }
  /** The job still has to publish its session. */
  predicate Pending(pc: Pc) { Storing(pc) && !(pc.StoreUnlock? && !pc.again) }
  predicate RemembersNil(pc: Pc) { pc.StoreInsertWait? || pc.StoreInsert? }
  predicate RemembersSession(pc: Pc) { pc.StoreLock? || pc.StoreCheck? || pc.StoreSwapWait? || pc.StoreSwap? }

  function OpUid(pc: Pc): Uid
    requires !pc.Idle?
  {
    if Storing(pc) then pc.job.uid else pc.uid
  }

  function Changes(s: State, uid: Uid): nat { if uid in s.changes then s.changes[uid] else 0 }

  function PcOf(s: State, t: Thread): Pc { if t in s.threads then s.threads[t] else Idle }

  predicate Indexed(s: State, uid: Uid, r: Rid) { uid in s.sessions && s.sessions[uid] == r }

  // ---- The steps: the next program counter and an effect on shared memory ----

  /** What a critical section under `s.mu` wrote before it unlocked: the entry of `uid` becomes `next`,
      and the session `prior` that was there is marked deleted. */
  datatype IndexWrite = IndexWrite(uid: Uid, prior: Option<Rid>, next: Option<Rid>)

  datatype Effect =
    | AcquireRead | ReleaseRead | AcquireWrite | ReleaseWrite(write: Option<IndexWrite>)
    | LockSession(r: Rid) | UnlockSession(r: Rid) | Finish(r: Rid, finish: bool, unlock: bool) | NoEffect

  datatype Plan = Plan(pc: Pc, effect: Effect)

  function Retry(job: Job): Job { job.(retries := job.retries + 1) }

  function PlanOf(s: State, pc: Pc, finish: bool, leave: bool): Plan
    requires !pc.Idle? && (Foot(pc).held.Some? ==> Foot(pc).held.value in s.runtimes)
  {
    match pc
    case StoreRead(job) => Plan(StoreReading(job), AcquireRead)
    case StoreReading(job) =>
      if job.uid in s.sessions then Plan(StoreLock(job, s.sessions[job.uid], Changes(s, job.uid)), ReleaseRead)
      else Plan(StoreInsertWait(job, Changes(s, job.uid)), ReleaseRead)
    case StoreInsertWait(job, seen) => Plan(StoreInsert(job, seen), AcquireWrite)
    case StoreInsert(job, seen) =>
      if job.uid in s.sessions then Plan(StoreRead(Retry(job)), ReleaseWrite(None))
      else Plan(Idle, ReleaseWrite(Some(IndexWrite(job.uid, None, Some(job.next)))))
    case StoreLock(job, current, seen) => Plan(StoreCheck(job, current, seen), LockSession(current))
    case StoreCheck(job, current, seen) =>
      if s.runtimes[current].deleted then Plan(StoreRead(Retry(job)), UnlockSession(current))
      else if !s.runtimes[current].finished then Plan(Idle, UnlockSession(current))
      else Plan(StoreSwapWait(job, current, seen), NoEffect)
    case StoreSwapWait(job, current, seen) => Plan(StoreSwap(job, current, seen), AcquireWrite)
    case StoreSwap(job, current, seen) =>
      if !Indexed(s, job.uid, current) then Plan(StoreUnlock(job, current, seen, true), ReleaseWrite(None))
      else Plan(StoreUnlock(job, current, seen, false), ReleaseWrite(Some(IndexWrite(job.uid, Some(current), Some(job.next)))))
    case StoreUnlock(job, current, seen, again) =>
      Plan(if again then StoreRead(Retry(job)) else Idle, UnlockSession(current))
    case OpRead(uid, sid) => Plan(OpReading(uid, sid), AcquireRead)
    case OpReading(uid, sid) => Plan(if uid in s.sessions then OpLock(uid, sid, s.sessions[uid]) else Idle, ReleaseRead)
    case OpLock(uid, sid, current) => Plan(OpCheck(uid, sid, current), LockSession(current))
    case OpCheck(uid, sid, current) =>
      if s.runtimes[current].deleted || s.runtimes[current].sid != sid then Plan(Idle, UnlockSession(current))
      else Plan(OpWork(uid, sid, current), NoEffect)
    case OpWork(uid, sid, current) => Plan(if leave then Idle else pc, Finish(current, finish, leave))
    case DelRead(uid) => Plan(DelReading(uid), AcquireRead)
    case DelReading(uid) => Plan(if uid in s.sessions then DelLock(uid, s.sessions[uid]) else Idle, ReleaseRead)
    case DelLock(uid, current) => Plan(DelWait(uid, current), LockSession(current))
    case DelWait(uid, current) => Plan(DelBody(uid, current), AcquireWrite)
    case DelBody(uid, current) =>
      if !Indexed(s, uid, current) then Plan(DelUnlock(uid, current), ReleaseWrite(None))
      else Plan(DelUnlock(uid, current), ReleaseWrite(Some(IndexWrite(uid, Some(current), None))))
    case DelUnlock(uid, current) => Plan(Idle, UnlockSession(current))
  }

  function CountChange(s: State, uid: Uid): map<Uid, nat> { s.changes[uid := Changes(s, uid) + 1] }

  function Mark(runtimes: map<Rid, Runtime>, gone: Option<Rid>, shown: Option<Rid>): map<Rid, Runtime> {
    map r | r in runtimes ::
      runtimes[r].(deleted := runtimes[r].deleted || gone == Some(r), published := runtimes[r].published || shown == Some(r))
  }

  function Write(s: State, w: IndexWrite): State {
    s.(sessions := if w.next.Some? then s.sessions[w.uid := w.next.value] else s.sessions - {w.uid},
       changes := CountChange(s, w.uid),
       runtimes := Mark(s.runtimes, w.prior, w.next))
  }

  predicate CanPerform(s: State, e: Effect) {
    match e
    case LockSession(r) => r in s.runtimes
    case UnlockSession(r) => r in s.runtimes
    case Finish(r, _, _) => r in s.runtimes
    case _ => true
  }

  function Perform(s: State, t: Thread, e: Effect): State
    requires CanPerform(s, e)
  {
    match e
    case AcquireRead => s.(mu := s.mu.(readers := s.mu.readers + {t}))
    case ReleaseRead => s.(mu := s.mu.(readers := s.mu.readers - {t}))
    case AcquireWrite => s.(mu := s.mu.(writer := Some(t)))
    case ReleaseWrite(w) =>
      var free := s.(mu := s.mu.(writer := None));
      if w.Some? then Write(free, w.value) else free
    case LockSession(r) => s.(runtimes := s.runtimes[r := s.runtimes[r].(holder := Some(t))])
    case UnlockSession(r) => s.(runtimes := s.runtimes[r := s.runtimes[r].(holder := None)])
    case Finish(r, finish, unlock) =>
      var x := s.runtimes[r];
      s.(runtimes := s.runtimes[r := x.(finished := x.finished || finish, holder := if unlock then None else x.holder)])
    case NoEffect => s
  }

  function After(s: State, t: Thread, plan: Plan): State
    requires CanPerform(s, plan.effect)
  {
    var s' := Perform(s, t, plan.effect);
    s'.(threads := s'.threads[t := plan.pc])
  }

  /** What an acquisition needs: readers share `s.mu`, everything else is exclusive. */
  predicate Enabled(s: State, l: Label) {
    match l
    case Begin(t, op) => PcOf(s, t).Idle? && (op.StartLevel? ==> op.next !in s.runtimes)
    case Move(t, finish, leave) =>
      var pc := PcOf(s, t);
      && !pc.Idle?
      && (WaitsToRead(pc) ==> s.mu.writer.None?)
      && (WaitsToWrite(pc) ==> s.mu.writer.None? && s.mu.readers == {})
      && (WaitsForSession(pc) ==> pc.current in s.runtimes && s.runtimes[pc.current].holder.None?)
      && (Foot(pc).held.Some? ==> Foot(pc).held.value in s.runtimes)
      && CanPerform(s, PlanOf(s, pc, finish, leave).effect)
  }

  function Apply(s: State, l: Label): State
    requires Enabled(s, l)
  {
    match l
    case Begin(t, StartLevel(uid, sid, next)) =>
      s.(threads := s.threads[t := StoreRead(Job(uid, next, 0, Changes(s, uid)))],
         runtimes := s.runtimes[next := Runtime(uid, sid, None, false, false, false)])
    case Begin(t, Command(uid, sid)) => s.(threads := s.threads[t := OpRead(uid, sid)])
    case Begin(t, Delete(uid)) => s.(threads := s.threads[t := DelRead(uid)])
    case Move(t, finish, leave) => After(s, t, PlanOf(s, PcOf(s, t), finish, leave))
  }

  const INIT := State(RwLock(None, {}), map[], map[], map[], map[])

  // ---- The invariant, entity by entity ----

  /** The writer of `s.mu` is alone and is where it writes. */
  predicate MuOk(s: State) {
    s.mu.writer.Some? ==> s.mu.readers == {} && Foot(PcOf(s, s.mu.writer.value)).writing
  }

  /** A goroutine has the locks its program counter says. */
  predicate ThreadLocks(s: State, t: Thread) {
    var foot := Foot(PcOf(s, t));
    && (t in s.mu.readers <==> foot.reading)
    && (foot.writing ==> s.mu.writer == Some(t))
    && (foot.held.Some? ==> foot.held.value in s.runtimes && s.runtimes[foot.held.value].holder == Some(t))
  }

  /** A session is locked by a goroutine that holds it, and is in the index exactly while it is
      published and not deleted. */
  predicate RuntimeOk(s: State, r: Rid) { HolderOk(s, r) && PublishedOk(s, r) }

  predicate HolderOk(s: State, r: Rid) {
    r in s.runtimes && s.runtimes[r].holder.Some? ==> Foot(PcOf(s, s.runtimes[r].holder.value)).held == Some(r)
  }

  predicate PublishedOk(s: State, r: Rid) {
    r in s.runtimes ==>
      var x := s.runtimes[r];
      && (x.published && !x.deleted <==> Indexed(s, x.uid, r))
      && (x.deleted ==> x.published)
  }

  predicate IndexOk(s: State, uid: Uid) {
    uid in s.sessions ==> s.sessions[uid] in s.runtimes && s.runtimes[s.sessions[uid]].uid == uid
  }

  /** What a goroutine may rely on about the sessions it refers to. */
  predicate ThreadRefs(s: State, t: Thread) {
    var pc := PcOf(s, t);
    && (WaitsForSession(pc) || Foot(pc).held.Some? ==>
          pc.current in s.runtimes && s.runtimes[pc.current].published && s.runtimes[pc.current].uid == OpUid(pc))
    && (Pending(pc) ==>
          pc.job.next in s.runtimes && !s.runtimes[pc.job.next].published && s.runtimes[pc.job.next].uid == pc.job.uid)
    && (pc.StoreSwapWait? || pc.StoreSwap? ==> !s.runtimes[pc.current].deleted && s.runtimes[pc.current].finished)
    && (pc.OpWork? ==> !s.runtimes[pc.current].deleted && s.runtimes[pc.current].sid == pc.sid)
    && (pc.StoreUnlock? ==> !pc.again && pc.job.next in s.runtimes && s.runtimes[pc.job.next].published)
    && (pc.DelUnlock? ==> s.runtimes[pc.current].deleted)
  }

  /** Two storing goroutines never publish the same session. */
  predicate NextApart(s: State, t: Thread, u: Thread) {
    t != u && Pending(PcOf(s, t)) && Pending(PcOf(s, u)) ==> PcOf(s, t).job.next != PcOf(s, u).job.next
  }

  /** While the change counter stands where it was read, the index entry is what was read; every retry
      is paid for by a change. */
  predicate ThreadReads(s: State, t: Thread) {
    var pc := PcOf(s, t);
    && (Storing(pc) ==> pc.job.base + pc.job.retries <= Changes(s, pc.job.uid))
    && (RemembersNil(pc) || RemembersSession(pc) ==>
          && pc.job.base + pc.job.retries <= pc.seen <= Changes(s, pc.job.uid)
          && (pc.seen == Changes(s, pc.job.uid) ==>
                if RemembersNil(pc) then pc.job.uid !in s.sessions else Indexed(s, pc.job.uid, pc.current)))
  }

  ghost predicate Inv(s: State) {
    && MuOk(s)
    && (forall t :: ThreadLocks(s, t))
    && (forall r :: RuntimeOk(s, r))
    && (forall uid :: IndexOk(s, uid))
    && (forall t :: ThreadRefs(s, t))
    && (forall t, u :: NextApart(s, t, u))
    && (forall t :: ThreadReads(s, t))
  }

  // ---- Every step keeps the invariant ----

  /** How an effect changes the locks of the goroutine that performs it. */
  predicate Shape(pc: Pc, plan: Plan) {
    var a, b := Foot(pc), Foot(plan.pc);
    match plan.effect
    case AcquireRead => a == NOTHING && b == Footprint(true, false, None)
    case ReleaseRead => a == Footprint(true, false, None) && b == NOTHING
    case AcquireWrite => !a.reading && !a.writing && b == a.(writing := true)
    case ReleaseWrite(_) => !a.reading && a.writing && b == a.(writing := false)
    case LockSession(r) => a == NOTHING && b == Footprint(false, false, Some(r))
    case UnlockSession(r) => a == Footprint(false, false, Some(r)) && b == NOTHING
    case Finish(r, _, unlock) => a == Footprint(false, false, Some(r)) && b == if unlock then NOTHING else a
    case NoEffect => !a.reading && !a.writing && b == a
  }

  /** The acquisition is allowed in `s`. */
  predicate Acquirable(s: State, e: Effect) {
    match e
    case AcquireRead => s.mu.writer.None?
    case AcquireWrite => s.mu.writer.None? && s.mu.readers == {}
    case LockSession(r) => r in s.runtimes && s.runtimes[r].holder.None?
    case _ => true
  }

  /** An index write is made by the goroutine entitled to it: it inserts its own unpublished session
      where there is none, or over a finished session it has locked, or removes one it has locked. */
  predicate Entitled(s: State, t: Thread, w: IndexWrite) {
    var pc := PcOf(s, t);
    && (w.next.Some? ==>
          && Pending(pc) && w.next.value == pc.job.next && w.uid == pc.job.uid
          && w.next.value in s.runtimes && !s.runtimes[w.next.value].published && s.runtimes[w.next.value].uid == w.uid)
    && (w.prior.None? ==> w.uid !in s.sessions && w.next.Some?)
    && (w.prior.Some? ==>
          && Indexed(s, w.uid, w.prior.value) && w.prior.value in s.runtimes && s.runtimes[w.prior.value].uid == w.uid
          && Foot(pc).held == w.prior)
    && (w.prior.Some? && w.next.Some? ==> s.runtimes[w.prior.value].finished)
  }

  /** The step acquires what is free and gives up what it holds. */
  predicate Orderly(s: State, t: Thread, plan: Plan) {
    CanPerform(s, plan.effect) && Acquirable(s, plan.effect) && Shape(PcOf(s, t), plan)
  }

  /** All that the other goroutines need to know of a step. */
  predicate Sound(s: State, t: Thread, plan: Plan) {
    && Orderly(s, t, plan)
    && (plan.effect.ReleaseWrite? && plan.effect.write.Some? ==> Entitled(s, t, plan.effect.write.value))
    && (Pending(plan.pc) ==> Pending(PcOf(s, t)) && plan.pc.job.next == PcOf(s, t).job.next)
  }

  lemma StorePlanSound(s: State, t: Thread, finish: bool, leave: bool)
    requires Enabled(s, Move(t, finish, leave)) && Storing(PcOf(s, t)) && ThreadRefs(s, t)
    ensures Sound(s, t, PlanOf(s, PcOf(s, t), finish, leave))
  {
  }

  lemma OtherPlanSound(s: State, t: Thread, finish: bool, leave: bool)
    requires Enabled(s, Move(t, finish, leave)) && !Storing(PcOf(s, t)) && ThreadRefs(s, t)
    ensures Sound(s, t, PlanOf(s, PcOf(s, t), finish, leave))
  {
  }

  /** What the mover's next reads of the index rest on. */
  predicate EntryOk(s: State, uid: Uid) {
    IndexOk(s, uid) && (uid in s.sessions ==> PublishedOk(s, s.sessions[uid]))
  }

  /** The mover's new program counter may rely on what `ThreadRefs` and `ThreadReads` say. */
  lemma StoreReadKeeps(s: State, t: Thread, finish: bool, leave: bool)
    requires Enabled(s, Move(t, finish, leave)) && ThreadRefs(s, t) && ThreadReads(s, t)
    requires PcOf(s, t).StoreRead? || PcOf(s, t).StoreReading?
    requires EntryOk(s, PcOf(s, t).job.uid)
    ensures var s' := After(s, t, PlanOf(s, PcOf(s, t), finish, leave)); ThreadRefs(s', t) && ThreadReads(s', t)
  {
  }

  lemma StoreInsertKeeps(s: State, t: Thread, finish: bool, leave: bool)
    requires Enabled(s, Move(t, finish, leave)) && ThreadRefs(s, t) && ThreadReads(s, t)
    requires PcOf(s, t).StoreInsertWait? || PcOf(s, t).StoreInsert?
    requires EntryOk(s, PcOf(s, t).job.uid)
    ensures var s' := After(s, t, PlanOf(s, PcOf(s, t), finish, leave)); ThreadRefs(s', t) && ThreadReads(s', t)
  {
  }

  lemma StoreLockKeeps(s: State, t: Thread, finish: bool, leave: bool)
    requires Enabled(s, Move(t, finish, leave)) && ThreadRefs(s, t) && ThreadReads(s, t)
    requires PcOf(s, t).StoreLock? || PcOf(s, t).StoreCheck?
    requires PublishedOk(s, PcOf(s, t).current)
    ensures var s' := After(s, t, PlanOf(s, PcOf(s, t), finish, leave)); ThreadRefs(s', t) && ThreadReads(s', t)
  {
  }

  lemma StoreSwapKeeps(s: State, t: Thread, finish: bool, leave: bool)
    requires Enabled(s, Move(t, finish, leave)) && ThreadRefs(s, t) && ThreadReads(s, t)
    requires PcOf(s, t).StoreSwapWait? || PcOf(s, t).StoreSwap? || PcOf(s, t).StoreUnlock?
    requires PublishedOk(s, PcOf(s, t).current)
    ensures var s' := After(s, t, PlanOf(s, PcOf(s, t), finish, leave)); ThreadRefs(s', t) && ThreadReads(s', t)
  {
  }

  lemma CommandKeeps(s: State, t: Thread, finish: bool, leave: bool)
    requires Enabled(s, Move(t, finish, leave)) && ThreadRefs(s, t)
    requires PcOf(s, t).OpRead? || PcOf(s, t).OpReading? || PcOf(s, t).OpLock?
    requires EntryOk(s, PcOf(s, t).uid)
    ensures var s' := After(s, t, PlanOf(s, PcOf(s, t), finish, leave)); ThreadRefs(s', t) && ThreadReads(s', t)
  {
  }

  lemma CommandHolderKeeps(s: State, t: Thread, finish: bool, leave: bool)
    requires Enabled(s, Move(t, finish, leave)) && ThreadRefs(s, t)
    requires PcOf(s, t).OpCheck? || PcOf(s, t).OpWork?
    ensures var s' := After(s, t, PlanOf(s, PcOf(s, t), finish, leave)); ThreadRefs(s', t) && ThreadReads(s', t)
  {
  }

  lemma DeleteKeeps(s: State, t: Thread, finish: bool, leave: bool)
    requires Enabled(s, Move(t, finish, leave)) && ThreadRefs(s, t)
    requires PcOf(s, t).DelRead? || PcOf(s, t).DelReading? || PcOf(s, t).DelLock?
    requires EntryOk(s, PcOf(s, t).uid)
    ensures var s' := After(s, t, PlanOf(s, PcOf(s, t), finish, leave)); ThreadRefs(s', t) && ThreadReads(s', t)
  {
  }

  lemma DeleteHolderKeeps(s: State, t: Thread, finish: bool, leave: bool)
    requires Enabled(s, Move(t, finish, leave)) && ThreadRefs(s, t)
    requires PcOf(s, t).DelWait? || PcOf(s, t).DelBody? || PcOf(s, t).DelUnlock?
    requires PublishedOk(s, PcOf(s, t).current)
    ensures var s' := After(s, t, PlanOf(s, PcOf(s, t), finish, leave)); ThreadRefs(s', t) && ThreadReads(s', t)
  {
  }

  predicate TouchesMu(e: Effect) { e.AcquireRead? || e.ReleaseRead? || e.AcquireWrite? || e.ReleaseWrite? }

  lemma MuEffectKeepsMu(s: State, t: Thread, plan: Plan)
    requires Orderly(s, t, plan) && MuOk(s) && ThreadLocks(s, t) && TouchesMu(plan.effect)
    ensures MuOk(After(s, t, plan))
  {
    assert PcOf(After(s, t, plan), t) == plan.pc;
  }

  lemma SessionEffectKeepsMu(s: State, t: Thread, plan: Plan)
    requires Orderly(s, t, plan) && MuOk(s) && !TouchesMu(plan.effect)
    ensures MuOk(After(s, t, plan))
  {
    assert After(s, t, plan).mu == s.mu;
  }

  lemma MuKept(s: State, t: Thread, plan: Plan)
    requires Orderly(s, t, plan) && MuOk(s) && ThreadLocks(s, t)
    ensures MuOk(After(s, t, plan))
  {
    if TouchesMu(plan.effect) { MuEffectKeepsMu(s, t, plan); } else { SessionEffectKeepsMu(s, t, plan); }
  }

  lemma OtherLocksKept(s: State, t: Thread, plan: Plan, u: Thread)
    requires Orderly(s, t, plan) && u != t && ThreadLocks(s, t) && ThreadLocks(s, u)
    ensures ThreadLocks(After(s, t, plan), u)
  {
  }

  /** How a step of `t` may change session `r`: only its own pending session becomes published, only a
      session it holds is deleted. */
  predicate RuntimeFrame(s: State, s': State, t: Thread, r: Rid) {
    r in s.runtimes ==>
      && r in s'.runtimes
      && var x, y := s.runtimes[r], s'.runtimes[r];
         && y.uid == x.uid && y.sid == x.sid && (x.finished ==> y.finished)
         && (x.published ==> y.published) && (x.deleted ==> y.deleted)
         && (y.published && !x.published ==> Pending(PcOf(s, t)) && r == PcOf(s, t).job.next)
         && (y.deleted && !x.deleted ==> Foot(PcOf(s, t)).held == Some(r))
  }

  lemma RuntimeFramed(s: State, t: Thread, plan: Plan, r: Rid)
    requires Sound(s, t, plan)
    ensures RuntimeFrame(s, After(s, t, plan), t, r)
  {
    if plan.effect.ReleaseWrite? && plan.effect.write.Some? {
      assert After(s, t, plan).runtimes == Mark(s.runtimes, plan.effect.write.value.prior, plan.effect.write.value.next);
    } else if TouchesMu(plan.effect) {
      assert After(s, t, plan).runtimes == s.runtimes;
    }
  }

  lemma OtherRefsKept(s: State, s': State, t: Thread, u: Thread)
    requires u != t && PcOf(s', u) == PcOf(s, u) && ThreadLocks(s, t) && ThreadLocks(s, u) && NextApart(s, t, u)
    requires WaitsForSession(PcOf(s, u)) || Foot(PcOf(s, u)).held.Some? ==> RuntimeFrame(s, s', t, PcOf(s, u).current)
    requires Storing(PcOf(s, u)) ==> RuntimeFrame(s, s', t, PcOf(s, u).job.next)
    requires ThreadRefs(s, u)
    ensures ThreadRefs(s', u)
  {
  }

  lemma OtherReadsKept(s: State, t: Thread, plan: Plan, u: Thread)
    requires CanPerform(s, plan.effect) && u != t && ThreadReads(s, u)
    ensures ThreadReads(After(s, t, plan), u)
  {
  }

  lemma SessionEffectKeepsHolder(s: State, t: Thread, plan: Plan, r: Rid)
    requires Orderly(s, t, plan) && ThreadLocks(s, t) && HolderOk(s, r)
    requires plan.effect.LockSession? || plan.effect.UnlockSession? || plan.effect.Finish?
    ensures HolderOk(After(s, t, plan), r)
  {
  }

  lemma MuEffectKeepsHolder(s: State, t: Thread, plan: Plan, r: Rid)
    requires Orderly(s, t, plan) && HolderOk(s, r)
    requires plan.effect.AcquireRead? || plan.effect.ReleaseRead? || plan.effect.AcquireWrite? || plan.effect.ReleaseWrite?
    ensures HolderOk(After(s, t, plan), r)
  {
  }

  lemma HolderKept(s: State, t: Thread, plan: Plan, r: Rid)
    requires Orderly(s, t, plan) && ThreadLocks(s, t) && HolderOk(s, r)
    ensures HolderOk(After(s, t, plan), r)
  {
    match plan.effect
    case LockSession(_) => SessionEffectKeepsHolder(s, t, plan, r);
    case UnlockSession(_) => SessionEffectKeepsHolder(s, t, plan, r);
    case Finish(_, _, _) => SessionEffectKeepsHolder(s, t, plan, r);
    case NoEffect =>
    case _ => MuEffectKeepsHolder(s, t, plan, r);
  }

  predicate EndsOk(s: State, w: IndexWrite) {
    (w.prior.Some? ==> PublishedOk(s, w.prior.value)) && (w.next.Some? ==> PublishedOk(s, w.next.value))
  }

  lemma PublishedKept(s: State, t: Thread, plan: Plan, r: Rid)
    requires CanPerform(s, plan.effect) && (plan.effect.ReleaseWrite? && plan.effect.write.Some? ==> Entitled(s, t, plan.effect.write.value)) && PublishedOk(s, r)
    requires plan.effect.ReleaseWrite? && plan.effect.write.Some? ==> EndsOk(s, plan.effect.write.value)
    ensures PublishedOk(After(s, t, plan), r)
  {
  }

  lemma IndexKept(s: State, t: Thread, plan: Plan, uid: Uid)
    requires CanPerform(s, plan.effect) && (plan.effect.ReleaseWrite? && plan.effect.write.Some? ==> Entitled(s, t, plan.effect.write.value)) && IndexOk(s, uid)
    ensures IndexOk(After(s, t, plan), uid)
  {
  }

  lemma ApartKept(s: State, t: Thread, plan: Plan, u: Thread, v: Thread)
    requires Sound(s, t, plan) && NextApart(s, u, v)
    ensures NextApart(After(s, t, plan), u, v)
  {
  }

  /** Everything but the mover's own reliance on its reads. */
  lemma SoundKeepsShared(s: State, t: Thread, plan: Plan)
    requires Inv(s) && Sound(s, t, plan)
    ensures var s' := After(s, t, plan);
      && MuOk(s') && (forall u :: ThreadLocks(s', u)) && (forall r :: RuntimeOk(s', r)) && (forall uid :: IndexOk(s', uid))
  {
    var s' := After(s, t, plan);
    MuKept(s, t, plan);
    forall u ensures ThreadLocks(s', u) {
      if u != t { OtherLocksKept(s, t, plan, u); }
    }
    forall r ensures RuntimeOk(s', r) {
      assert RuntimeOk(s, r);
      if plan.effect.ReleaseWrite? && plan.effect.write.Some? {
        var w := plan.effect.write.value;
        if w.prior.Some? { assert RuntimeOk(s, w.prior.value); }
        if w.next.Some? { assert RuntimeOk(s, w.next.value); }
      }
      HolderKept(s, t, plan, r);
      PublishedKept(s, t, plan, r);
    }
    forall uid ensures IndexOk(s', uid) { IndexKept(s, t, plan, uid); }
  }

  lemma SoundKeepsOthers(s: State, t: Thread, plan: Plan)
    requires Inv(s) && Sound(s, t, plan)
    ensures var s' := After(s, t, plan);
      && (forall u :: u != t ==> ThreadRefs(s', u) && ThreadReads(s', u))
      && (forall u, v :: NextApart(s', u, v))
  {
    var s' := After(s, t, plan);
    forall u | u != t ensures ThreadRefs(s', u) && ThreadReads(s', u) {
      var pc := PcOf(s, u);
      assert ThreadLocks(s, t) && ThreadLocks(s, u) && NextApart(s, t, u) && ThreadRefs(s, u) && ThreadReads(s, u);
      if WaitsForSession(pc) || Foot(pc).held.Some? { RuntimeFramed(s, t, plan, pc.current); }
      if Storing(pc) { RuntimeFramed(s, t, plan, pc.job.next); }
      OtherRefsKept(s, s', t, u);
      OtherReadsKept(s, t, plan, u);
    }
    forall u, v ensures NextApart(s', u, v) { ApartKept(s, t, plan, u, v); }
  }

  lemma StorerKept(s: State, t: Thread, finish: bool, leave: bool)
    requires Inv(s) && Enabled(s, Move(t, finish, leave)) && Storing(PcOf(s, t))
    ensures var s' := Apply(s, Move(t, finish, leave)); ThreadRefs(s', t) && ThreadReads(s', t)
  {
    var pc := PcOf(s, t);
    assert ThreadRefs(s, t) && ThreadReads(s, t) && IndexOk(s, pc.job.uid);
    if pc.job.uid in s.sessions { assert RuntimeOk(s, s.sessions[pc.job.uid]); }
    if RemembersSession(pc) || pc.StoreUnlock? { assert RuntimeOk(s, pc.current); }
    match pc
    case StoreLock(_, _, _) => StoreLockKeeps(s, t, finish, leave);
    case StoreCheck(_, _, _) => StoreLockKeeps(s, t, finish, leave);
    case StoreSwapWait(_, _, _) => StoreSwapKeeps(s, t, finish, leave);
    case StoreSwap(_, _, _) => StoreSwapKeeps(s, t, finish, leave);
    case StoreUnlock(_, _, _, _) => StoreSwapKeeps(s, t, finish, leave);
    case StoreInsertWait(_, _) => StoreInsertKeeps(s, t, finish, leave);
    case StoreInsert(_, _) => StoreInsertKeeps(s, t, finish, leave);
    case _ => StoreReadKeeps(s, t, finish, leave);
  }

  lemma MoverKept(s: State, t: Thread, finish: bool, leave: bool)
    requires Inv(s) && Enabled(s, Move(t, finish, leave))
    ensures var s' := Apply(s, Move(t, finish, leave)); ThreadRefs(s', t) && ThreadReads(s', t)
  {
    var pc := PcOf(s, t);
    if Storing(pc) {
      StorerKept(s, t, finish, leave);
    } else {
      assert ThreadRefs(s, t) && IndexOk(s, pc.uid);
      if pc.uid in s.sessions { assert RuntimeOk(s, s.sessions[pc.uid]); }
      if Foot(pc).held.Some? { assert RuntimeOk(s, pc.current); }
      match pc
      case OpCheck(_, _, _) => CommandHolderKeeps(s, t, finish, leave);
      case OpWork(_, _, _) => CommandHolderKeeps(s, t, finish, leave);
      case OpRead(_, _) => CommandKeeps(s, t, finish, leave);
      case OpReading(_, _) => CommandKeeps(s, t, finish, leave);
      case OpLock(_, _, _) => CommandKeeps(s, t, finish, leave);
      case DelRead(_) => DeleteKeeps(s, t, finish, leave);
      case DelReading(_) => DeleteKeeps(s, t, finish, leave);
      case DelLock(_, _) => DeleteKeeps(s, t, finish, leave);
      case _ => DeleteHolderKeeps(s, t, finish, leave);
    }
  }

  lemma MoveKeepsInv(s: State, t: Thread, finish: bool, leave: bool)
    requires Inv(s) && Enabled(s, Move(t, finish, leave))
    ensures Inv(Apply(s, Move(t, finish, leave)))
  {
    assert ThreadRefs(s, t);
    if Storing(PcOf(s, t)) { StorePlanSound(s, t, finish, leave); } else { OtherPlanSound(s, t, finish, leave); }
    SoundKeepsShared(s, t, PlanOf(s, PcOf(s, t), finish, leave));
    SoundKeepsOthers(s, t, PlanOf(s, PcOf(s, t), finish, leave));
    MoverKept(s, t, finish, leave);
  }

  lemma BeginKeepsLocks(s: State, t: Thread, op: Operation, u: Thread)
    requires Enabled(s, Begin(t, op)) && ThreadLocks(s, u)
    ensures ThreadLocks(Apply(s, Begin(t, op)), u)
  {
  }

  lemma BeginKeepsRefs(s: State, t: Thread, op: Operation, u: Thread)
    requires Enabled(s, Begin(t, op)) && ThreadRefs(s, u)
    ensures ThreadRefs(Apply(s, Begin(t, op)), u)
  {
  }

  lemma BeginKeepsReads(s: State, t: Thread, op: Operation, u: Thread)
    requires Enabled(s, Begin(t, op)) && ThreadReads(s, u)
    ensures ThreadReads(Apply(s, Begin(t, op)), u)
  {
  }

  lemma BeginKeepsApart(s: State, t: Thread, op: Operation, u: Thread, v: Thread)
    requires Enabled(s, Begin(t, op)) && NextApart(s, u, v) && ThreadRefs(s, u) && ThreadRefs(s, v)
    ensures NextApart(Apply(s, Begin(t, op)), u, v)
  {
  }

  lemma BeginKeepsInv(s: State, t: Thread, op: Operation)
    requires Inv(s) && Enabled(s, Begin(t, op))
    ensures Inv(Apply(s, Begin(t, op)))
  {
    var s' := Apply(s, Begin(t, op));
    forall u ensures ThreadLocks(s', u) && ThreadRefs(s', u) && ThreadReads(s', u) {
      BeginKeepsLocks(s, t, op, u);
      BeginKeepsRefs(s, t, op, u);
      BeginKeepsReads(s, t, op, u);
    }
    if op.StartLevel? { assert IndexOk(s, op.uid); }
    forall r ensures RuntimeOk(s', r) { assert RuntimeOk(s, r); }
    forall uid ensures IndexOk(s', uid) { assert IndexOk(s, uid); }
    forall u, v ensures NextApart(s', u, v) { BeginKeepsApart(s, t, op, u, v); }
  }

  // ---- Runs ----

  /** Any number of goroutines, interleaved in any way. */
  ghost predicate IsRun(run: seq<State>, labels: seq<Label>) {
    && |run| == |labels| + 1 && run[0] == INIT
    && forall i :: 0 <= i < |labels| ==> Enabled(run[i], labels[i]) && run[i + 1] == Apply(run[i], labels[i])
  }

  lemma {:induction false} EveryRunInv(run: seq<State>, labels: seq<Label>, i: nat)
    requires IsRun(run, labels) && i < |run|
    ensures Inv(run[i])
  {
    if i > 0 {
      EveryRunInv(run, labels, i - 1);
      match labels[i - 1]
      case Begin(t, op) => BeginKeepsInv(run[i - 1], t, op);
      case Move(t, finish, leave) => MoveKeepsInv(run[i - 1], t, finish, leave);
    }
  }
}
