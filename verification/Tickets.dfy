/** One-time entry tickets (internal/platform/auth/ticket_verifier.go, nonce_store.go).

    HMAC, base64 and JSON are parameters. The store reads a clock in nanoseconds; the second a ticket is
    judged by is read before that, by the caller. The store's clock is read before its mutex is taken, so a
    run lists the calls in the order in which they take it, and their readings come in any order. */
module Tickets {
  import opened Common
  import opened Text

  datatype Claims = Claims(uid: string, serverId: string, exp: int, nonce: string, issuer: string)

  /** `decode` is the inverse of base64, `sign` the HMAC under the server's secret, `parse` and `print`
      the JSON codec. */
  datatype Codec = Codec(
    encode: string -> string, decode: string -> Option<string>, sign: string -> string,
    show: Claims -> string, parse: string -> Option<Claims>)

  datatype Verifier = Verifier(codec: Codec, hasSecret: bool, issuer: string)

  datatype TicketError = InvalidTicket | ExpiredTicket | Replay

  const SECOND := 1_000_000_000
  const CLEANUP_THRESHOLD := 2000
  const CLEANUP_INTERVAL := 30 * SECOND

  datatype Store = Store(items: map<string, int>, nextCleanup: Option<int>)

  const EMPTY_STORE := Store(map[], None)

  /** SignTicket. */
  function Sign(v: Verifier, c: Claims): Result<string, TicketError> {
    if !v.hasSecret || c.uid == "" || c.serverId == "" || c.exp <= 0 || c.nonce == "" || c.issuer == "" then Err(InvalidTicket)
    else
      var payload := v.codec.encode(v.codec.show(c));
      Ok(payload + "." + v.codec.encode(v.codec.sign(payload)))
  }

  /** Everything Verify checks before it takes the nonce. */
  function Check(v: Verifier, token: string, server: string, nowUnix: int): Result<Claims, TicketError> {
    var parts := Split(token);
    if |parts| != 2 || !v.hasSecret || v.issuer == "" then Err(InvalidTicket)
    else
      var signature, payload := v.codec.decode(parts[1]), v.codec.decode(parts[0]);
      if signature != Some(v.codec.sign(parts[0])) || payload.None? then Err(InvalidTicket)
      else
        var claims := v.codec.parse(payload.value);
        if claims.None? || claims.value.uid == "" || claims.value.serverId == "" || claims.value.nonce == "" || claims.value.issuer != v.issuer
        then Err(InvalidTicket)
        else if claims.value.exp <= nowUnix then Err(ExpiredTicket)
        else if claims.value.serverId != server then Err(InvalidTicket)
        else Ok(claims.value)
  }

  predicate CleanupDue(s: Store, now: int) {
    |s.items| >= CLEANUP_THRESHOLD && (s.nextCleanup.None? || now >= s.nextCleanup.value)
  }

  function Added(s: Store, nonce: string, ttl: int, now: int): Store {
    Store(s.items[nonce := now + ttl], s.nextCleanup)
  }

  /** ConsumeOnce: None is a replay. An entry is dead from the moment it expires. */
  function Consume(s: Store, nonce: string, ttl: int, now: int): Option<Store> {
    if nonce in s.items && s.items[nonce] > now then None
    else
      var added := Added(s, nonce, ttl, now);
      if CleanupDue(added, now) then
        Some(Store(map k | k in added.items && added.items[k] > now :: added.items[k], Some(now + CLEANUP_INTERVAL)))
      else Some(added)
  }

  datatype Call = Call(token: string, server: string, nowUnix: int, now: int)

  datatype Verdict = Verdict(store: Store, answer: Result<Claims, TicketError>)

  function Verify(v: Verifier, s: Store, c: Call): Verdict {
    var checked := Check(v, c.token, c.server, c.nowUnix);
    if checked.Err? then Verdict(s, checked)
    else
      var taken := Consume(s, checked.value.nonce, (checked.value.exp - c.nowUnix) * SECOND, c.now);
      if taken.None? then Verdict(s, Err(Replay)) else Verdict(taken.value, checked)
  }

  /** A ticket is signed exactly when there is a secret and every claim is there. */
  lemma SignsIff(v: Verifier, c: Claims)
    ensures Sign(v, c).Ok? <==> v.hasSecret && c.exp > 0 && "" !in {c.uid, c.serverId, c.nonce, c.issuer}
    ensures Sign(v, c).Err? ==> Sign(v, c).error == InvalidTicket
  {
  }

  /** What becomes of a properly signed ticket: expiry is judged first, then the server. */
  lemma SignedTicketChecks(v: Verifier, c: Claims, server: string, nowUnix: int)
    requires Sign(v, c).Ok? && c.issuer == v.issuer
    requires forall s :: NoDot(v.codec.encode(s)) && v.codec.decode(v.codec.encode(s)) == Some(s)
    requires v.codec.parse(v.codec.show(c)) == Some(c)
    ensures Check(v, Sign(v, c).value, server, nowUnix)
         == if c.exp <= nowUnix then Err(ExpiredTicket) else if c.serverId != server then Err(InvalidTicket) else Ok(c)
  {
    var payload := v.codec.encode(v.codec.show(c));
    SplitJoin(payload, v.codec.encode(v.codec.sign(payload)));
    SplitOne(v.codec.encode(v.codec.sign(payload)));
  }

  /** Conversely, whatever passes carries a signature made with the secret over its own payload, and the
      claims that were checked are those of that payload. */
  lemma CheckedTicketIsSigned(v: Verifier, token: string, server: string, nowUnix: int) returns (payload: string, signature: string)
    requires Check(v, token, server, nowUnix).Ok?
    ensures token == payload + "." + signature && v.hasSecret
    ensures v.codec.decode(signature) == Some(v.codec.sign(payload))
    ensures v.codec.decode(payload).Some? && v.codec.parse(v.codec.decode(payload).value) == Some(Check(v, token, server, nowUnix).value)
    ensures var c := Check(v, token, server, nowUnix).value;
      nowUnix < c.exp && c.serverId == server && c.issuer == v.issuer && c.uid != "" && c.serverId != "" && c.nonce != "" && c.issuer != ""
  {
    var parts := Split(token);
    JoinSplit(token);
    assert parts[1..] == [parts[1]];
    payload, signature := parts[0], parts[1];
  }

  /** A refused ticket takes no nonce: an expired one, one for another server, a forged or replayed one. */
  lemma RefusalTakesNothing(v: Verifier, s: Store, c: Call)
    ensures Verify(v, s, c).answer.Err? ==> Verify(v, s, c).store == s
    ensures Verify(v, s, c).answer.Ok? <==>
      var checked := Check(v, c.token, c.server, c.nowUnix);
      checked.Ok? && !(checked.value.nonce in s.items && s.items[checked.value.nonce] > c.now)
    ensures Verify(v, s, c).answer in {Check(v, c.token, c.server, c.nowUnix), Err(Replay)}
    ensures Verify(v, s, c).answer == Err(Replay) ==> Check(v, c.token, c.server, c.nowUnix).Ok?
  {
    var checked := Check(v, c.token, c.server, c.nowUnix);
  }

  function Run(v: Verifier, calls: seq<Call>): Store {
    if calls == [] then EMPTY_STORE else Verify(v, Run(v, calls[..|calls| - 1]), calls[|calls| - 1]).store
  }

  function AnswerAt(v: Verifier, calls: seq<Call>, i: nat): Result<Claims, TicketError>
    requires i < |calls|
  {
    Verify(v, Run(v, calls[..i]), calls[i]).answer
  }

  /** The second a ticket is judged by is the whole second of the call's reading of the store's clock. */
  predicate WholeSecond(c: Call) { c.nowUnix * SECOND <= c.now < (c.nowUnix + 1) * SECOND }

  /** Until when a call that is accepted with these claims has the nonce remembered. */
  function Expiry(claims: Claims, c: Call): int { c.now + (claims.exp - c.nowUnix) * SECOND }

  /** The call is accepted and cleans up. */
  predicate Sweeps(v: Verifier, s: Store, c: Call) {
    var r := Verify(v, s, c).answer;
    r.Ok? && CleanupDue(Added(s, r.value.nonce, (r.value.exp - c.nowUnix) * SECOND, c.now), c.now)
  }

  /** Call `k` cleans up with a reading at or past `e`. */
  predicate SweptAt(v: Verifier, calls: seq<Call>, k: nat, e: int) {
    k < |calls| && Sweeps(v, Run(v, calls[..k]), calls[k]) && calls[k].now >= e
  }

  ghost predicate SweptBetween(v: Verifier, calls: seq<Call>, i: nat, j: nat, e: int) {
    exists k: nat :: i < k < j && SweptAt(v, calls, k, e)
  }

  lemma SweptNext(v: Verifier, calls: seq<Call>, i: nat, n: nat, e: int)
    requires i < n < |calls|
    ensures SweptBetween(v, calls, i, n + 1, e) <==> SweptBetween(v, calls, i, n, e) || SweptAt(v, calls, n, e)
  {
    if k: nat :| i < k < n && SweptAt(v, calls, k, e) { assert i < k < n + 1; }
    assert i < n < n + 1;
  }

  lemma RunNext(v: Verifier, calls: seq<Call>, n: nat)
    requires n < |calls|
    ensures Run(v, calls[..n + 1]) == Verify(v, Run(v, calls[..n]), calls[n]).store
  {
    assert calls[..n + 1][..n] == calls[..n];
  }

  /** Only a clean-up with a reading at or past an entry's expiry loses it; taking the nonce once more
      needs such a reading too, and then has it remembered for longer. */
  lemma VerifyKeepsEntry(v: Verifier, s: Store, c: Call, nonce: string, e: int)
    requires nonce in s.items && s.items[nonce] >= e
    ensures var items := Verify(v, s, c).store.items;
      (nonce in items && items[nonce] >= e) || (Sweeps(v, s, c) && c.now >= e)
  {
  }

  lemma AcceptEnters(v: Verifier, s: Store, c: Call)
    requires Verify(v, s, c).answer.Ok?
    ensures var claims, items := Verify(v, s, c).answer.value, Verify(v, s, c).store.items;
      claims.nonce in items && items[claims.nonce] == Expiry(claims, c) > c.now
  {
    assert Verify(v, s, c).answer.value.exp > c.nowUnix;
  }

  /** Before call `n` the nonce is remembered until `e` at least, or there was a clean-up past that. */
  ghost predicate Remembered(v: Verifier, calls: seq<Call>, i: nat, n: nat, nonce: string, e: int)
    requires n <= |calls|
  {
    var items := Run(v, calls[..n]).items;
    (nonce in items && items[nonce] >= e) || SweptBetween(v, calls, i, n, e)
  }

  lemma StillRemembered(v: Verifier, calls: seq<Call>, i: nat, n: nat, nonce: string, e: int)
    requires i < n < |calls| && Remembered(v, calls, i, n, nonce, e)
    ensures Remembered(v, calls, i, n + 1, nonce, e)
  {
    RunNext(v, calls, n);
    SweptNext(v, calls, i, n, e);
    if !SweptBetween(v, calls, i, n, e) { VerifyKeepsEntry(v, Run(v, calls[..n]), calls[n], nonce, e); }
  }

  lemma {:induction false} RunKeepsEntry(v: Verifier, calls: seq<Call>, i: nat, n: nat)
    requires i < n <= |calls| && AnswerAt(v, calls, i).Ok?
    ensures var c := AnswerAt(v, calls, i).value; Remembered(v, calls, i, n, c.nonce, Expiry(c, calls[i]))
    decreases n
  {
    var c := AnswerAt(v, calls, i).value;
    if n == i + 1 {
      RunNext(v, calls, i);
      AcceptEnters(v, Run(v, calls[..i]), calls[i]);
    } else {
      RunKeepsEntry(v, calls, i, n - 1);
      StillRemembered(v, calls, i, n - 1, c.nonce, Expiry(c, calls[i]));
    }
  }

  /** Two tickets with one nonce are both accepted only if the later call's reading is past the first
      entry's expiry, or a clean-up in between had such a reading. */
  lemma NonceReusedOnlyAfterExpiry(v: Verifier, calls: seq<Call>, i: nat, j: nat)
    requires i < j < |calls| && AnswerAt(v, calls, i).Ok? && AnswerAt(v, calls, j).Ok?
    requires AnswerAt(v, calls, i).value.nonce == AnswerAt(v, calls, j).value.nonce
    ensures var e := Expiry(AnswerAt(v, calls, i).value, calls[i]); calls[j].now >= e || SweptBetween(v, calls, i, j, e)
  {
    RunKeepsEntry(v, calls, i, j);
  }

  /** Judged by whole seconds, a call that still finds the ticket valid reads the store's clock before
      the first entry expires. */
  lemma ValidReadingIsEarly(c: Claims, first: Call, later: Call)
    requires WholeSecond(first) && WholeSecond(later) && later.nowUnix < c.exp
    ensures later.now < Expiry(c, first)
  {
    assert later.nowUnix + 1 <= c.exp;
  }

  /** Over every run, through nonce expiry and clean-up, a ticket is accepted at most once, unless a
      clean-up used a reading past its entry's expiry before a call with an earlier reading took the
      mutex. */
  lemma AcceptedAtMostOnce(v: Verifier, calls: seq<Call>, i: nat, j: nat)
    requires i < j < |calls| && AnswerAt(v, calls, i).Ok? && WholeSecond(calls[i]) && WholeSecond(calls[j])
    requires var e := Expiry(AnswerAt(v, calls, i).value, calls[i]); SweptBetween(v, calls, i, j, e) ==> calls[j].now >= e
    ensures AnswerAt(v, calls, j) != AnswerAt(v, calls, i)
  {
    if AnswerAt(v, calls, j) == AnswerAt(v, calls, i) {
      ValidReadingIsEarly(AnswerAt(v, calls, i).value, calls[i], calls[j]);
      NonceReusedOnlyAfterExpiry(v, calls, i, j);
    }
  }

  predicate CleansNotBefore(s: Store, until: int) { s.nextCleanup.Some? && s.nextCleanup.value >= until }

  lemma NextCleanupStays(v: Verifier, s: Store, c: Call, until: int)
    requires CleansNotBefore(s, until)
    ensures CleansNotBefore(Verify(v, s, c).store, until)
  {
  }

  lemma SweepSetsNext(v: Verifier, s: Store, c: Call)
    requires Sweeps(v, s, c)
    ensures Verify(v, s, c).store.nextCleanup == Some(c.now + CLEANUP_INTERVAL)
  {
  }

  lemma {:induction false} RunNextCleanup(v: Verifier, calls: seq<Call>, i: nat, n: nat)
    requires i < n <= |calls| && Sweeps(v, Run(v, calls[..i]), calls[i])
    ensures CleansNotBefore(Run(v, calls[..n]), calls[i].now + CLEANUP_INTERVAL)
    decreases n
  {
    RunNext(v, calls, n - 1);
    if n == i + 1 {
      SweepSetsNext(v, Run(v, calls[..i]), calls[i]);
    } else {
      RunNextCleanup(v, calls, i, n - 1);
      NextCleanupStays(v, Run(v, calls[..n - 1]), calls[n - 1], calls[i].now + CLEANUP_INTERVAL);
    }
  }

  /** Between any two clean-ups lies a whole interval, by their own readings. */
  lemma CleanupsAreSpaced(v: Verifier, calls: seq<Call>, i: nat, j: nat)
    requires i < j < |calls| && Sweeps(v, Run(v, calls[..i]), calls[i]) && Sweeps(v, Run(v, calls[..j]), calls[j])
    ensures calls[j].now >= calls[i].now + CLEANUP_INTERVAL
  {
    RunNextCleanup(v, calls, i, j);
  }

  ghost predicate InOrder(calls: seq<Call>) { forall i, j :: 0 <= i < j < |calls| ==> calls[i].now <= calls[j].now }

  /** That cannot happen when the readings come in the order in which the mutex is taken. */
  lemma AcceptedAtMostOnceInOrder(v: Verifier, calls: seq<Call>, i: nat, j: nat)
    requires i < j < |calls| && InOrder(calls) && AnswerAt(v, calls, i).Ok? && WholeSecond(calls[i]) && WholeSecond(calls[j])
    ensures AnswerAt(v, calls, j) != AnswerAt(v, calls, i)
  {
    AcceptedAtMostOnce(v, calls, i, j);
  }

  /** No call strictly between takes the nonce. */
  ghost predicate Untaken(v: Verifier, calls: seq<Call>, i: nat, n: nat, nonce: string)
    requires n <= |calls|
  {
    forall k: nat :: i < k < n && AnswerAt(v, calls, k).Ok? ==> AnswerAt(v, calls, k).value.nonce != nonce
  }

  lemma VerifyMovesEntry(v: Verifier, s: Store, c: Call, nonce: string)
    requires Verify(v, s, c).answer.Ok? ==> Verify(v, s, c).answer.value.nonce != nonce
    ensures var items := Verify(v, s, c).store.items;
      if nonce !in s.items || (Sweeps(v, s, c) && c.now >= s.items[nonce]) then nonce !in items
      else nonce in items && items[nonce] == s.items[nonce]
  {
  }

  /** Before call `n` the entry is gone if there was a clean-up past its expiry, else it is as it was made. */
  ghost predicate EntryAt(v: Verifier, calls: seq<Call>, i: nat, n: nat, nonce: string, e: int)
    requires n <= |calls|
  {
    var items := Run(v, calls[..n]).items;
    if SweptBetween(v, calls, i, n, e) then nonce !in items else nonce in items && items[nonce] == e
  }

  lemma EntryMoves(v: Verifier, calls: seq<Call>, i: nat, n: nat, nonce: string, e: int)
    requires i < n < |calls| && EntryAt(v, calls, i, n, nonce, e)
    requires AnswerAt(v, calls, n).Ok? ==> AnswerAt(v, calls, n).value.nonce != nonce
    ensures EntryAt(v, calls, i, n + 1, nonce, e)
  {
    RunNext(v, calls, n);
    SweptNext(v, calls, i, n, e);
    VerifyMovesEntry(v, Run(v, calls[..n]), calls[n], nonce);
  }

  /** Until the nonce is taken again, its entry stays as it was until a clean-up past its expiry. */
  lemma {:induction false} RunTracksEntry(v: Verifier, calls: seq<Call>, i: nat, n: nat)
    requires i < n <= |calls| && AnswerAt(v, calls, i).Ok? && Untaken(v, calls, i, n, AnswerAt(v, calls, i).value.nonce)
    ensures var c := AnswerAt(v, calls, i).value; EntryAt(v, calls, i, n, c.nonce, Expiry(c, calls[i]))
    decreases n
  {
    var c := AnswerAt(v, calls, i).value;
    if n == i + 1 {
      RunNext(v, calls, i);
      AcceptEnters(v, Run(v, calls[..i]), calls[i]);
    } else {
      RunTracksEntry(v, calls, i, n - 1);
      EntryMoves(v, calls, i, n - 1, c.nonce, Expiry(c, calls[i]));
    }
  }

  /** Whatever the clocks: the next use of an accepted ticket is accepted too exactly when its second was
      read before the ticket expired, and either its reading is past the entry's expiry or a clean-up in
      between had such a reading. */
  lemma SecondUseIff(v: Verifier, calls: seq<Call>, i: nat, j: nat)
    requires i < j < |calls| && AnswerAt(v, calls, i).Ok?
    requires calls[j].token == calls[i].token && calls[j].server == calls[i].server
    requires Untaken(v, calls, i, j, AnswerAt(v, calls, i).value.nonce)
    ensures var c := AnswerAt(v, calls, i).value;
      var e := Expiry(c, calls[i]);
      AnswerAt(v, calls, j) == Ok(c) <==> calls[j].nowUnix < c.exp && (calls[j].now >= e || SweptBetween(v, calls, i, j, e))
  {
    RunTracksEntry(v, calls, i, j);
  }

  /** Such a second use is presented after such a clean-up. */
  lemma AcceptedAgainNeeds(v: Verifier, calls: seq<Call>, i: nat, j: nat, c: Claims)
    requires i < j < |calls| && AnswerAt(v, calls, i) == Ok(c) == AnswerAt(v, calls, j)
    requires WholeSecond(calls[i]) && WholeSecond(calls[j])
    ensures Presents(v, calls[j], c) && SweptBetween(v, calls, i, j, Expiry(c, calls[i]))
  {
    NonceReusedOnlyAfterExpiry(v, calls, i, j);
    ValidReadingIsEarly(c, calls[i], calls[j]);
  }

  /** And after such a clean-up a valid presentation finds no entry, unless the ticket was taken before. */
  lemma SweptIsAccepted(v: Verifier, calls: seq<Call>, i: nat, j: nat, c: Claims)
    requires i < j < |calls| && AnswerAt(v, calls, i) == Ok(c) && Untaken(v, calls, i, j, c.nonce)
    ensures Presents(v, calls[j], c) && SweptBetween(v, calls, i, j, Expiry(c, calls[i])) ==> AnswerAt(v, calls, j) == Ok(c)
  {
    RunTracksEntry(v, calls, i, j);
  }

  /** Over a whole run judged by whole seconds, in which a nonce names one ticket, an accepted ticket is
      accepted once more exactly when it is presented, still valid, after a clean-up with a reading past
      its entry's expiry. */
  lemma AcceptedAgainIff(v: Verifier, calls: seq<Call>, i: nat, c: Claims)
    requires i < |calls| && AnswerAt(v, calls, i) == Ok(c)
    requires forall m: nat :: m < |calls| ==> WholeSecond(calls[m])
    requires forall m: nat :: m < |calls| && AnswerAt(v, calls, m).Ok? && AnswerAt(v, calls, m).value.nonce == c.nonce ==> AnswerAt(v, calls, m) == Ok(c)
    ensures (exists j: nat :: i < j < |calls| && AnswerAt(v, calls, j) == Ok(c)) <==>
      exists j: nat :: i < j < |calls| && Presents(v, calls[j], c) && SweptBetween(v, calls, i, j, Expiry(c, calls[i]))
  {
    if j: nat :| i < j < |calls| && AnswerAt(v, calls, j) == Ok(c) { AcceptedAgainNeeds(v, calls, i, j, c); }
    if j: nat :| i < j < |calls| && Presents(v, calls[j], c) && SweptBetween(v, calls, i, j, Expiry(c, calls[i])) {
      if Untaken(v, calls, i, j, c.nonce) { SweptIsAccepted(v, calls, i, j, c); }
    }
  }

  predicate Presents(v: Verifier, call: Call, c: Claims) { Check(v, call.token, call.server, call.nowUnix) == Ok(c) }

  /** One way in: the second call stalls between its two clock readings. */
  lemma StalledCallIsAcceptedAgain(v: Verifier, token: string, server: string) returns (calls: seq<Call>)
    requires Check(v, token, server, 9).Ok? && Check(v, token, server, 9).value.exp == 10
    ensures |calls| == 2 && calls[0].token == calls[1].token == token
    ensures InOrder(calls) && calls[0].nowUnix * SECOND <= calls[0].now && calls[1].nowUnix * SECOND <= calls[1].now
    ensures AnswerAt(v, calls, 0).Ok? && AnswerAt(v, calls, 1) == AnswerAt(v, calls, 0)
  {
    var first, second := Call(token, server, 9, 9 * SECOND), Call(token, server, 9, 10 * SECOND);
    calls := [first, second];
    assert calls[..0] == [];
    SecondUseIff(v, calls, 0, 1);
  }

  // ---- The other way in, with every call judged by the whole second of its reading ----

  function Letters(n: nat): string { seq(n, i => 'a') }

  /** A codec whose tickets are named by their nonce; the ticket with the shortest expires first. */
  const PLAIN := Codec(
    s => s, s => Some(s), s => s, (c: Claims) => c.nonce,
    s => if s == "" then None else Some(Claims("u", "A", if |s| == 1 then 10 else 100, s, "login")))

  const PLAIN_VERIFIER := Verifier(PLAIN, true, "login")

  function PlainToken(n: nat): string { Letters(n) + "." + Letters(n) }

  lemma PlainTokenChecks(n: nat, nowUnix: int)
    requires n > 0 && nowUnix < (if n == 1 then 10 else 100)
    ensures Check(PLAIN_VERIFIER, PlainToken(n), "A", nowUnix) == Ok(Claims("u", "A", if n == 1 then 10 else 100, Letters(n), "login"))
  {
    SplitJoin(Letters(n), Letters(n));
    SplitOne(Letters(n));
  }

  /** The short ticket in second 5, then `n - 1` others in second 10. */
  function Crowd(n: nat): seq<Call> {
    seq(n, i requires 0 <= i < n => if i == 0 then Call(PlainToken(1), "A", 5, 5 * SECOND) else Call(PlainToken(i + 1), "A", 10, 10 * SECOND))
  }

  /** The first `n` tickets have been accepted, and nothing was cleaned away. */
  ghost predicate Crowded(s: Store, n: nat) {
    && |s.items| == n && s.nextCleanup.None? && (forall k :: k in s.items ==> |k| <= n)
    && Letters(1) in s.items && s.items[Letters(1)] == 10 * SECOND
  }

  lemma FirstOfTheCrowd()
    ensures Crowded(Verify(PLAIN_VERIFIER, EMPTY_STORE, Call(PlainToken(1), "A", 5, 5 * SECOND)).store, 1)
  {
    PlainTokenChecks(1, 5);
    assert |Letters(1)| == 1;
  }

  lemma NextOfTheCrowd(s: Store, n: nat)
    requires 1 < n < CLEANUP_THRESHOLD && Crowded(s, n - 1)
    ensures Crowded(Verify(PLAIN_VERIFIER, s, Call(PlainToken(n), "A", 10, 10 * SECOND)).store, n)
  {
    PlainTokenChecks(n, 10);
    assert |Letters(n)| == n && |Letters(1)| == 1;
    assert Letters(n) !in s.items;
  }

  lemma CrowdRuns(n: nat)
    requires n > 0
    ensures Run(PLAIN_VERIFIER, Crowd(n)) == Verify(PLAIN_VERIFIER, Run(PLAIN_VERIFIER, Crowd(n - 1)), Crowd(n)[n - 1]).store
  {
    assert Crowd(n)[..n - 1] == Crowd(n - 1);
  }

  lemma CrowdBegins()
    ensures Crowded(Run(PLAIN_VERIFIER, Crowd(1)), 1)
  {
    CrowdRuns(1);
    FirstOfTheCrowd();
  }

  lemma CrowdGoesOn(n: nat)
    requires 1 < n < CLEANUP_THRESHOLD && Crowded(Run(PLAIN_VERIFIER, Crowd(n - 1)), n - 1)
    ensures Crowded(Run(PLAIN_VERIFIER, Crowd(n)), n)
  {
    CrowdRuns(n);
    NextOfTheCrowd(Run(PLAIN_VERIFIER, Crowd(n - 1)), n);
  }

  lemma {:induction false} CrowdFills(n: nat)
    requires 0 < n < CLEANUP_THRESHOLD
    ensures Crowded(Run(PLAIN_VERIFIER, Crowd(n)), n)
  {
    if n == 1 {
      CrowdBegins();
    } else {
      CrowdFills(n - 1);
      CrowdGoesOn(n);
    }
  }

  /** The call that reaches the threshold cleans the expired entry away. */
  lemma CrowdSweeps()
    ensures Letters(1) !in Run(PLAIN_VERIFIER, Crowd(CLEANUP_THRESHOLD)).items
  {
    var n := CLEANUP_THRESHOLD;
    CrowdFills(n - 1);
    CrowdRuns(n);
    PlainTokenChecks(n, 10);
    assert |Letters(n)| == n && |Letters(1)| == 1;
    assert Letters(n) !in Run(PLAIN_VERIFIER, Crowd(n - 1)).items;
  }

  /** A call reads the clock in second 9 and waits for the mutex; before it gets it, the clean-up in
      second 10 drops the ticket's nonce. So the ticket is accepted a second time. */
  lemma LateCallIsAcceptedAgain() returns (calls: seq<Call>)
    ensures forall k :: 0 <= k < |calls| ==> WholeSecond(calls[k])
    ensures |calls| == CLEANUP_THRESHOLD + 1 && calls[CLEANUP_THRESHOLD].token == calls[0].token
    ensures AnswerAt(PLAIN_VERIFIER, calls, 0).Ok? && AnswerAt(PLAIN_VERIFIER, calls, CLEANUP_THRESHOLD) == AnswerAt(PLAIN_VERIFIER, calls, 0)
  {
    var late := Call(PlainToken(1), "A", 9, 9 * SECOND);
    calls := Crowd(CLEANUP_THRESHOLD) + [late];
    assert calls[..CLEANUP_THRESHOLD] == Crowd(CLEANUP_THRESHOLD) && calls[..0] == [];
    CrowdSweeps();
    PlainTokenChecks(1, 5);
    PlainTokenChecks(1, 9);
  }

  class MemoryNonceStore {
    var items: map<string, int>
    var nextCleanup: Option<int>

    function State(): Store
      reads this
    {
      Store(items, nextCleanup)
    }

    constructor ()
      ensures State() == EMPTY_STORE
    {
      items, nextCleanup := map[], None;
    }

    method DropExpired(now: int)
      modifies `items
      ensures items == map k | k in old(items) && old(items)[k] > now :: old(items)[k]
    {
      var rest := items.Keys;
      while rest != {}
        modifies `items
        invariant rest <= items.Keys
        invariant forall k :: k in items <==> k in old(items) && (k in rest || old(items)[k] > now)
        invariant forall k :: k in items ==> items[k] == old(items)[k]
        decreases |rest|
      {
        assert (forall k :: k !in rest) ==> rest == {};
        var key :| key in rest;
        if items[key] <= now { items := items - {key}; }
        rest := rest - {key};
      }
    }

    method ConsumeOnce(nonce: string, ttl: int, now: int) returns (ok: bool)
      modifies this
      ensures match Consume(old(State()), nonce, ttl, now)
        case None => !ok && State() == old(State())
        case Some(s) => ok && State() == s
    {
      if nonce in items {
        if items[nonce] > now { return false; }
        items := items - {nonce};
      }
      items := items[nonce := now + ttl];
      assert items == old(items)[nonce := now + ttl];
      if |items| >= CLEANUP_THRESHOLD && (nextCleanup.None? || now >= nextCleanup.value) {
        DropExpired(now);
        nextCleanup := Some(now + CLEANUP_INTERVAL);
      }
      return true;
    }
  }

  method VerifyTicket(v: Verifier, store: MemoryNonceStore, c: Call) returns (answer: Result<Claims, TicketError>)
    modifies store
    ensures Verdict(store.State(), answer) == Verify(v, old(store.State()), c)
  {
    var parts := Split(c.token);
    if |parts| != 2 || !v.hasSecret || v.issuer == "" { return Err(InvalidTicket); }
    var signature := v.codec.decode(parts[1]);
    if signature.None? || signature.value != v.codec.sign(parts[0]) { return Err(InvalidTicket); }
    var payload := v.codec.decode(parts[0]);
    if payload.None? { return Err(InvalidTicket); }
    var parsed := v.codec.parse(payload.value);
    if parsed.None? { return Err(InvalidTicket); }
    var claims := parsed.value;
    if claims.uid == "" || claims.serverId == "" || claims.nonce == "" || claims.issuer != v.issuer { return Err(InvalidTicket); }
    if claims.exp <= c.nowUnix { return Err(ExpiredTicket); }
    if claims.serverId != c.server { return Err(InvalidTicket); }
    var ok := store.ConsumeOnce(claims.nonce, (claims.exp - c.nowUnix) * SECOND, c.now);
    if !ok { return Err(Replay); }
    return Ok(claims);
  }
}
