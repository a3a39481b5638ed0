/** Concrete runs of `Ownership`: a reconciler pass that read too early, an older login that claims after
    the newer one, and a claim whose reply is lost. */
module OwnershipRuns {
  import opened Common
  import opened OwnerStore
  import opened Ownership
  import opened OwnershipContinuity
  import opened OwnershipClaims

  const TTLS := Config(100, 50)

  lemma ExtendRun(cfg: Config, run: seq<State>, labels: seq<Label>, l: Label)
    requires IsRun(cfg, run, labels) && Enabled(cfg, run[|labels|], l)
    ensures IsRun(cfg, run + [Apply(cfg, run[|labels|], l)], labels + [l])
  {
  }

  lemma ExtendTwice(cfg: Config, run: seq<State>, labels: seq<Label>, a: Label, b: Label)
    requires IsRun(cfg, run, labels) && Enabled(cfg, run[|labels|], a) && Enabled(cfg, Apply(cfg, run[|labels|], a), b)
    ensures var s := Apply(cfg, run[|labels|], a); IsRun(cfg, run + [s, Apply(cfg, s, b)], labels + [a, b])
  {
    var s := Apply(cfg, run[|labels|], a);
    ExtendRun(cfg, run, labels, a);
    ExtendRun(cfg, run + [s], labels + [a], b);
    assert run + [s] + [Apply(cfg, s, b)] == run + [s, Apply(cfg, s, b)] && labels + [a] + [b] == labels + [a, b];
  }

  // ---- A pass that read too early ----

  /** Player "u" authenticates on A but claims on B first. */
  lemma TwoLogins() returns (run: seq<State>, labels: seq<Label>)
    ensures IsRun(TTLS, run, labels) && |labels| == 3
    ensures var s := run[3];
      && s.now == 0 && "u" in s.owners && s.owners["u"] == Owner("B", "2", 100) && s.closed == {}
      && "1" in s.conns && s.conns["1"] == Connection("A", "u", Authenticating(None))
      && At(s, "A").sessions == map["u" := "1"] && At(s, "A").pass == NoPass
  {
    var s1 := Apply(TTLS, INIT, Bind("A", "u", "1"));
    var s2 := Apply(TTLS, s1, Bind("B", "u", "2"));
    var s3 := Apply(TTLS, s2, Claim("2"));
    ExtendRun(TTLS, [INIT], [], Bind("A", "u", "1"));
    ExtendRun(TTLS, [INIT] + [s1], [] + [Bind("A", "u", "1")], Bind("B", "u", "2"));
    ExtendRun(TTLS, [INIT] + [s1] + [s2], [] + [Bind("A", "u", "1")] + [Bind("B", "u", "2")], Claim("2"));
    run, labels := [INIT] + [s1] + [s2] + [s3], [] + [Bind("A", "u", "1")] + [Bind("B", "u", "2")] + [Claim("2")];
  }

  /** So `OwnershipClaims.ClaimAfterFetchIsClosed` applies: A's pass reads B before the connection on A claims. */
  lemma StaleFetchIsReachable() returns (run: seq<State>, labels: seq<Label>)
    ensures IsRun(TTLS, run, labels) && |labels| == 5
    ensures var s := run[5];
      && "1" in s.conns && s.conns["1"] == Connection("A", "u", Authenticating(None)) && HasSession(s, "1") && "1" !in s.closed
      && Home(s, "1").pass.Fetched? && "u" in Home(s, "1").pass.uids
      && Judge("A", Home(s, "1").pass.active, Home(s, "1").pass.snapshot, "u") == Remove
  {
    run, labels := TwoLogins();
    FetchReadsB(run[3]);
    var s4 := Apply(TTLS, run[3], List("A"));
    var s5 := Apply(TTLS, s4, Fetch("A"));
    ExtendTwice(TTLS, run, labels, List("A"), Fetch("A"));
    run, labels := run + [s4, s5], labels + [List("A"), Fetch("A")];
  }

  lemma FetchReadsB(s: State)
    requires s.now == 0 && "u" in s.owners && s.owners["u"] == Owner("B", "2", 100) && s.closed == {}
    requires "1" in s.conns && s.conns["1"] == Connection("A", "u", Authenticating(None))
    requires At(s, "A").sessions == map["u" := "1"] && At(s, "A").pass == NoPass
    ensures Enabled(TTLS, Apply(TTLS, s, List("A")), Fetch("A"))
    ensures var t := Apply(TTLS, Apply(TTLS, s, List("A")), Fetch("A"));
      && "1" in t.conns && t.conns["1"] == Connection("A", "u", Authenticating(None)) && HasSession(t, "1") && "1" !in t.closed
      && Home(t, "1").pass.Fetched? && "u" in Home(t, "1").pass.uids
      && Judge("A", Home(t, "1").pass.active, Home(t, "1").pass.snapshot, "u") == Remove
  {
    var listed := Apply(TTLS, s, List("A"));
    assert "u" in At(s, "A").sessions.Keys && At(listed, "A").sessions == At(s, "A").sessions;
    assert At(listed, "A").pass.Listed? && "u" in At(listed, "A").pass.active;
    assert listed.owners == s.owners && listed.now == 0 && listed.conns == s.conns && listed.closed == {};
    assert OwnerOf(listed, "u") == Some(Owner("B", "2", 100));
    assert "u" in At(listed, "A").pass.uids;
  }

  // ---- An older login claims after the newer one ----

  ghost predicate BothBound(s: State, newer: Stage, clients: map<Conn, Uid>) {
    && s.now == 0 && s.closed == {} && "u" in s.owners && s.owners["u"] == Owner("A", "2", 100)
    && "1" in s.conns && s.conns["1"] == Connection("A", "u", Authenticating(None))
    && "2" in s.conns && s.conns["2"] == Connection("A", "u", newer)
    && At(s, "A").sessions == map["u" := "2"] && At(s, "A").clients == clients
  }

  lemma NewerClaimsFirst() returns (run: seq<State>, labels: seq<Label>)
    ensures IsRun(TTLS, run, labels) && |labels| == 3 && BothBound(run[3], Owning(Some("1")), map[])
  {
    var s1 := Apply(TTLS, INIT, Bind("A", "u", "1"));
    var s2 := Apply(TTLS, s1, Bind("A", "u", "2"));
    var s3 := Apply(TTLS, s2, Claim("2"));
    ExtendTwice(TTLS, [INIT], [], Bind("A", "u", "1"), Bind("A", "u", "2"));
    ExtendRun(TTLS, [INIT] + [s1, s2], [] + [Bind("A", "u", "1"), Bind("A", "u", "2")], Claim("2"));
    run, labels := [INIT] + [s1, s2] + [s3], [] + [Bind("A", "u", "1"), Bind("A", "u", "2")] + [Claim("2")];
  }

  lemma NewerServes(s: State)
    requires BothBound(s, Owning(Some("1")), map[])
    ensures Enabled(TTLS, s, Register("2")) && Enabled(TTLS, Apply(TTLS, s, Register("2")), KickPrior("2"))
    ensures BothBound(Apply(TTLS, Apply(TTLS, s, Register("2")), KickPrior("2")), Serving, map["2" := "u"])
  {
    assert BothBound(Apply(TTLS, s, Register("2")), Registered(Some("1")), map["2" := "u"]);
  }

  /** Both connections serve and are open; the session is the newer one's, the record the older one's. */
  predicate SplitBrain(s: State) {
    && "1" in s.conns && s.conns["1"] == Connection("A", "u", Serving) && "1" !in s.closed
    && "2" in s.conns && s.conns["2"] == Connection("A", "u", Serving) && "2" !in s.closed
    && HasSession(s, "2") && Holds(s, "1")
  }

  lemma OlderClaims(s: State)
    requires BothBound(s, Serving, map["2" := "u"])
    ensures Current(s, "2") && Rival(s, "1", "2") && Enabled(TTLS, s, Claim("1"))
    ensures var t := Apply(TTLS, s, Claim("1"));
      && "1" in t.conns && t.conns["1"] == Connection("A", "u", Owning(None)) && "2" in t.conns && t.conns["2"] == Connection("A", "u", Serving)
      && t.closed == {} && HasSession(t, "2") && Holds(t, "1")
  {
  }

  lemma OlderServes(t: State)
    requires "1" in t.conns && t.conns["1"] == Connection("A", "u", Owning(None)) && "2" in t.conns && t.conns["2"] == Connection("A", "u", Serving)
    requires t.closed == {} && HasSession(t, "2") && Holds(t, "1")
    ensures Enabled(TTLS, t, Register("1")) && Enabled(TTLS, Apply(TTLS, t, Register("1")), KickPrior("1"))
    ensures SplitBrain(Apply(TTLS, Apply(TTLS, t, Register("1")), KickPrior("1")))
  {
  }

  /** A player logs in twice on one server, and the older login reaches its claim only when the newer one
      is serving. The record then names the older connection for good: the newer one, although it is the
      one that is bound, cannot even re-date it when it leaves. */
  lemma OlderLoginTakesTheRecord() returns (run: seq<State>, labels: seq<Label>)
    ensures IsRun(TTLS, run, labels) && |labels| == 8
    ensures Current(run[5], "2") && Rival(run[5], "1", "2") && labels[5] == Claim("1")
    ensures SplitBrain(run[8])
    ensures forall ttl :: MarkedOffline(run[8].owners, run[8].now, "u", "A", "2", ttl) == run[8].owners
  {
    run, labels := NewerClaimsFirst();
    NewerServes(run[3]);
    var s4 := Apply(TTLS, run[3], Register("2"));
    var s5 := Apply(TTLS, s4, KickPrior("2"));
    ExtendTwice(TTLS, run, labels, Register("2"), KickPrior("2"));
    run, labels := run + [s4, s5], labels + [Register("2"), KickPrior("2")];
    OlderClaims(s5);
    var s6 := Apply(TTLS, s5, Claim("1"));
    ExtendRun(TTLS, run, labels, Claim("1"));
    run, labels := run + [s6], labels + [Claim("1")];
    OlderServes(s6);
    var s7 := Apply(TTLS, s6, Register("1"));
    ExtendTwice(TTLS, run, labels, Register("1"), KickPrior("1"));
    run, labels := run + [s7, Apply(TTLS, s7, KickPrior("1"))], labels + [Register("1"), KickPrior("1")];
  }

  // ---- A claim whose reply is lost ----

  /** The record, and what server A kept for the player at its step 4. */
  ghost predicate KeptAt(s: State, server: Node, conn: Conn) {
    && s.now == 0 && "u" in s.owners && s.owners["u"] == Owner(server, conn, 100) && At(s, "A").runtimes == map["u" := 4]
  }

  ghost predicate Authenticates(s: State, c: Conn, n: Node) {
    c in s.conns && s.conns[c].node == n && s.conns[c].uid == "u" && s.conns[c].stage.Authenticating?
  }

  lemma BindsAgain(s: State, server: Node, conn: Conn, n: Node, c: Conn)
    requires KeptAt(s, server, conn) && c !in s.conns && c != ""
    ensures Enabled(TTLS, s, Bind(n, "u", c))
    ensures var t := Apply(TTLS, s, Bind(n, "u", c));
      KeptAt(t, server, conn) && Authenticates(t, c, n) && t.conns.Keys == s.conns.Keys + {c} && t.step == s.step + 1
  {
  }

  lemma BoundOnA() returns (run: seq<State>, labels: seq<Label>)
    ensures IsRun(TTLS, run, labels) && |labels| == 2
    ensures var s := run[2];
      && s.now == 0 && s.step == 2 && s.owners == map["u" := Owner("A", "1", 100)] && s.conns == map["1" := Connection("A", "u", Owning(None))]
      && At(s, "A").runtimes == map[]
  {
    var s1 := Apply(TTLS, INIT, Bind("A", "u", "1"));
    assert s1.conns == map["1" := Connection("A", "u", Authenticating(None))] && At(s1, "A").runtimes == map[];
    ExtendTwice(TTLS, [INIT], [], Bind("A", "u", "1"), Claim("1"));
    run, labels := [INIT] + [s1, Apply(TTLS, s1, Claim("1"))], [] + [Bind("A", "u", "1"), Claim("1")];
  }

  lemma ServesOnA(s: State)
    requires s.now == 0 && s.step == 2 && s.owners == map["u" := Owner("A", "1", 100)] && s.conns == map["1" := Connection("A", "u", Owning(None))]
    requires At(s, "A").runtimes == map[]
    ensures Enabled(TTLS, s, Register("1")) && Enabled(TTLS, Apply(TTLS, s, Register("1")), KickPrior("1"))
    ensures var t := Apply(TTLS, Apply(TTLS, s, Register("1")), KickPrior("1"));
      && Enabled(TTLS, t, StartLevel("1")) && KeptAt(Apply(TTLS, t, StartLevel("1")), "A", "1")
      && Apply(TTLS, t, StartLevel("1")).conns.Keys == {"1"}
  {
    var r := Apply(TTLS, s, Register("1"));
    assert r.conns == map["1" := Connection("A", "u", Registered(None))] && r.owners == s.owners && At(r, "A").runtimes == map[];
    var t := Apply(TTLS, r, KickPrior("1"));
    assert t.conns == map["1" := Connection("A", "u", Serving)] && t.owners == s.owners && t.step == 4 && At(t, "A").runtimes == map[];
  }

  lemma PlaysOnA() returns (run: seq<State>, labels: seq<Label>)
    ensures IsRun(TTLS, run, labels) && |labels| == 5
    ensures KeptAt(run[5], "A", "1") && run[5].conns.Keys == {"1"}
  {
    run, labels := BoundOnA();
    ServesOnA(run[2]);
    var s3 := Apply(TTLS, run[2], Register("1"));
    var s4 := Apply(TTLS, s3, KickPrior("1"));
    ExtendTwice(TTLS, run, labels, Register("1"), KickPrior("1"));
    run, labels := run + [s3, s4], labels + [Register("1"), KickPrior("1")];
    ExtendRun(TTLS, run, labels, StartLevel("1"));
    run, labels := run + [Apply(TTLS, s4, StartLevel("1"))], labels + [StartLevel("1")];
  }

  lemma ClaimsOnB(s: State)
    requires KeptAt(s, "A", "1") && Authenticates(s, "2", "B")
    ensures KeptAt(Apply(TTLS, s, Claim("2")), "B", "2") && Apply(TTLS, s, Claim("2")).conns.Keys == s.conns.Keys
  {
  }

  lemma MovesToB() returns (run: seq<State>, labels: seq<Label>)
    ensures IsRun(TTLS, run, labels) && |labels| == 7
    ensures KeptAt(run[7], "B", "2") && run[7].conns.Keys == {"1", "2"}
  {
    run, labels := PlaysOnA();
    BindsAgain(run[5], "A", "1", "B", "2");
    var s6 := Apply(TTLS, run[5], Bind("B", "u", "2"));
    ClaimsOnB(s6);
    ExtendTwice(TTLS, run, labels, Bind("B", "u", "2"), Claim("2"));
    run, labels := run + [s6, Apply(TTLS, s6, Claim("2"))], labels + [Bind("B", "u", "2"), Claim("2")];
  }

  lemma LosesReplyOnA(s: State)
    requires KeptAt(s, "B", "2") && Authenticates(s, "3", "A")
    ensures Enabled(TTLS, s, ClaimFails("3", true)) && TakesSilently(s, ClaimFails("3", true), "A", "u")
    ensures var t := Apply(TTLS, s, ClaimFails("3", true)); KeptAt(t, "A", "3") && t.conns.Keys == s.conns.Keys
  {
  }

  lemma LosesReply() returns (run: seq<State>, labels: seq<Label>)
    ensures IsRun(TTLS, run, labels) && |labels| == 9 && TakesSilently(run[8], labels[8], "A", "u")
    ensures KeptAt(run[9], "A", "3") && run[9].conns.Keys == {"1", "2", "3"}
  {
    run, labels := MovesToB();
    BindsAgain(run[7], "B", "2", "A", "3");
    var s8 := Apply(TTLS, run[7], Bind("A", "u", "3"));
    LosesReplyOnA(s8);
    ExtendTwice(TTLS, run, labels, Bind("A", "u", "3"), ClaimFails("3", true));
    run, labels := run + [s8, Apply(TTLS, s8, ClaimFails("3", true))], labels + [Bind("A", "u", "3"), ClaimFails("3", true)];
  }

  lemma ComesBack(s: State)
    requires KeptAt(s, "A", "3") && Authenticates(s, "4", "A")
    ensures Enabled(TTLS, s, Claim("4")) && At(Apply(TTLS, s, Claim("4")), "A").runtimes == map["u" := 4]
  {
  }

  /** A player leaves a level on A, plays on B, and comes back to A, where the first claim runs but its
      reply is lost. The next login finds A as the previous owner and keeps the level from before B. */
  lemma LostReplyRevivesOldState() returns (run: seq<State>, labels: seq<Label>)
    ensures |labels| == 11 && Survives(TTLS, run, labels, 10, 4)
    ensures TakenSilently(run, labels, 10, 4) && !OwnedThroughout(run, labels, 10, 4)
  {
    run, labels := LosesReply();
    BindsAgain(run[9], "A", "3", "A", "4");
    var s8, s10 := run[8], Apply(TTLS, run[9], Bind("A", "u", "4"));
    ComesBack(s10);
    ExtendTwice(TTLS, run, labels, Bind("A", "u", "4"), Claim("4"));
    run, labels := run + [s10, Apply(TTLS, s10, Claim("4"))], labels + [Bind("A", "u", "4"), Claim("4")];
    assert run[8] == s8 && run[10] == s10;
    assert TakesSilently(run[8], labels[8], "A", "u");
    SurvivorWasAlwaysOwned(TTLS, run, labels, 10, 4);
  }
}
