/** What the engine broadcasts of an actor's life, for every panic oracle, and exactly when handlers do not panic. */
module SupervisionEvents {
  import opened Wrappers
  import opened Supervision

  /** How many of the events satisfy p. */
  function Count(events: seq<Announcement>, p: Event -> bool): nat {
    if events == [] then 0 else Count(events[..|events| - 1], p) + if p(events[|events| - 1].event) then 1 else 0
  }

  lemma CountEmit(s: State, e: Event, p: Event -> bool)
    ensures Count(Emit(s, e).events, p) == Count(s.events, p) + if p(e) then 1 else 0
  {
    assert Emit(s, e).events[..|s.events|] == s.events;
  }

  const IsInitialized: Event -> bool := (e: Event) => e.ActorInitialized?
  const IsStarted: Event -> bool := (e: Event) => e.ActorStarted?
  const IsRestarted: Event -> bool := (e: Event) => e.ActorRestarted?
  const IsStopped: Event -> bool := (e: Event) => e.ActorStopped?

  /** Each Producer call since s was announced: initialized, started and, but for `first` of them, restarted. */
  predicate Announced(s: State, s': State, first: nat) {
    && Count(s'.events, IsInitialized) - Count(s.events, IsInitialized) == s'.receiver - s.receiver
    && Count(s'.events, IsStarted) - Count(s.events, IsStarted) == s'.receiver - s.receiver
    && Count(s'.events, IsRestarted) - Count(s.events, IsRestarted) == s'.receiver - s.receiver - first
    && Count(s'.events, IsStopped) - Count(s.events, IsStopped) == Open(s) - Open(s')
  }

  lemma EmitCounts(s: State, e: Event)
    ensures var es, es' := s.events, Emit(s, e).events;
            && Count(es', IsInitialized) == Count(es, IsInitialized) + (if e.ActorInitialized? then 1 else 0)
            && Count(es', IsStarted) == Count(es, IsStarted) + (if e.ActorStarted? then 1 else 0)
            && Count(es', IsRestarted) == Count(es, IsRestarted) + (if e.ActorRestarted? then 1 else 0)
            && Count(es', IsStopped) == Count(es, IsStopped) + (if e.ActorStopped? then 1 else 0)
  {
    CountEmit(s, e, IsInitialized);
    CountEmit(s, e, IsStarted);
    CountEmit(s, e, IsRestarted);
    CountEmit(s, e, IsStopped);
  }

  lemma {:induction false} InvokeAnnounced(s: State, k: Kind, o: Oracle)
    ensures Announced(s, InvokeMsg(s, k, o), 0)
    decreases Budget(s), Open(s), 2
  {
    if o(|s.log|, k) { RestartAnnounced(Log(s, k), o); }
  }

  lemma {:induction false} RestartAnnounced(s: State, o: Oracle)
    ensures Announced(s, TryRestart(s, o), 0)
    decreases Budget(s), Open(s), 1
  {
    if s.max == 0 {
      ShutdownAnnounced(s, o);
    } else {
      var t := s.(restarts := s.restarts + 1);
      if t.restarts > s.max {
        ShutdownAnnounced(t, o);
      } else {
        EmitCounts(t, ActorRestarted(t.restarts));
        StartAnnounced(Retry(t), o);
      }
    }
  }

  lemma {:induction false} StartAnnounced(s: State, o: Oracle)
    ensures Announced(s, Start(s, o), 1)
    decreases Budget(s), Open(s), 3
  {
    var t, u := StartParts(s, o);
    InvokeAnnounced(s.(receiver := s.receiver + 1), Initialized, o);
    InvokeAnnounced(Registers(t), Started, o);
    StartCounts(s, t, u);
  }

  lemma StartCounts(s: State, t: State, u: State)
    requires Announced(s.(receiver := s.receiver + 1), t, 0) && Announced(Registers(t), u, 0)
    ensures Announced(s, Emit(u, ActorStarted), 1)
  {
    EmitCounts(t, ActorInitialized);
    EmitCounts(u, ActorStarted);
  }

  lemma {:induction false} ShutdownAnnounced(s: State, o: Oracle)
    ensures Announced(s, Shutdown(s, o), 0)
    decreases Budget(s), Open(s), 0
  {
    if !s.stopped {
      var t := s.(stopped := true);
      InvokeAnnounced(t, Stopped, o);
      EmitCounts(InvokeMsg(t, Stopped, o), ActorStopped);
    }
  }

  lemma {:induction false} FeedAnnounced(s: State, msgs: seq<nat>, o: Oracle)
    ensures Announced(s, Feed(s, msgs, o), 0)
  {
    if msgs != [] {
      var t := Feed(s, msgs[..|msgs| - 1], o);
      FeedAnnounced(s, msgs[..|msgs| - 1], o);
      InvokeAnnounced(t, User(msgs[|msgs| - 1]), o);
    }
  }

  /** The numbers the restart announcements carry, in order. */
  function RestartNumbers(events: seq<Announcement>): seq<nat> {
    if events == [] then []
    else
      var e := events[|events| - 1].event;
      RestartNumbers(events[..|events| - 1]) + if e.ActorRestarted? then [e.n] else []
  }

  function UpTo(n: nat): seq<nat> { seq(n, i => i + 1) }

  predicate NumberedSoFar(s: State) {
    RestartNumbers(s.events) == UpTo(Min(s.max, s.restarts))
  }

  lemma NumbersEmit(s: State, e: Event)
    ensures RestartNumbers(Emit(s, e).events) == RestartNumbers(s.events) + if e.ActorRestarted? then [e.n] else []
  {
    assert Emit(s, e).events[..|s.events|] == s.events;
  }

  lemma {:induction false} InvokeNumbers(s: State, k: Kind, o: Oracle)
    requires NumberedSoFar(s)
    ensures NumberedSoFar(InvokeMsg(s, k, o))
    decreases Budget(s), Open(s), 2
  {
    if o(|s.log|, k) { TryNumbers(Log(s, k), o); }
  }

  lemma {:induction false} TryNumbers(s: State, o: Oracle)
    requires NumberedSoFar(s)
    ensures NumberedSoFar(TryRestart(s, o))
    decreases Budget(s), Open(s), 1
  {
    if s.max == 0 {
      ShutdownNumbers(s, o);
    } else {
      var t := s.(restarts := s.restarts + 1);
      if t.restarts > s.max {
        ShutdownNumbers(t, o);
      } else {
        NumbersEmit(t, ActorRestarted(t.restarts));
        assert UpTo(t.restarts) == UpTo(s.restarts) + [t.restarts];
        StartNumbers(Retry(t), o);
      }
    }
  }

  lemma {:induction false} StartNumbers(s: State, o: Oracle)
    requires NumberedSoFar(s)
    ensures NumberedSoFar(Start(s, o))
    decreases Budget(s), Open(s), 3
  {
    var t, u := StartParts(s, o);
    InvokeNumbers(s.(receiver := s.receiver + 1), Initialized, o);
    NumbersEmit(t, ActorInitialized);
    InvokeNumbers(Registers(t), Started, o);
    NumbersEmit(u, ActorStarted);
  }

  lemma {:induction false} ShutdownNumbers(s: State, o: Oracle)
    requires NumberedSoFar(s)
    ensures NumberedSoFar(Shutdown(s, o))
    decreases Budget(s), Open(s), 0
  {
    if !s.stopped {
      var t := s.(stopped := true);
      InvokeNumbers(t, Stopped, o);
      NumbersEmit(InvokeMsg(t, Stopped, o), ActorStopped);
    }
  }

  lemma {:induction false} FeedNumbers(s: State, msgs: seq<nat>, o: Oracle)
    requires NumberedSoFar(s)
    ensures NumberedSoFar(Feed(s, msgs, o))
  {
    if msgs != [] {
      FeedNumbers(s, msgs[..|msgs| - 1], o);
      InvokeNumbers(Feed(s, msgs[..|msgs| - 1], o), User(msgs[|msgs| - 1]), o);
    }
  }

  /** For every oracle the restarts are announced as number 1, 2, 3 and so on, one for each restart that was made. */
  lemma {:induction false} RestartsNumbered(max: nat, msgs: seq<nat>, pill: bool, o: Oracle)
    ensures var s := Life(max, msgs, pill, o); RestartNumbers(s.events) == UpTo(Min(max, s.restarts))
  {
    var s0 := Start(Fresh(max), o);
    assert NumberedSoFar(Fresh(max));
    StartNumbers(Fresh(max), o);
    FeedNumbers(s0, msgs, o);
    ShutdownNumbers(Feed(s0, msgs, o), o);
  }

  /**
   The lifecycle broadcasts of a whole life, for every oracle: each incarnation is announced as initialized and as
   started once, each but the first as restarted, and the stop once if and only if the actor stopped.
   */
  lemma {:induction false} EventLedger(max: nat, msgs: seq<nat>, pill: bool, o: Oracle)
    ensures var s := Life(max, msgs, pill, o);
            && Count(s.events, IsInitialized) == Count(s.events, IsStarted) == s.receiver
            && Count(s.events, IsRestarted) == s.receiver - 1 == Min(max, Total(s, o))
            && Count(s.events, IsStopped) == if s.stopped then 1 else 0
  {
    var s0 := Start(Fresh(max), o);
    StartAnnounced(Fresh(max), o);
    FeedAnnounced(s0, msgs, o);
    ShutdownAnnounced(Feed(s0, msgs, o), o);
    LifeLedger(max, msgs, pill, o);
  }

  // ---------------------------------------------------------------- when lifecycle handlers do not panic

  /** What message j makes the engine announce, with p deliveries up to and including it. */
  function EntryEvents(max: nat, bad: nat -> bool, j: nat, p: nat): seq<Announcement> {
    var b := Bad(bad, j);
    if !bad(j) then []
    else if b < max then [Announcement(ActorRestarted(b + 1), p, true)] + OpeningEvents(2 + b, p)
    else if b == max then [Announcement(ActorStopped, p + 1, true)]
    else []
  }

  /** Deliveries before message n. */
  function Before(max: nat, bad: nat -> bool, n: nat): nat { |Opening(1) + Entries(max, bad, n)| }

  function EventEntries(max: nat, bad: nat -> bool, n: nat): seq<Announcement> {
    if n == 0 then []
    else EventEntries(max, bad, n - 1) + EntryEvents(max, bad, n - 1, Before(max, bad, n - 1) + 1)
  }

  lemma {:induction false} InvokeEvents(s: State, j: nat, bad: nat -> bool)
    requires Tally(s, s.max, Bad(bad, j))
    ensures InvokeMsg(s, User(j), UserOracle(bad)).events == s.events + EntryEvents(s.max, bad, j, |s.log| + 1)
  {
    var o, t := UserOracle(bad), Log(s, User(j));
    if bad(j) {
      assert InvokeMsg(s, User(j), o) == TryRestart(t, o);
      var u := if s.max == 0 then t else t.(restarts := t.restarts + 1);
      if Bad(bad, j) < s.max {
        CalmStart(Retry(u), bad);
        assert TryRestart(t, o) == Start(Retry(u), o);
      } else {
        CalmShutdown(u, bad);
        assert TryRestart(t, o) == Shutdown(u, o);
      }
    }
  }

  lemma {:induction false} FeedEvents(max: nat, n: nat, bad: nat -> bool)
    ensures var s := Feed(Start(Fresh(max), UserOracle(bad)), Numbers(n), UserOracle(bad));
            s.events == OpeningEvents(1, 0) + EventEntries(max, bad, n)
  {
    var o := UserOracle(bad);
    var s0 := Start(Fresh(max), o);
    if n == 0 {
      CalmStart(Fresh(max), bad);
      assert Feed(s0, Numbers(0), o) == s0;
    } else {
      FeedEvents(max, n - 1, bad);
      FeedLog(max, n - 1, bad);
      InvokeEvents(Feed(s0, Numbers(n - 1), o), n - 1, bad);
      FeedLast(s0, n, o);
      LongerEvents(max, n, bad);
    }
  }

  lemma LongerEvents(max: nat, n: nat, bad: nat -> bool)
    requires n > 0
    ensures OpeningEvents(1, 0) + EventEntries(max, bad, n - 1) +
              EntryEvents(max, bad, n - 1, Before(max, bad, n - 1) + 1) ==
            OpeningEvents(1, 0) + EventEntries(max, bad, n)
  {
  }

  /**
   The exact broadcasts of any pattern of user panics: each after the delivery it reports and with the registration it
   finds, restarts numbered from 1, and the stop announced once, after Stopped and before the PID leaves the registry.
   */
  lemma {:induction false} LifecycleEvents(max: nat, n: nat, pill: bool, bad: nat -> bool)
    ensures Life(max, Numbers(n), pill, UserOracle(bad)).events ==
              OpeningEvents(1, 0) + EventEntries(max, bad, n) +
              (if pill && Bad(bad, n) <= max then [Announcement(ActorStopped, Before(max, bad, n) + 1, true)] else [])
  {
    var s := Feed(Start(Fresh(max), UserOracle(bad)), Numbers(n), UserOracle(bad));
    FeedEvents(max, n, bad);
    FeedLog(max, n, bad);
    if pill { CalmShutdown(s, bad); }
  }
}
