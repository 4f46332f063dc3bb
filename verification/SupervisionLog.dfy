/** What the order of deliveries promises, for every panic oracle: where Stopped stands, and what a restart follows. */
module SupervisionLog {
  import opened Wrappers
  import opened Supervision

  // ---------------------------------------------------------------- when Stopped is the last delivery

  /** After the stop flag is set nothing but the Shutdown that set it delivers Stopped. */
  lemma {:induction false} InvokeAfterStop(s: State, k: Kind, o: Oracle)
    requires s.stopped && !k.Stopped?
    ensures !EndsStopped(InvokeMsg(s, k, o).log)
    decreases Budget(s), 1
  {
    if o(|s.log|, k) && !Spent(s) {
      StartAfterStop(Retry(Log(s, k).(restarts := s.restarts + 1)), o);
    } else if Spent(s) {
      SpentInvoke(s, k, o);
    }
  }

  lemma {:induction false} StartAfterStop(s: State, o: Oracle)
    requires s.stopped
    ensures !EndsStopped(Start(s, o).log)
    decreases Budget(s), 2
  {
    InvokeAfterStop(Registers(InvokeMsg(s.(receiver := s.receiver + 1), Initialized, o)), Started, o);
  }

  /** A pill's Shutdown: Stopped is last unless its handler panics with a restart left. */
  lemma {:induction false} PillEnds(s: State, o: Oracle)
    requires !s.stopped
    ensures EndsStopped(Shutdown(s, o).log) <==> !(o(|s.log|, Stopped) && s.restarts < s.max)
  {
    var t := s.(stopped := true);
    if Spent(s) {
      SpentInvoke(t, Stopped, o);
    } else if o(|s.log|, Stopped) {
      var u := Log(t, Stopped).(restarts := s.restarts + 1);
      assert InvokeMsg(t, Stopped, o) == Start(Retry(u), o);
      StartAfterStop(Retry(u), o);
    }
  }

  /**
   A life ends with Stopped: if the actor gave up, it did so in the last message handed out (or in its first Start)
   with no Start left to finish; else a pill came and the Stopped handler did not panic with a restart left.
   */
  predicate StopsLast(max: nat, msgs: seq<nat>, pill: bool, o: Oracle) {
    var s0 := Start(Fresh(max), o);
    var s := Feed(s0, msgs, o);
    if s.stopped then (msgs == [] || !Feed(s0, msgs[..|msgs| - 1], o).stopped) && OwedAtStop(s.log) == 0
    else pill && !(o(|s.log|, Stopped) && s.restarts < max)
  }

  /** The give-up and the last message of a walk. */
  lemma {:induction false} WalkEnds(max: nat, msgs: seq<nat>, o: Oracle)
    ensures var s0 := Start(Fresh(max), o);
            var s := Feed(s0, msgs, o);
            EndsStopped(s.log) <==> s.stopped && StopsLast(max, msgs, false, o)
  {
    var s0 := Start(Fresh(max), o);
    StartSettled(Fresh(max), o);
    if msgs != [] {
      var init, k := msgs[..|msgs| - 1], User(msgs[|msgs| - 1]);
      var t := Feed(s0, init, o);
      FeedSettled(s0, init, o);
      if t.stopped { InvokeAfterStop(t, k, o); } else { InvokeSettled(t, k, o); }
    }
    UnstoppedEnds(Feed(s0, msgs, o), o) by { FeedSettled(s0, msgs, o); }
  }

  lemma UnstoppedEnds(s: State, o: Oracle)
    requires Settled(s, 0, o)
    ensures !s.stopped ==> !EndsStopped(s.log)
  {
  }

  /** For every oracle: exactly when Stopped is the last thing an actor is handed. */
  lemma {:induction false} StoppedLastIff(max: nat, msgs: seq<nat>, pill: bool, o: Oracle)
    ensures EndsStopped(Life(max, msgs, pill, o).log) <==> StopsLast(max, msgs, pill, o)
  {
    var s := Feed(Start(Fresh(max), o), msgs, o);
    WalkEnds(max, msgs, o);
    if pill && !s.stopped { PillEnds(s, o); }
  }

  /** Is the last of the first n messages the one whose panic exceeded the budget? */
  predicate GivesUpAtLast(max: nat, bad: nat -> bool, n: nat) {
    n > 0 && Bad(bad, n - 1) <= max < Bad(bad, n)
  }

  /** When lifecycle handlers do not panic: a pill delivered it, or the fatal message was the last one handed out. */
  lemma StoppedLastCalm(max: nat, n: nat, pill: bool, bad: nat -> bool)
    ensures var log := Life(max, Numbers(n), pill, UserOracle(bad)).log;
            && log != []
            && (log[|log| - 1].kind.Stopped? <==> (pill && Bad(bad, n) <= max) || GivesUpAtLast(max, bad, n))
  {
    LifecycleLog(max, n, pill, bad);
    if n > 0 && !(pill && Bad(bad, n) <= max) {
      var e := Entry(max, bad, n - 1);
      var log := Opening(1) + Entries(max, bad, n);
      assert log == Opening(1) + Entries(max, bad, n - 1) + e;
      assert log[|log| - 1] == e[|e| - 1];
    }
  }

  /** Not last: a message behind the fatal one in the same batch is delivered after Stopped. */
  lemma DeliveredAfterStopped()
    ensures Life(0, Numbers(2), false, UserOracle(m => m == 0)).log ==
              Opening(1) + [Delivery(User(0), 1, true), Delivery(Stopped, 1, true), Delivery(User(1), 1, false)]
  {
    var bad: nat -> bool := m => m == 0;
    LifecycleLog(0, 2, false, bad);
    assert Bad(bad, 0) == 0 && Bad(bad, 1) == 1;
    assert Entries(0, bad, 1) == Entry(0, bad, 0);
    assert Entries(0, bad, 2) == Entry(0, bad, 0) + Entry(0, bad, 1);
  }

  /** Not last, and a predecessor that had its Stopped: the Stopped handler panics with a restart left. */
  lemma {:induction false} RestartedAfterStopped()
    ensures Life(1, [], true, (n: nat, k: Kind) => k.Stopped?).log ==
              Opening(1) + [Delivery(Stopped, 1, true)] + Opening(2)
  {
    var o: Oracle := (n: nat, k: Kind) => k.Stopped?;
    var s := Start(Fresh(1), o);
    assert s == Opened(Fresh(1)) by { QuietStart(Fresh(1), o); }
    var u := Log(s.(stopped := true), Stopped).(restarts := 1);
    assert InvokeMsg(s.(stopped := true), Stopped, o) == Start(Retry(u), o);
    QuietStart(Retry(u), o);
  }

  /** A Start in which neither handler panics. */
  lemma {:induction false} QuietStart(s: State, o: Oracle)
    requires !o(|s.log|, Initialized) && !o(|s.log| + 1, Started) && (s.registered <==> s.receiver > 0)
    ensures Start(s, o) == Opened(s)
  {
    var t := Registers(Log(s.(receiver := s.receiver + 1), Initialized));
    StartIs(s, t, o);
    OpenedLog(s, t);
  }

  // ---------------------------------------------------------------- what a new incarnation follows

  function Init(log: seq<Delivery>): seq<Delivery>
    requires log != []
  {
    log[..|log| - 1]
  }

  function Last(log: seq<Delivery>): Delivery
    requires log != []
  {
    log[|log| - 1]
  }

  /** Receivers only grow, up to r. */
  ghost predicate Rising(log: seq<Delivery>, r: nat) {
    log != [] ==> Last(log).receiver <= r && Rising(Init(log), Last(log).receiver)
  }

  /** Each Stopped but the last delivery was followed at once by an Initialized. */
  ghost predicate Answered(log: seq<Delivery>) {
    log != [] ==> Answered(Init(log)) && (EndsStopped(Init(log)) ==> Last(log).kind.Initialized?)
  }

  /** May an incarnation r open after this log? Right after its predecessor, and with no Stopped left unanswered. */
  ghost predicate MayOpen(log: seq<Delivery>, r: nat) {
    log != [] ==> Answered(log) && Last(log).receiver + 1 == r
  }

  ghost predicate Chained(log: seq<Delivery>) {
    log != [] ==>
      Chained(Init(log)) && (Last(log).kind.Initialized? ==> MayOpen(Init(log), Last(log).receiver))
  }

  ghost predicate Chain(s: State) {
    Chained(s.log) && Rising(s.log, s.receiver) && (Answered(s.log) || Spent(s))
  }

  /** What may be delivered next. */
  ghost predicate MayDeliver(s: State, k: Kind) {
    && (EndsStopped(s.log) ==> k.Initialized? || Spent(s))
    && (k.Initialized? ==> MayOpen(s.log, s.receiver))
  }

  lemma {:induction false} ChainLog(s: State, k: Kind)
    requires Chain(s) && MayDeliver(s, k)
    ensures Chain(Log(s, k))
  {
    var log' := Log(s, k).log;
    assert Init(log') == s.log && Last(log') == Delivery(k, s.receiver, s.registered);
  }

  lemma {:induction false} InvokeChain(s: State, k: Kind, o: Oracle)
    requires Chain(s) && MayDeliver(s, k)
    ensures var r := InvokeMsg(s, k, o); Chain(r) && (EndsStopped(r.log) ==> k.Stopped? || Spent(r))
    decreases Budget(s), Open(s), 2
  {
    ChainLog(s, k);
    if o(|s.log|, k) { RestartChain(Log(s, k), o); }
  }

  lemma {:induction false} RestartChain(s: State, o: Oracle)
    requires Chain(s) && s.log != [] && Last(s.log).receiver == s.receiver
    ensures var r := TryRestart(s, o); Chain(r) && (EndsStopped(r.log) ==> Spent(r))
    decreases Budget(s), Open(s), 1
  {
    if s.max == 0 {
      GiveUpChain(s, o);
    } else {
      var t := s.(restarts := s.restarts + 1);
      if t.restarts > s.max { GiveUpChain(t, o); } else { StartChain(Retry(t), o); }
    }
  }

  lemma {:induction false} GiveUpChain(s: State, o: Oracle)
    requires Chain(s) && Spent(s)
    ensures var r := Shutdown(s, o); Chain(r) && Spent(r)
  {
    if !s.stopped {
      var t := s.(stopped := true);
      SpentInvoke(t, Stopped, o);
      ChainLog(t, Stopped);
    }
  }

  lemma {:induction false} StartChain(s: State, o: Oracle)
    requires Chain(s) && Answered(s.log) && (s.log != [] ==> Last(s.log).receiver == s.receiver)
    ensures var r := Start(s, o); Chain(r) && (EndsStopped(r.log) ==> Spent(r))
    decreases Budget(s), Open(s), 3
  {
    var t, u := StartParts(s, o);
    InvokeChain(s.(receiver := s.receiver + 1), Initialized, o);
    InvokeChain(Registers(t), Started, o);
  }

  lemma {:induction false} FeedChain(s: State, msgs: seq<nat>, o: Oracle)
    requires Chain(s) && (EndsStopped(s.log) ==> Spent(s))
    ensures var r := Feed(s, msgs, o); Chain(r) && (EndsStopped(r.log) ==> Spent(r))
  {
    if msgs != [] {
      FeedChain(s, msgs[..|msgs| - 1], o);
      InvokeChain(Feed(s, msgs[..|msgs| - 1], o), User(msgs[|msgs| - 1]), o);
    }
  }

  lemma {:induction false} LifeChain(max: nat, msgs: seq<nat>, pill: bool, o: Oracle)
    ensures var s := Life(max, msgs, pill, o); Chained(s.log) && Rising(s.log, s.receiver)
  {
    var s0 := Start(Fresh(max), o);
    StartChain(Fresh(max), o);
    FeedChain(s0, msgs, o);
    var s := Feed(s0, msgs, o);
    if pill && !s.stopped { InvokeChain(s.(stopped := true), Stopped, o); }
  }

  /** Had the incarnation before the one that opens at i received its Stopped? */
  predicate PredecessorStopped(log: seq<Delivery>, i: nat)
    requires i < |log|
  {
    exists j :: 0 <= j < i && log[j].kind.Stopped? && log[j].receiver + 1 == log[i].receiver
  }

  /**
   For every oracle: a new incarnation's predecessor has received Stopped if and only if that Stopped is the very
   delivery before it, that is, if the panic that caused the restart was in the Stopped handler.
   */
  lemma {:induction false} PredecessorStoppedIff(max: nat, msgs: seq<nat>, pill: bool, o: Oracle, i: nat)
    requires var log := Life(max, msgs, pill, o).log; 0 < i < |log| && log[i].kind.Initialized?
    ensures var log := Life(max, msgs, pill, o).log; PredecessorStopped(log, i) <==> log[i - 1].kind.Stopped?
  {
    LifeChain(max, msgs, pill, o);
    var s := Life(max, msgs, pill, o);
    var r := ChainedPrefix(s.log, s.receiver, i + 1);
    var log := s.log[..i + 1];
    assert Init(log) == s.log[..i] && Last(log) == s.log[i];
    forall j | 0 <= j < i - 1 && s.log[j].kind.Stopped? ensures s.log[j].receiver + 1 != s.log[i].receiver {
      StoppedBelow(s.log[..i], s.log[i].receiver, j);
    }
  }

  lemma {:induction false} ChainedPrefix(log: seq<Delivery>, r: nat, n: nat) returns (q: nat)
    requires Chained(log) && Rising(log, r) && n <= |log|
    ensures Chained(log[..n]) && Rising(log[..n], q)
    decreases |log|
  {
    q := r;
    if n < |log| {
      q := ChainedPrefix(Init(log), Last(log).receiver, n);
      assert Init(log)[..n] == log[..n];
    } else {
      assert log[..n] == log;
    }
  }

  /** A Stopped that was answered belongs to an earlier incarnation than the last delivery. */
  lemma {:induction false} StoppedBelow(log: seq<Delivery>, r: nat, j: nat)
    requires Chained(log) && Answered(log) && Rising(log, r) && j < |log| - 1 && log[j].kind.Stopped?
    ensures log[j].receiver < Last(log).receiver
    decreases |log|
  {
    if j < |log| - 2 { StoppedBelow(Init(log), Last(log).receiver, j); }
  }

  /** The promise fails on an ordinary restart: a user panic within the budget opens the next incarnation at once. */
  lemma {:induction false} RestartedWithoutStopped()
    ensures Life(1, Numbers(1), false, UserOracle(m => true)).log ==
              Opening(1) + [Delivery(User(0), 1, true)] + Opening(2)
  {
    var bad: nat -> bool := m => true;
    LifecycleLog(1, 1, false, bad);
    assert Bad(bad, 0) == 0;
    assert Entries(1, bad, 1) == Entry(1, bad, 0);
  }
}
