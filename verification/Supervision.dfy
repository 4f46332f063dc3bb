/**
 The supervision recursion (process.go): Start, invokeMsg, tryRestart and Shutdown call each other, and
 user code may panic at any delivery. User code is an oracle that decides, delivery by delivery, what panics.
 */
module Supervision {
  import opened Wrappers

  datatype Kind = Initialized | Started | Stopped | User(m: nat)

  /** One call of Receive: the message, which incarnation of the receiver got it, and whether the PID resolved then. */
  datatype Delivery = Delivery(kind: Kind, receiver: nat, inReg: bool)

  /** A broadcast on the event stream. */
  datatype Event = ActorInitialized | ActorStarted | ActorRestarted(n: nat) | ActorStopped

  /** An event, how many deliveries came before it, and whether the PID resolved then. */
  datatype Announcement = Announcement(event: Event, after: nat, inReg: bool)

  /** Does the n-th delivery to this actor, carrying this message, panic? */
  type Oracle = (nat, Kind) -> bool

  /** What supervision reads and writes. `receiver` counts the Producer's calls; `log` and `events` are history. */
  datatype State = State(
    max: nat,          // MaxRestarts
    receiver: nat,
    restarts: nat,
    stopped: bool,
    registered: bool,
    closed: bool,      // inbox stopped
    log: seq<Delivery>,
    events: seq<Announcement>)

  function Budget(s: State): nat { if s.restarts <= s.max then s.max - s.restarts else 0 }

  function Open(s: State): nat { if s.stopped then 0 else 1 }

  function Log(s: State, k: Kind): State { s.(log := s.log + [Delivery(k, s.receiver, s.registered)]) }

  function Emit(s: State, e: Event): State { s.(events := s.events + [Announcement(e, |s.log|, s.registered)]) }

  /** What Start does between its two deliveries. */
  function Registers(s: State): State { Emit(s, ActorInitialized).(registered := true) }

  /** What tryRestart announces before it calls Start. */
  function Retry(s: State): State { Emit(s, ActorRestarted(s.restarts)) }

  /** What any amount of supervision leaves in place. */
  predicate Later(s: State, s': State) {
    && s'.max == s.max && s'.restarts >= s.restarts && s.receiver <= s'.receiver && s.log <= s'.log
    && s.events <= s'.events && (s.stopped ==> s'.stopped) && (s'.closed <==> s.closed || (s'.stopped && !s.stopped))
  }

  /** process.go:268. */
  function InvokeMsg(s: State, k: Kind, o: Oracle): (s': State)
    ensures Later(s, s')
    decreases Budget(s), Open(s), 2
  {
    var t := Log(s, k);
    if o(|s.log|, k) then TryRestart(t, o) else t
  }

  /** process.go:287. */
  function TryRestart(s: State, o: Oracle): (s': State)
    ensures Later(s, s')
    decreases Budget(s), Open(s), 1
  {
    if s.max == 0 then Shutdown(s, o)
    else
      var t := s.(restarts := s.restarts + 1);
      if t.restarts > s.max then Shutdown(t, o) else Start(Retry(t), o)
  }

  /** process.go:137. */
  function Start(s: State, o: Oracle): (s': State)
    ensures Later(s, s')
    decreases Budget(s), Open(s), 3
  {
    var t := InvokeMsg(s.(receiver := s.receiver + 1), Initialized, o);
    Emit(InvokeMsg(Registers(t), Started, o), ActorStarted)
  }

  /** process.go:228. */
  function Shutdown(s: State, o: Oracle): (s': State)
    ensures Later(s, s')
    decreases Budget(s), Open(s), 0
  {
    if s.stopped then s
    else Emit(InvokeMsg(s.(stopped := true), Stopped, o), ActorStopped).(registered := false, closed := true)
  }

  /** The two deliveries of Start. */
  lemma {:induction false} StartParts(s: State, o: Oracle) returns (t: State, u: State)
    ensures t == InvokeMsg(s.(receiver := s.receiver + 1), Initialized, o)
    ensures u == InvokeMsg(Registers(t), Started, o) && Start(s, o) == Emit(u, ActorStarted)
  {
    t := InvokeMsg(s.(receiver := s.receiver + 1), Initialized, o);
    u := InvokeMsg(Registers(t), Started, o);
  }

  // ---------------------------------------------------------------- the ledger

  /** Deliveries among the first n that panicked. */
  function Panics(log: seq<Delivery>, o: Oracle, n: nat): nat
    requires n <= |log|
  {
    if n == 0 then 0 else Panics(log, o, n - 1) + (if o(n - 1, log[n - 1].kind) then 1 else 0)
  }

  function Total(s: State, o: Oracle): nat { Panics(s.log, o, |s.log|) }

  /** Deliveries of Stopped. */
  function Stops(log: seq<Delivery>): nat {
    if log == [] then 0 else Stops(log[..|log| - 1]) + (if log[|log| - 1].kind.Stopped? then 1 else 0)
  }

  /** Restart count, Producer count and stop flag, as the panics so far determine them. */
  predicate Ledger(s: State, c: nat) {
    s.restarts == (if s.max == 0 then 0 else c) && s.receiver == 1 + Min(s.max, c)
  }

  lemma {:induction false} PanicsPrefix(a: seq<Delivery>, b: seq<Delivery>, o: Oracle, n: nat)
    requires n <= |a| && a <= b
    ensures Panics(a, o, n) == Panics(b, o, n)
  {
    if n > 0 { PanicsPrefix(a, b, o, n - 1); }
  }

  lemma LogTotals(s: State, k: Kind, o: Oracle)
    ensures Total(Log(s, k), o) == Total(s, o) + (if o(|s.log|, k) then 1 else 0)
    ensures Stops(Log(s, k).log) == Stops(s.log) + (if k.Stopped? then 1 else 0)
  {
    PanicsPrefix(s.log, Log(s, k).log, o, |s.log|);
    assert Log(s, k).log[..|s.log|] == s.log;
  }

  /** The stop flag is set exactly by the panic that exceeds the budget, and Stopped is delivered when it is set. */
  predicate Closes(s: State, s': State, o: Oracle, own: nat) {
    && (s'.stopped <==> s.stopped || Total(s', o) > s.max)
    && Stops(s'.log) == Stops(s.log) + own + (if s'.stopped && !s.stopped then 1 else 0)
  }

  lemma {:induction false} InvokeLedger(s: State, k: Kind, o: Oracle)
    requires Ledger(s, Total(s, o)) && (Total(s, o) > s.max ==> s.stopped)
    ensures var s' := InvokeMsg(s, k, o); Ledger(s', Total(s', o)) && Closes(s, s', o, if k.Stopped? then 1 else 0)
    decreases Budget(s), Open(s), 2
  {
    LogTotals(s, k, o);
    if o(|s.log|, k) { RestartLedger(Log(s, k), o); }
  }

  /** tryRestart runs with the panic already delivered but not yet counted. */
  lemma {:induction false} RestartLedger(s: State, o: Oracle)
    requires Total(s, o) > 0 && Ledger(s, Total(s, o) - 1) && (Total(s, o) - 1 > s.max ==> s.stopped)
    ensures var s' := TryRestart(s, o); Ledger(s', Total(s', o)) && Closes(s, s', o, 0)
    decreases Budget(s), Open(s), 1
  {
    if s.max == 0 {
      ShutdownLedger(s, o);
    } else {
      var t := s.(restarts := s.restarts + 1);
      if t.restarts > s.max { ShutdownLedger(t, o); } else { StartLedger(Retry(t), o); }
    }
  }

  /** Start runs before the Producer has been called for the panics so far. */
  lemma {:induction false} StartLedger(s: State, o: Oracle)
    requires Total(s, o) <= s.max && s.restarts == Total(s, o) == s.receiver
    ensures var s' := Start(s, o); Ledger(s', Total(s', o)) && Closes(s, s', o, 0)
    decreases Budget(s), Open(s), 3
  {
    var r := s.(receiver := s.receiver + 1);
    InvokeLedger(r, Initialized, o);
    var t := InvokeMsg(r, Initialized, o);
    var u := Registers(t);
    TotalGrows(r, t, o);
    InvokeLedger(u, Started, o);
    var v := InvokeMsg(u, Started, o);
    assert Start(s, o) == Emit(v, ActorStarted);
    TotalGrows(u, v, o);
    ClosesTwice(s, u, v, o);
  }

  lemma ClosesTwice(s: State, t: State, u: State, o: Oracle)
    requires Closes(s, t, o, 0) && Closes(t, u, o, 0) && t.max == s.max && Total(t, o) <= Total(u, o)
    requires s.stopped ==> t.stopped
    ensures Closes(s, u, o, 0)
  {
  }

  lemma {:induction false} ShutdownLedger(s: State, o: Oracle)
    requires Ledger(s, Total(s, o))
    ensures var s' := Shutdown(s, o);
            && Ledger(s', Total(s', o)) && s'.stopped
            && Stops(s'.log) == Stops(s.log) + (if s.stopped then 0 else 1)
            && Total(s', o) >= Total(s, o)
    decreases Budget(s), Open(s), 0
  {
    if !s.stopped {
      var t := s.(stopped := true);
      InvokeLedger(t, Stopped, o);
      TotalGrows(t, InvokeMsg(t, Stopped, o), o);
    }
  }

  lemma TotalGrows(s: State, s': State, o: Oracle)
    requires s.log <= s'.log
    ensures Total(s', o) >= Total(s, o)
  {
    PanicsPrefix(s.log, s'.log, o, |s.log|);
    PanicsMono(s'.log, o, |s.log|, |s'.log|);
  }

  lemma {:induction false} PanicsMono(log: seq<Delivery>, o: Oracle, m: nat, n: nat)
    requires m <= n <= |log|
    ensures Panics(log, o, m) <= Panics(log, o, n)
    decreases n
  {
    if m < n { PanicsMono(log, o, m, n - 1); }
  }

  // ---------------------------------------------------------------- a whole life

  function Fresh(max: nat): State { State(max, 0, 0, false, false, false, [], []) }

  /** The walk of Invoke: each envelope goes through invokeMsg in order, also after a give-up. */
  function Feed(s: State, msgs: seq<nat>, o: Oracle): (s': State)
    ensures Later(s, s')
  {
    if msgs == [] then s else InvokeMsg(Feed(s, msgs[..|msgs| - 1], o), User(msgs[|msgs| - 1]), o)
  }

  /** Spawn, walk what the inbox hands out, and finally a pill if one comes. */
  function Life(max: nat, msgs: seq<nat>, pill: bool, o: Oracle): State {
    var s := Feed(Start(Fresh(max), o), msgs, o);
    if pill then Shutdown(s, o) else s
  }

  lemma {:induction false} FeedLedger(s: State, msgs: seq<nat>, o: Oracle)
    requires Ledger(s, Total(s, o)) && (s.stopped <==> Total(s, o) > s.max) && Stops(s.log) == 1 - Open(s)
    ensures var s' := Feed(s, msgs, o);
            && Ledger(s', Total(s', o)) && (s'.stopped <==> Total(s', o) > s.max)
            && Stops(s'.log) == if s'.stopped then 1 else 0
  {
    if msgs != [] {
      var init := msgs[..|msgs| - 1];
      FeedLedger(s, init, o);
      var t := Feed(s, init, o);
      InvokeLedger(t, User(msgs[|msgs| - 1]), o);
      TotalGrows(t, Feed(s, msgs, o), o);
    }
  }

  /**
   For every oracle, panics in Initialized, Started and Stopped included: the Producer has run once plus once
   per panic within the budget, and Stopped was delivered exactly once if the budget was exceeded or a pill
   came, and not otherwise.
   */
  lemma LifeLedger(max: nat, msgs: seq<nat>, pill: bool, o: Oracle)
    ensures var s := Life(max, msgs, pill, o);
            && s.receiver == 1 + Min(max, Total(s, o)) <= 1 + max
            && (s.stopped <==> pill || Total(s, o) > max)
            && Stops(s.log) == if s.stopped then 1 else 0
  {
    StartLedger(Fresh(max), o);
    var s := Start(Fresh(max), o);
    FeedLedger(s, msgs, o);
    if pill { ShutdownLedger(Feed(s, msgs, o), o); }
  }

  // ---------------------------------------------------------------- no message lost or repeated

  /** The user messages of a log, in order. */
  function Users(log: seq<Delivery>): seq<nat> {
    if log == [] then []
    else
      var d := log[|log| - 1];
      Users(log[..|log| - 1]) + if d.kind.User? then [d.kind.m] else []
  }

  lemma UsersLog(s: State, k: Kind)
    ensures Users(Log(s, k).log) == Users(s.log) + if k.User? then [k.m] else []
  {
    assert Log(s, k).log[..|s.log|] == s.log;
  }

  lemma {:induction false} InvokeUsers(s: State, k: Kind, o: Oracle)
    ensures Users(InvokeMsg(s, k, o).log) == Users(s.log) + if k.User? then [k.m] else []
    decreases Budget(s), Open(s), 2
  {
    UsersLog(s, k);
    if o(|s.log|, k) { RestartUsers(Log(s, k), o); }
  }

  lemma {:induction false} RestartUsers(s: State, o: Oracle)
    ensures Users(TryRestart(s, o).log) == Users(s.log)
    decreases Budget(s), Open(s), 1
  {
    if s.max == 0 {
      ShutdownUsers(s, o);
    } else {
      var t := s.(restarts := s.restarts + 1);
      if t.restarts > s.max { ShutdownUsers(t, o); } else { StartUsers(Retry(t), o); }
    }
  }

  lemma {:induction false} StartUsers(s: State, o: Oracle)
    ensures Users(Start(s, o).log) == Users(s.log)
    decreases Budget(s), Open(s), 3
  {
    var t, u := StartParts(s, o);
    InvokeUsers(s.(receiver := s.receiver + 1), Initialized, o);
    InvokeUsers(Registers(t), Started, o);
  }

  lemma {:induction false} ShutdownUsers(s: State, o: Oracle)
    ensures Users(Shutdown(s, o).log) == Users(s.log)
    decreases Budget(s), Open(s), 0
  {
    if !s.stopped { InvokeUsers(s.(stopped := true), Stopped, o); }
  }

  /** Whatever panics and wherever, the batch loop delivers each message once and in order. */
  lemma {:induction false} FeedUsers(s: State, msgs: seq<nat>, o: Oracle)
    ensures Users(Feed(s, msgs, o).log) == Users(s.log) + msgs
  {
    if msgs != [] {
      var init := msgs[..|msgs| - 1];
      FeedUsers(s, init, o);
      InvokeUsers(Feed(s, init, o), User(msgs[|msgs| - 1]), o);
      assert msgs == init + [msgs[|msgs| - 1]];
    }
  }

  // ---------------------------------------------------------------- the registry after a give-up

  predicate HasStopped(log: seq<Delivery>) { exists i :: 0 <= i < |log| && log[i].kind.Stopped? }

  /** How many calls of Start are past their Initialized and not yet at their Started, hence not yet at registration. */
  function Owed(log: seq<Delivery>): int {
    if log == [] then 0 else Owed(log[..|log| - 1]) + Owes(log[|log| - 1].kind)
  }

  function Owes(k: Kind): int { if k.Initialized? then 1 else if k.Started? then -1 else 0 }

  /** That number at the moment Stopped was first delivered. */
  function OwedAtStop(log: seq<Delivery>): int {
    if log == [] then 0
    else
      var init := log[..|log| - 1];
      if HasStopped(init) then OwedAtStop(init) else if log[|log| - 1].kind.Stopped? then Owed(init) else 0
  }

  lemma OwedLog(s: State, k: Kind)
    ensures HasStopped(Log(s, k).log) <==> HasStopped(s.log) || k.Stopped?
    ensures Owed(Log(s, k).log) == Owed(s.log) + Owes(k)
    ensures HasStopped(s.log) ==> OwedAtStop(Log(s, k).log) == OwedAtStop(s.log)
    ensures !HasStopped(s.log) && k.Stopped? ==> OwedAtStop(Log(s, k).log) == Owed(s.log)
  {
    var log' := Log(s, k).log;
    assert log'[..|s.log|] == s.log;
    if HasStopped(s.log) { var i :| 0 <= i < |s.log| && s.log[i].kind.Stopped?; assert log'[i] == s.log[i]; }
    if k.Stopped? { assert log'[|s.log|].kind.Stopped?; }
  }

  ghost predicate CalmInit(o: Oracle) { forall n: nat :: !o(n, Initialized) }

  /** No restart is left, so one more panic changes nothing but the count. */
  predicate Spent(s: State) { s.max == 0 || s.restarts >= s.max }

  /** d calls of Start were open outside; a give-up inside leaves the PID registered exactly if more were open then. */
  ghost predicate Settled(s: State, d: int, o: Oracle) {
    && (HasStopped(s.log) <==> s.stopped)
    && (!s.stopped ==> Owed(s.log) == d)
    && (s.stopped ==> Spent(s) && OwedAtStop(s.log) >= d && (s.registered <==> OwedAtStop(s.log) > d))
    && (s.stopped && CalmInit(o) ==> OwedAtStop(s.log) == d)
  }

  predicate EndsStopped(log: seq<Delivery>) { log != [] && log[|log| - 1].kind.Stopped? }

  /** And right after that give-up, Stopped is the last delivery exactly if no more were open. */
  ghost predicate JustSettled(s: State, d: int, o: Oracle) {
    Settled(s, d, o) && (s.stopped ==> (EndsStopped(s.log) <==> OwedAtStop(s.log) == d))
  }

  lemma SpentInvoke(s: State, k: Kind, o: Oracle)
    requires s.stopped && Spent(s)
    ensures InvokeMsg(s, k, o) == Log(s, k).(restarts := s.restarts + if o(|s.log|, k) && s.max > 0 then 1 else 0)
  {
    var t := Log(s, k);
    if o(|s.log|, k) {
      assert InvokeMsg(s, k, o) == TryRestart(t, o);
      if s.max == 0 {
        assert Shutdown(t, o) == t;
      } else {
        var u := t.(restarts := t.restarts + 1);
        assert TryRestart(t, o) == Shutdown(u, o) == u;
      }
    }
  }

  lemma {:induction false} InvokeSettled(s: State, k: Kind, o: Oracle)
    requires !s.stopped && !HasStopped(s.log) && !k.Stopped?
    ensures JustSettled(InvokeMsg(s, k, o), Owed(s.log) + Owes(k), o)
    decreases Budget(s), Open(s), 2
  {
    OwedLog(s, k);
    if o(|s.log|, k) { RestartSettled(Log(s, k), o); }
  }

  lemma {:induction false} RestartSettled(s: State, o: Oracle)
    requires !s.stopped && !HasStopped(s.log)
    ensures JustSettled(TryRestart(s, o), Owed(s.log), o)
    decreases Budget(s), Open(s), 1
  {
    if s.max == 0 {
      GiveUpSettled(s, o);
    } else {
      var t := s.(restarts := s.restarts + 1);
      if t.restarts > s.max { GiveUpSettled(t, o); } else { StartSettled(Retry(t), o); }
    }
  }

  lemma GiveUpSettled(s: State, o: Oracle)
    requires !s.stopped && !HasStopped(s.log) && Spent(s)
    ensures JustSettled(Shutdown(s, o), Owed(s.log), o)
  {
    var t := s.(stopped := true);
    SpentInvoke(t, Stopped, o);
    OwedLog(t, Stopped);
  }

  lemma {:induction false} StartSettled(s: State, o: Oracle)
    requires !s.stopped && !HasStopped(s.log)
    ensures JustSettled(Start(s, o), Owed(s.log), o)
    decreases Budget(s), Open(s), 3
  {
    var r := s.(receiver := s.receiver + 1);
    InvokeSettled(r, Initialized, o);
    var t := InvokeMsg(r, Initialized, o);
    var u := Registers(t);
    assert Start(s, o) == Emit(InvokeMsg(u, Started, o), ActorStarted);
    if t.stopped {
      assert o(|r.log|, Initialized);
      LateStart(u, Owed(s.log), o);
    } else {
      InvokeSettled(u, Started, o);
    }
  }

  /** A Start whose Initialized ended in a give-up registers and delivers Started all the same. */
  lemma LateStart(s: State, d: int, o: Oracle)
    requires s.stopped && s.registered && Spent(s) && HasStopped(s.log) && OwedAtStop(s.log) > d && !CalmInit(o)
    ensures JustSettled(InvokeMsg(s, Started, o), d, o)
  {
    SpentInvoke(s, Started, o);
    OwedLog(s, Started);
  }

  lemma {:induction false} FeedSettled(s: State, msgs: seq<nat>, o: Oracle)
    requires Settled(s, 0, o)
    ensures Settled(Feed(s, msgs, o), 0, o)
  {
    if msgs != [] {
      var t, k := Feed(s, msgs[..|msgs| - 1], o), User(msgs[|msgs| - 1]);
      FeedSettled(s, msgs[..|msgs| - 1], o);
      if t.stopped {
        SpentInvoke(t, k, o);
        OwedLog(t, k);
      } else {
        InvokeSettled(t, k, o);
      }
    }
  }

  /**
   After a give-up the PID is still registered if and only if some call of Start had delivered Initialized and not
   yet registered when Stopped was delivered; never if Initialized does not panic. A pill's Shutdown of an actor
   that had not given up always leaves it unregistered.
   */
  lemma RegisteredAfterStop(max: nat, msgs: seq<nat>, o: Oracle)
    ensures var s := Life(max, msgs, false, o);
            && (s.stopped ==> (s.registered <==> OwedAtStop(s.log) > 0))
            && (s.stopped && CalmInit(o) ==> !s.registered)
            && (!s.stopped ==> !Life(max, msgs, true, o).registered && Life(max, msgs, true, o).closed)
  {
    StartSettled(Fresh(max), o);
    FeedSettled(Start(Fresh(max), o), msgs, o);
  }

  /** The family is not empty: a panic in Initialized with no restarts leaves a stopped actor registered. */
  lemma StoppedYetRegistered()
    ensures var s := Life(0, [], false, (n: nat, k: Kind) => k.Initialized?);
            s.stopped && s.closed && s.registered
  {
    var o: Oracle := (n: nat, k: Kind) => k.Initialized?;
    var r := Fresh(0).(receiver := 1);
    var g := Log(r, Initialized);
    SpentInvoke(g.(stopped := true), Stopped, o);
    assert InvokeMsg(r, Initialized, o).stopped;
    SpentInvoke(Registers(InvokeMsg(r, Initialized, o)), Started, o);
  }

  // ---------------------------------------------------------------- the registry when Stopped is delivered

  predicate HasStarted(log: seq<Delivery>) { exists i :: 0 <= i < |log| && log[i].kind.Started? }

  /** Each Stopped in the log found the PID registered exactly if Started had been delivered before it. */
  ghost predicate Marked(log: seq<Delivery>) {
    forall i :: 0 <= i < |log| && log[i].kind.Stopped? ==> (log[i].inReg <==> HasStarted(log[..i]))
  }

  /** Until the stop the PID is registered exactly once Started has been delivered. */
  ghost predicate Sound(s: State) {
    Marked(s.log) && (!s.stopped ==> (s.registered <==> HasStarted(s.log)))
  }

  lemma MarkedLog(s: State, k: Kind)
    requires Marked(s.log) && (k.Stopped? ==> (s.registered <==> HasStarted(s.log)))
    ensures Marked(Log(s, k).log)
    ensures HasStarted(Log(s, k).log) <==> HasStarted(s.log) || k.Started?
  {
    var log' := Log(s, k).log;
    assert log'[..|s.log|] == s.log;
    forall i | 0 <= i < |log'| && log'[i].kind.Stopped? ensures log'[i].inReg <==> HasStarted(log'[..i]) {
      if i < |s.log| { assert log'[..i] == s.log[..i] && log'[i] == s.log[i]; }
    }
    if HasStarted(s.log) { var i :| 0 <= i < |s.log| && s.log[i].kind.Started?; assert log'[i] == s.log[i]; }
    if k.Started? { assert log'[|s.log|].kind.Started?; }
  }

  lemma {:induction false} InvokeSound(s: State, k: Kind, o: Oracle)
    requires Sound(Log(s, k))
    ensures Sound(InvokeMsg(s, k, o))
    decreases Budget(s), Open(s), 2
  {
    if o(|s.log|, k) { RestartSound(Log(s, k), o); }
  }

  lemma {:induction false} RestartSound(s: State, o: Oracle)
    requires Sound(s)
    ensures Sound(TryRestart(s, o))
    decreases Budget(s), Open(s), 1
  {
    if s.max == 0 {
      ShutdownSound(s, o);
    } else {
      var t := s.(restarts := s.restarts + 1);
      if t.restarts > s.max { ShutdownSound(t, o); } else { StartSound(Retry(t), o); }
    }
  }

  lemma {:induction false} StartSound(s: State, o: Oracle)
    requires Sound(s)
    ensures Sound(Start(s, o))
    decreases Budget(s), Open(s), 3
  {
    var r := s.(receiver := s.receiver + 1);
    MarkedLog(r, Initialized);
    InvokeSound(r, Initialized, o);
    var t := Registers(InvokeMsg(r, Initialized, o));
    MarkedLog(t, Started);
    InvokeSound(t, Started, o);
  }

  lemma {:induction false} ShutdownSound(s: State, o: Oracle)
    requires Sound(s)
    ensures Sound(Shutdown(s, o))
    decreases Budget(s), Open(s), 0
  {
    if !s.stopped {
      var t := s.(stopped := true);
      MarkedLog(t, Stopped);
      InvokeSound(t, Stopped, o);
    }
  }

  lemma {:induction false} FeedSound(s: State, msgs: seq<nat>, o: Oracle)
    requires Sound(s)
    ensures Sound(Feed(s, msgs, o))
  {
    if msgs != [] {
      var t, k := Feed(s, msgs[..|msgs| - 1], o), User(msgs[|msgs| - 1]);
      FeedSound(s, msgs[..|msgs| - 1], o);
      MarkedLog(t, k);
      InvokeSound(t, k, o);
    }
  }

  /**
   Stopped is delivered before the PID leaves the registry, not after: for every oracle, whenever Stopped is
   delivered the PID resolves if and only if Started had been delivered. The exception is the actor that gives up
   before it was ever registered.
   */
  lemma StoppedWhileRegistered(max: nat, msgs: seq<nat>, pill: bool, o: Oracle, i: nat)
    requires var log := Life(max, msgs, pill, o).log; i < |log| && log[i].kind.Stopped?
    ensures var log := Life(max, msgs, pill, o).log; log[i].inReg <==> HasStarted(log[..i])
  {
    StartSound(Fresh(max), o);
    var s := Start(Fresh(max), o);
    FeedSound(s, msgs, o);
    ShutdownSound(Feed(s, msgs, o), o);
    assert Marked(Life(max, msgs, pill, o).log);
  }

  /** The exception is not empty: a panic in Initialized with no restarts hands Stopped to an unregistered actor. */
  lemma StoppedNeverRegistered()
    ensures var log := Life(0, [], false, (n: nat, k: Kind) => k.Initialized?).log;
            log == [Delivery(Initialized, 1, false), Delivery(Stopped, 1, false), Delivery(Started, 1, true)]
  {
    var o: Oracle := (n: nat, k: Kind) => k.Initialized?;
    var r := Fresh(0).(receiver := 1);
    var g := Log(r, Initialized);
    SpentInvoke(g.(stopped := true), Stopped, o);
    var t := InvokeMsg(r, Initialized, o);
    assert t == Shutdown(g, o);
    SpentInvoke(Registers(t), Started, o);
  }

  // ---------------------------------------------------------------- the delivery log

  /** User messages are numbered; `bad` says which of them panic. Lifecycle handlers do not. */
  function UserOracle(bad: nat -> bool): Oracle { (n: nat, k: Kind) => k.User? && bad(k.m) }

  /** Bad messages among the first n. */
  function Bad(bad: nat -> bool, n: nat): nat {
    if n == 0 then 0 else Bad(bad, n - 1) + (if bad(n - 1) then 1 else 0)
  }

  function Opening(r: nat): seq<Delivery> { [Delivery(Initialized, r, r > 1), Delivery(Started, r, true)] }

  /** What message j adds to the log, from the number of bad messages before it. */
  function Entry(max: nat, bad: nat -> bool, j: nat): seq<Delivery> {
    var b := Bad(bad, j);
    [Delivery(User(j), 1 + Min(max, b), b <= max)] +
    if !bad(j) then []
    else if b < max then Opening(2 + b)
    else if b == max then [Delivery(Stopped, 1 + max, true)]
    else []
  }

  function Entries(max: nat, bad: nat -> bool, n: nat): seq<Delivery> {
    if n == 0 then [] else Entries(max, bad, n - 1) + Entry(max, bad, n - 1)
  }

  function Numbers(n: nat): seq<nat> { seq(n, i => i) }

  /**
   The delivery log of any pattern of user panics among n messages handed out: each incarnation opens with Initialized
   then Started on a fresh receiver, each message goes once to the newest receiver, and panic number MaxRestarts + 1
   yields the only Stopped. A final pill adds Stopped if the actor had not already given up.
   */
  lemma LifecycleLog(max: nat, n: nat, pill: bool, bad: nat -> bool)
    ensures Life(max, Numbers(n), pill, UserOracle(bad)).log ==
              Opening(1) + Entries(max, bad, n) +
              (if pill && Bad(bad, n) <= max then [Delivery(Stopped, 1 + Bad(bad, n), true)] else [])
  {
    FeedLog(max, n, bad);
    var s := Feed(Start(Fresh(max), UserOracle(bad)), Numbers(n), UserOracle(bad));
    if pill { CalmShutdown(s, bad); }
  }

  lemma LifeCloses(max: nat, n: nat, pill: bool, bad: nat -> bool)
    ensures Life(max, Numbers(n), pill, UserOracle(bad)).closed <==> pill || Bad(bad, n) > max
  {
    CalmStart(Fresh(max), bad);
    FeedLog(max, n, bad);
  }

  lemma CalmInvoke(s: State, k: Kind, bad: nat -> bool)
    requires k.User? ==> !bad(k.m)
    ensures InvokeMsg(s, k, UserOracle(bad)) == Log(s, k)
  {
  }

  lemma {:induction false} StartIs(s: State, t: State, o: Oracle)
    requires Registers(InvokeMsg(s.(receiver := s.receiver + 1), Initialized, o)) == t
    ensures Start(s, o) == Emit(InvokeMsg(t, Started, o), ActorStarted)
  {
  }

  /** What a Start in which nothing panics announces, with p deliveries before it. */
  function OpeningEvents(r: nat, p: nat): seq<Announcement> {
    [Announcement(ActorInitialized, p + 1, r > 1), Announcement(ActorStarted, p + 2, true)]
  }

  /** A Start in which nothing panics. */
  function Opened(s: State): State {
    s.(receiver := s.receiver + 1, registered := true, log := s.log + Opening(s.receiver + 1),
       events := s.events + OpeningEvents(s.receiver + 1, |s.log|))
  }

  lemma OpenedLog(s: State, t: State)
    requires s.registered <==> s.receiver > 0
    requires t == Registers(Log(s.(receiver := s.receiver + 1), Initialized))
    ensures Emit(Log(t, Started), ActorStarted) == Opened(s)
  {
    assert Log(t, Started).log == s.log + Opening(s.receiver + 1);
    assert Emit(Log(t, Started), ActorStarted).events == s.events + OpeningEvents(s.receiver + 1, |s.log|);
  }

  lemma {:induction false} CalmStart(s: State, bad: nat -> bool)
    requires s.registered <==> s.receiver > 0
    ensures Start(s, UserOracle(bad)) == Opened(s)
  {
    var r := s.(receiver := s.receiver + 1);
    var t := Registers(Log(r, Initialized));
    CalmInvoke(r, Initialized, bad);
    StartIs(s, t, UserOracle(bad));
    CalmInvoke(t, Started, bad);
    OpenedLog(s, t);
  }

  lemma CalmShutdown(s: State, bad: nat -> bool)
    ensures Shutdown(s, UserOracle(bad)) ==
              if s.stopped then s
              else Emit(Log(s, Stopped), ActorStopped).(stopped := true, registered := false, closed := true)
  {
    CalmInvoke(s.(stopped := true), Stopped, bad);
  }

  lemma {:induction false} FeedLog(max: nat, n: nat, bad: nat -> bool)
    ensures var s := Feed(Start(Fresh(max), UserOracle(bad)), Numbers(n), UserOracle(bad));
            s.log == Opening(1) + Entries(max, bad, n) && Tally(s, max, Bad(bad, n))
  {
    var o := UserOracle(bad);
    var s0 := Start(Fresh(max), o);
    if n == 0 {
      FirstLog(max, bad);
      assert Feed(s0, Numbers(0), o) == s0;
    } else {
      FeedLog(max, n - 1, bad);
      InvokeEntry(Feed(s0, Numbers(n - 1), o), n - 1, bad);
      FeedLast(s0, n, o);
      LongerLog(max, n, bad);
    }
  }

  lemma {:induction false} FirstLog(max: nat, bad: nat -> bool)
    ensures var s := Start(Fresh(max), UserOracle(bad)); s.log == Opening(1) && Tally(s, max, 0)
  {
    CalmStart(Fresh(max), bad);
  }

  lemma LongerLog(max: nat, n: nat, bad: nat -> bool)
    requires n > 0
    ensures Opening(1) + Entries(max, bad, n - 1) + Entry(max, bad, n - 1) == Opening(1) + Entries(max, bad, n)
  {
  }

  lemma FeedLast(s: State, n: nat, o: Oracle)
    requires n > 0
    ensures Feed(s, Numbers(n), o) == InvokeMsg(Feed(s, Numbers(n - 1), o), User(n - 1), o)
  {
    assert Numbers(n)[..n - 1] == Numbers(n - 1);
  }

  /** Receiver, restart count and stop flag after b bad messages. */
  predicate Tally(s: State, max: nat, b: nat) {
    && s.max == max && s.receiver == 1 + Min(max, b) && s.restarts == (if max == 0 then 0 else b)
    && (s.stopped <==> b > max) && (s.registered <==> b <= max)
  }

  lemma {:induction false} InvokeEntry(s: State, j: nat, bad: nat -> bool)
    requires Tally(s, s.max, Bad(bad, j))
    ensures var s' := InvokeMsg(s, User(j), UserOracle(bad));
            s'.log == s.log + Entry(s.max, bad, j) && Tally(s', s.max, Bad(bad, j + 1))
  {
    var o, t := UserOracle(bad), Log(s, User(j));
    if !bad(j) {
      CalmInvoke(s, User(j), bad);
    } else {
      assert InvokeMsg(s, User(j), o) == TryRestart(t, o);
      var u := if s.max == 0 then t else t.(restarts := t.restarts + 1);
      if Bad(bad, j) < s.max {
        CalmStart(Retry(u), bad);
        assert TryRestart(t, o) == Start(Retry(u), o);
      } else {
        CalmShutdown(u, bad);
        assert TryRestart(t, o) == Shutdown(u, o);
      }
    }
  }
}
