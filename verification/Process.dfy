/** The process of process.go as an object: the supervision methods in place, and the batch loop of Invoke. */
module Process {
  import opened Wrappers
  import opened Pids
  import opened Supervision
  import opened SupervisionLog

  /** What a batch holds: envelopes for the actor, and poison pills for the engine. */
  datatype Envelope = Message(m: nat) | PoisonPill(w: Waiter)

  /** One Poison caller's context. */
  type Waiter = nat

  /** Where Invoke leaves a batch: its first pill, or its end. */
  function FirstPill(msgs: seq<Envelope>): (k: nat)
    ensures k <= |msgs| && (k < |msgs| ==> msgs[k].PoisonPill?)
    ensures forall i :: 0 <= i < k ==> msgs[i].Message?
  {
    if msgs == [] || msgs[0].PoisonPill? then 0 else 1 + FirstPill(msgs[1..])
  }

  function Bodies(msgs: seq<Envelope>): (b: seq<nat>)
    requires forall i :: 0 <= i < |msgs| ==> msgs[i].Message?
  {
    seq(|msgs|, i requires 0 <= i < |msgs| => msgs[i].m)
  }

  /** A batch delivers everything before its first pill, and a pill shuts the actor down. */
  function InvokeSpec(s: State, msgs: seq<Envelope>, o: Oracle): State {
    var k := FirstPill(msgs);
    Finish(Feed(s, Bodies(msgs[..k]), o), k < |msgs|, o)
  }

  function Finish(s: State, pill: bool, o: Oracle): State { if pill then Shutdown(s, o) else s }

  lemma {:induction false} FeedAppend(s: State, a: seq<nat>, b: seq<nat>, o: Oracle)
    ensures Feed(s, a + b, o) == Feed(Feed(s, a, o), b, o)
  {
    if b == [] {
      assert a + b == a;
    } else {
      var n := |b| - 1;
      assert (a + b)[..|a + b| - 1] == a + b[..n];
      FeedAppend(s, a, b[..n], o);
    }
  }

  lemma {:induction false} PillAppend(a: seq<Envelope>, b: seq<Envelope>)
    requires FirstPill(a) == |a|
    ensures FirstPill(a + b) == |a| + FirstPill(b)
  {
    if a == [] {
      assert a + b == b;
    } else {
      assert (a + b)[1..] == a[1..] + b;
      PillAppend(a[1..], b);
    }
  }

  lemma BodiesAppend(a: seq<Envelope>, b: seq<Envelope>)
    requires FirstPill(a) == |a| && FirstPill(b) == |b|
    ensures FirstPill(a + b) == |a + b| && Bodies(a + b) == Bodies(a) + Bodies(b)
  {
    PillAppend(a, b);
  }

  lemma {:induction false} PillAt(msgs: seq<Envelope>, k: nat)
    requires k <= FirstPill(msgs)
    ensures FirstPill(msgs[..k]) == k
  {
    if k > 0 {
      assert msgs[..k][1..] == msgs[1..][..k - 1];
      PillAt(msgs[1..], k - 1);
    }
  }

  lemma WholeBatch(s: State, a: seq<Envelope>, o: Oracle)
    requires FirstPill(a) == |a|
    ensures InvokeSpec(s, a, o) == Feed(s, Bodies(a), o)
  {
    assert a[..|a|] == a;
  }

  lemma Joined(a: seq<Envelope>, b: seq<Envelope>)
    requires FirstPill(a) == |a|
    ensures var k := FirstPill(b);
            && FirstPill(a + b) == |a| + k
            && Bodies((a + b)[..|a| + k]) == Bodies(a) + Bodies(b[..k])
  {
    var k := FirstPill(b);
    PillAppend(a, b);
    PillAt(b, k);
    BodiesAppend(a, b[..k]);
    assert (a + b)[..|a| + k] == a + b[..k];
  }

  /** Where the inbox cuts its batches makes no difference to the actor. */
  lemma {:induction false} BatchBoundaries(s: State, a: seq<Envelope>, b: seq<Envelope>, o: Oracle)
    requires FirstPill(a) == |a|
    ensures InvokeSpec(s, a + b, o) == InvokeSpec(InvokeSpec(s, a, o), b, o)
  {
    Joined(a, b);
    WholeBatch(s, a, o);
    FeedAppend(s, Bodies(a), Bodies(b[..FirstPill(b)]), o);
  }

  // ---------------------------------------------------------------- every batch of a mailbox

  function Flat(batches: seq<seq<Envelope>>): seq<Envelope> {
    if batches == [] then [] else batches[0] + Flat(batches[1..])
  }

  /** The inbox hands out batch after batch until it is closed (inbox.go:161-184). */
  function InvokeAll(s: State, batches: seq<seq<Envelope>>, o: Oracle): State
    decreases |batches|
  {
    if batches == [] || s.closed then s else InvokeAll(InvokeSpec(s, batches[0], o), batches[1..], o)
  }

  /** How many batches get handed out. */
  function Handed(s: State, batches: seq<seq<Envelope>>, o: Oracle): (n: nat)
    ensures n <= |batches|
    ensures n < |batches| ==> InvokeAll(s, batches, o).closed
    decreases |batches|
  {
    if batches == [] || s.closed then 0 else 1 + Handed(InvokeSpec(s, batches[0], o), batches[1..], o)
  }

  /** However the mailbox is cut into batches, the actor ends as if what was handed out had come in one. */
  lemma {:induction false} BatchingInvisible(s: State, batches: seq<seq<Envelope>>, o: Oracle)
    requires s.closed <==> s.stopped
    ensures InvokeAll(s, batches, o) == InvokeSpec(s, Flat(batches[..Handed(s, batches, o)]), o)
    decreases |batches|
  {
    if batches == [] || s.closed { return; }
    var b, rest := batches[0], batches[1..];
    var t := InvokeSpec(s, b, o);
    var n := Handed(t, rest, o);
    BatchingInvisible(t, rest, o);
    assert batches[..1 + n][0] == b && batches[..1 + n][1..] == rest[..n];
    if FirstPill(b) == |b| {
      BatchBoundaries(s, b, Flat(rest[..n]), o);
    } else {
      assert t.closed && n == 0;
      assert b + Flat(rest[..0]) == b;
    }
  }

  /**
   Graceful stop, for every panic oracle and every way of cutting the mailbox into batches: the actor's user
   messages are exactly what was handed out before the first pill, each once and in push order, and a pill among
   what was handed out has stopped the actor, so that nothing behind it is delivered.
   */
  lemma GracefulStop(s: State, batches: seq<seq<Envelope>>, o: Oracle)
    requires s.closed <==> s.stopped
    ensures var n, s' := Handed(s, batches, o), InvokeAll(s, batches, o);
            var out := Flat(batches[..n]);
            var k := FirstPill(out);
            && Users(s'.log) == Users(s.log) + Bodies(out[..k])
            && (n < |batches| || k < |out| ==> s'.stopped && s'.closed)
            && out <= Flat(batches)
  {
    var n := Handed(s, batches, o);
    var out := Flat(batches[..n]);
    var k := FirstPill(out);
    BatchingInvisible(s, batches, o);
    FlatPrefix(batches, n);
    var t := Feed(s, Bodies(out[..k]), o);
    FeedUsers(s, Bodies(out[..k]), o);
    ShutdownUsers(t, o);
  }

  lemma {:induction false} FlatPrefix(batches: seq<seq<Envelope>>, n: nat)
    requires n <= |batches|
    ensures Flat(batches[..n]) <= Flat(batches)
  {
    if n > 0 {
      assert batches[..n][1..] == batches[1..][..n - 1];
      FlatPrefix(batches[1..], n - 1);
    }
  }

  // ---------------------------------------------------------------- the delivery log of a whole mailbox

  /** User messages go by their place in the mailbox. */
  ghost predicate Numbered(msgs: seq<Envelope>) {
    forall i :: 0 <= i < |msgs| && msgs[i].Message? ==> msgs[i].m == i
  }

  /** One batch handed to a new actor whose lifecycle handlers do not panic: its log, and whether it is closed then. */
  lemma {:induction false} BatchLog(max: nat, msgs: seq<Envelope>, bad: nat -> bool)
    requires Numbered(msgs)
    ensures var o := UserOracle(bad);
            var s, k := InvokeSpec(Start(Fresh(max), o), msgs, o), FirstPill(msgs);
            && s.log == Opening(1) + Entries(max, bad, k) +
                        (if k < |msgs| && Bad(bad, k) <= max then [Delivery(Stopped, 1 + Bad(bad, k), true)] else [])
            && (s.closed <==> k < |msgs| || Bad(bad, k) > max)
  {
    var k := FirstPill(msgs);
    BatchIsLife(max, msgs, UserOracle(bad));
    LifecycleLog(max, k, k < |msgs|, bad);
    LifeCloses(max, k, k < |msgs|, bad);
  }

  lemma {:induction false} BatchIsLife(max: nat, msgs: seq<Envelope>, o: Oracle)
    requires Numbered(msgs)
    ensures var k := FirstPill(msgs); InvokeSpec(Start(Fresh(max), o), msgs, o) == Life(max, Numbers(k), k < |msgs|, o)
  {
    var k := FirstPill(msgs);
    assert Bodies(msgs[..k]) == Numbers(k);
  }

  /** What a mailbox cut into these batches hands to a new actor. */
  function Out(max: nat, batches: seq<seq<Envelope>>, o: Oracle): seq<Envelope> {
    Flat(batches[..Handed(Start(Fresh(max), o), batches, o)])
  }

  /** The user messages among them that are delivered, up to the first pill. */
  function Delivered(out: seq<Envelope>): seq<nat> { Bodies(out[..FirstPill(out)]) }

  function HasPill(out: seq<Envelope>): bool { FirstPill(out) < |out| }

  /** For every oracle and cutting, a mailbox is one life: all that is proved of lives holds of mailboxes. */
  lemma {:induction false} MailboxIsLife(max: nat, batches: seq<seq<Envelope>>, o: Oracle)
    ensures var out := Out(max, batches, o);
            InvokeAll(Start(Fresh(max), o), batches, o) == Life(max, Delivered(out), HasPill(out), o)
  {
    BatchingInvisible(Start(Fresh(max), o), batches, o);
  }

  lemma {:induction false} NumbersDelivered(out: seq<Envelope>)
    requires Numbered(out)
    ensures Delivered(out) == Numbers(FirstPill(out))
  {
  }

  lemma {:induction false} NumberedMailbox(max: nat, batches: seq<seq<Envelope>>, o: Oracle)
    requires Numbered(Flat(batches))
    ensures var out := Out(max, batches, o);
            InvokeAll(Start(Fresh(max), o), batches, o) == Life(max, Numbers(FirstPill(out)), HasPill(out), o)
  {
    FlatPrefix(batches, Handed(Start(Fresh(max), o), batches, o));
    NumbersDelivered(Out(max, batches, o));
    MailboxIsLife(max, batches, o);
  }

  /** For every oracle and cutting: exactly when Stopped is the last thing the actor was handed. */
  lemma {:induction false} StoppedLastInMailbox(max: nat, batches: seq<seq<Envelope>>, o: Oracle)
    ensures var out := Out(max, batches, o);
            EndsStopped(InvokeAll(Start(Fresh(max), o), batches, o).log) <==>
            StopsLast(max, Delivered(out), HasPill(out), o)
  {
    var out := Out(max, batches, o);
    MailboxIsLife(max, batches, o);
    StoppedLastIff(max, Delivered(out), HasPill(out), o);
  }

  /** When lifecycle handlers do not panic: a pill delivered it, or the fatal message was the last one handed out. */
  lemma {:induction false} StoppedLastInCalmMailbox(max: nat, batches: seq<seq<Envelope>>, bad: nat -> bool)
    requires Numbered(Flat(batches))
    ensures var o := UserOracle(bad);
            var out := Out(max, batches, o);
            var k := FirstPill(out);
            EndsStopped(InvokeAll(Start(Fresh(max), o), batches, o).log) <==>
            (k < |out| && Bad(bad, k) <= max) || GivesUpAtLast(max, bad, k)
  {
    var out := Out(max, batches, UserOracle(bad));
    NumberedMailbox(max, batches, UserOracle(bad));
    StoppedLastCalm(max, FirstPill(out), HasPill(out), bad);
  }

  /** For every oracle and cutting: a predecessor had its Stopped if and only if that Stopped is what panicked. */
  lemma {:induction false} PredecessorInMailbox(max: nat, batches: seq<seq<Envelope>>, o: Oracle, i: nat)
    requires var log := InvokeAll(Start(Fresh(max), o), batches, o).log; 0 < i < |log| && log[i].kind.Initialized?
    ensures var log := InvokeAll(Start(Fresh(max), o), batches, o).log;
            PredecessorStopped(log, i) <==> log[i - 1].kind.Stopped?
  {
    var out := Out(max, batches, o);
    MailboxIsLife(max, batches, o);
    PredecessorStoppedIff(max, Delivered(out), HasPill(out), o, i);
  }

  /** While batches are still handed out, the mailbox so far has not closed the inbox. */
  lemma {:induction false} StillOpen(s: State, batches: seq<seq<Envelope>>, o: Oracle, j: nat)
    requires j < Handed(s, batches, o)
    ensures Handed(s, batches[..j], o) == j && !InvokeAll(s, batches[..j], o).closed
    decreases j
  {
    if j > 0 {
      assert batches[..j][1..] == batches[1..][..j - 1];
      StillOpen(InvokeSpec(s, batches[0], o), batches[1..], o, j - 1);
    }
  }

  /**
   The delivery log of every mailbox, every cutting into batches and every pattern of user panics: what is handed out
   ends with the batch that holds the first pill or the panic beyond the budget, and the log is that of its messages
   up to the first pill. A give-up leaves the rest of its batch to be delivered and no later batch.
   */
  lemma {:induction false} MailboxLog(max: nat, batches: seq<seq<Envelope>>, bad: nat -> bool)
    requires Numbered(Flat(batches))
    ensures var o := UserOracle(bad);
            var s := Start(Fresh(max), o);
            var n := Handed(s, batches, o);
            var out := Flat(batches[..n]);
            var k := FirstPill(out);
            && InvokeAll(s, batches, o).log ==
                 Opening(1) + Entries(max, bad, k) +
                 (if k < |out| && Bad(bad, k) <= max then [Delivery(Stopped, 1 + Bad(bad, k), true)] else [])
            && (n < |batches| ==> k < |out| || Bad(bad, k) > max)
            && forall j :: 0 <= j < n ==>
                 var before := Flat(batches[..j]); FirstPill(before) == |before| && Bad(bad, |before|) <= max
  {
    var o := UserOracle(bad);
    var s := Start(Fresh(max), o);
    var n := Handed(s, batches, o);
    CalmStart(Fresh(max), bad);
    BatchingInvisible(s, batches, o);
    FlatPrefix(batches, n);
    BatchLog(max, Flat(batches[..n]), bad);
    forall j | 0 <= j < n
      ensures var before := Flat(batches[..j]); FirstPill(before) == |before| && Bad(bad, |before|) <= max
    {
      NotYetClosed(max, batches, bad, j);
    }
  }

  lemma {:induction false} NotYetClosed(max: nat, batches: seq<seq<Envelope>>, bad: nat -> bool, j: nat)
    requires Numbered(Flat(batches)) && j < Handed(Start(Fresh(max), UserOracle(bad)), batches, UserOracle(bad))
    ensures var before := Flat(batches[..j]); FirstPill(before) == |before| && Bad(bad, |before|) <= max
  {
    var o := UserOracle(bad);
    var s := Start(Fresh(max), o);
    StillOpen(s, batches, o, j);
    BatchingInvisible(s, batches[..j], o);
    assert batches[..j][..j] == batches[..j];
    FlatPrefix(batches, j);
    BatchLog(max, Flat(batches[..j]), bad);
  }

  /** The first i envelopes of a batch delivered. */
  function Walked(s: State, msgs: seq<Envelope>, i: nat, o: Oracle): State
    requires i <= FirstPill(msgs)
  {
    Feed(s, Bodies(msgs[..i]), o)
  }

  lemma {:induction false} WalkOne(s: State, msgs: seq<Envelope>, i: nat, o: Oracle)
    requires i < FirstPill(msgs)
    ensures Walked(s, msgs, i + 1, o) == InvokeMsg(Walked(s, msgs, i, o), User(msgs[i].m), o)
  {
    var b := Bodies(msgs[..i + 1]);
    assert b[..i] == Bodies(msgs[..i]) && b[i] == msgs[i].m;
  }

  // ---------------------------------------------------------------- the object

  /** A waiter's context cancelled, and how the process stood then. */
  datatype Fired = Fired(w: Waiter, at: State)

  /** A child poisoned, and how the process stood then. */
  datatype Poisoned = Poisoned(child: Id, at: State)

  function FireAll(taken: seq<Waiter>, at: State): seq<Fired> {
    seq(|taken|, i requires 0 <= i < |taken| => Fired(taken[i], at))
  }

  function PoisonAll(ids: seq<Id>, at: State): seq<Poisoned> {
    seq(|ids|, i requires 0 <= i < |ids| => Poisoned(ids[i], at))
  }

  /** Stopped delivered, the PID unregistered, the inbox closed. */
  predicate IsGone(s: State) { s.stopped && s.closed && !s.registered && HasStopped(s.log) }

  /** The taken waiters, and nobody else, were cancelled since `was`, in order, each finding the process gone. */
  predicate Freed(was: seq<Fired>, now: seq<Fired>, taken: seq<Waiter>) {
    && |now| == |was| + |taken| && was <= now
    && forall i :: 0 <= i < |taken| ==> now[|was| + i].w == taken[i] && IsGone(now[|was| + i].at)
  }

  /** The process left its parent's set once since `was`, and Stopped was the next thing delivered. */
  predicate LeftBeforeStopped(was: seq<nat>, now: seq<nat>, log: seq<Delivery>) {
    && |now| == |was| + 1 && was <= now
    && now[|was|] < |log| && log[now[|was|]].kind.Stopped?
  }

  /** What a process holds beside its supervision state: waiters, and its place in the parent's set. */
  datatype Side = Side(cancels: seq<Waiter>, cancelled: seq<Fired>, left: seq<nat>, siblings: set<Id>)

  /** What setting the stop flag (if `first`) makes of it. */
  predicate Released(b: Side, a: Side, first: bool, resolves: bool, id: Id, log: seq<Delivery>) {
    && a.cancels == (if first then [] else b.cancels)
    && Freed(b.cancelled, a.cancelled, if first then b.cancels else [])
    && if first && resolves then LeftBeforeStopped(b.left, a.left, log) && a.siblings == b.siblings - {id}
       else a.left == b.left && a.siblings == b.siblings
  }

  lemma {:induction false} ReleasedTwice(b: Side, m: Side, a: Side, f: bool, g: bool, resolves: bool, id: Id,
                                         log: seq<Delivery>, log': seq<Delivery>)
    requires Released(b, m, f, resolves, id, log) && Released(m, a, g, resolves, id, log') && !(f && g) && log <= log'
    ensures Released(b, a, f || g, resolves, id, log')
  {
    if !f { FreedNone(b.cancelled, m.cancelled); }
    if !g { FreedNone(m.cancelled, a.cancelled); }
  }

  /** The side state once the stop is claimed, with p deliveries made. */
  function Claimed(b: Side, resolves: bool, id: Id, p: nat): Side {
    if resolves then Side([], b.cancelled, b.left + [p], b.siblings - {id}) else b.(cancels := [])
  }

  /** Claim, deliver Stopped, and fire what was claimed: that is what a first stop owes. */
  lemma {:induction false} StopReleases(b: Side, c: Side, d: Side, a: Side, resolves: bool, id: Id, p: nat,
                                        log: seq<Delivery>, at: State)
    requires c == Claimed(b, resolves, id, p) && Released(c, d, false, resolves, id, log) && IsGone(at)
    requires a == d.(cancelled := d.cancelled + FireAll(b.cancels, at)) && p < |log| && log[p].kind.Stopped?
    ensures Released(b, a, true, resolves, id, log)
  {
    FreedNone(c.cancelled, d.cancelled);
  }

  /** And a pill's own waiter is fired last, in state `at`. */
  predicate EndedBy(b: Side, a: Side, w: Waiter, at: State, first: bool, resolves: bool, id: Id, log: seq<Delivery>) {
    && a.cancelled != [] && a.cancelled[|a.cancelled| - 1] == Fired(w, at)
    && Released(b, a.(cancelled := a.cancelled[..|a.cancelled| - 1]), first, resolves, id, log)
  }

  lemma {:induction false} EndedLater(b: Side, m: Side, a: Side, w: Waiter, at: State, f: bool, g: bool, resolves: bool,
                                      id: Id, log: seq<Delivery>, log': seq<Delivery>)
    requires Released(b, m, f, resolves, id, log) && EndedBy(m, a, w, at, g, resolves, id, log')
    requires !(f && g) && log <= log'
    ensures EndedBy(b, a, w, at, f || g, resolves, id, log')
  {
    ReleasedTwice(b, m, a.(cancelled := a.cancelled[..|a.cancelled| - 1]), f, g, resolves, id, log, log');
  }

  lemma {:induction false} FreedNone(was: seq<Fired>, now: seq<Fired>)
    requires Freed(was, now, [])
    ensures now == was
  {
  }

  lemma {:induction false} SpecIsWalk(s: State, msgs: seq<Envelope>, o: Oracle)
    ensures var k := FirstPill(msgs); InvokeSpec(s, msgs, o) == Finish(Walked(s, msgs, k, o), k < |msgs|, o)
  {
  }

  lemma {:induction false} DeliversStopped(s: State, o: Oracle)
    ensures var log := InvokeMsg(s, Stopped, o).log;
            |s.log| < |log| && log[|s.log|].kind.Stopped? && HasStopped(log)
  {
    var t := Log(s, Stopped);
    assert t.log[|s.log|].kind.Stopped?;
    assert t.log <= InvokeMsg(s, Stopped, o).log;
  }

  class Process {
    const id: Id
    const parent: Process?
    const max: nat
    const panics: Oracle
    var receiver: nat
    var restarts: nat
    var stopped: bool
    var registered: bool
    var closed: bool
    var cancels: seq<Waiter>
    var children: set<Id>
    // history
    var log: seq<Delivery>
    var events: seq<Announcement>  // broadcasts
    var cancelled: seq<Fired>      // calls of a CancelFunc
    var poisoned: seq<Poisoned>    // calls of Poison
    var left: seq<nat>             // removals from the parent's set, by how many deliveries came before

    function Abs(): State
      reads this
    {
      State(max, receiver, restarts, stopped, registered, closed, log, events)
    }

    ghost function Family(): set<Process> { if parent == null then {} else {parent} }

    function SideOf(): Side
      reads this, parent
    {
      Side(cancels, cancelled, left, if parent == null then {} else parent.children)
    }

    predicate Resolves()
      reads parent
    {
      parent != null && parent.registered
    }

    /**
     Whoever sets the stop flag, however deep in the recursion, cancels every waiter held so far, once, each finding the
     process gone; and takes it out of its parent's child set, if the parent resolves, right before Stopped.
     */
    twostate predicate Releases()
      reads this, parent
    {
      Released(old(SideOf()), SideOf(), stopped && !old(stopped), old(Resolves()), id, log)
    }

    /** The same through a pill reached in state `from`: every child is poisoned in that state, its own waiter last. */
    twostate predicate EndsBy(w: Waiter, from: State, ids: seq<Id>)
      reads this, parent
    {
      && EndedBy(old(SideOf()), SideOf(), w, Abs(), stopped && !old(stopped), old(Resolves()), id, log)
      && Lists(ids, old(children)) && poisoned == old(poisoned) + PoisonAll(ids, from)
    }

    constructor (id: Id, parent: Process?, max: nat, panics: Oracle)
      ensures this.id == id && this.parent == parent && this.max == max && this.panics == panics
      ensures Abs() == Fresh(max) && cancels == [] && cancelled == [] && children == {} && poisoned == [] && left == []
    {
      this.id, this.parent, this.max, this.panics := id, parent, max, panics;
      receiver, restarts, stopped, registered, closed := 0, 0, false, false, false;
      cancels, children, log, events, cancelled, poisoned, left := [], {}, [], [], [], [], [];
    }

    /** process.go:203-211: a waiter is accepted exactly while the stop flag is clear. */
    method AddCancel(w: Waiter) returns (ok: bool)
      modifies this`cancels
      ensures ok == !stopped && cancels == if ok then old(cancels) + [w] else old(cancels)
    {
      if stopped { return false; }
      cancels := cancels + [w];
      ok := true;
    }

    method Broadcast(e: Event)
      modifies this`events
      ensures Abs() == Emit(old(Abs()), e)
    {
      events := events + [Announcement(e, |log|, registered)];
    }

    /** process.go:268-280. */
    method InvokeMsg(k: Kind)
      requires parent != this
      modifies this`receiver, this`restarts, this`stopped, this`registered, this`closed, this`cancels, this`log,
               this`events, this`cancelled, this`left, Family()`children
      ensures Abs() == Supervision.InvokeMsg(old(Abs()), k, panics) && Releases()
      decreases Budget(Abs()), Open(Abs()), 2
    {
      var n := |log|;
      log := log + [Delivery(k, receiver, registered)];
      if panics(n, k) { TryRestart(); }
    }

    /** process.go:287-335. */
    method TryRestart()
      requires parent != this
      modifies this`receiver, this`restarts, this`stopped, this`registered, this`closed, this`cancels, this`log,
               this`events, this`cancelled, this`left, Family()`children
      ensures Abs() == Supervision.TryRestart(old(Abs()), panics) && Releases()
      decreases Budget(Abs()), Open(Abs()), 1
    {
      if max == 0 {
        Shutdown();
        return;
      }
      restarts := restarts + 1;
      if restarts > max {
        Shutdown();
        return;
      }
      Broadcast(ActorRestarted(restarts));
      Start();
    }

    /** process.go:137-152. */
    method Start()
      requires parent != this
      modifies this`receiver, this`restarts, this`stopped, this`registered, this`closed, this`cancels, this`log,
               this`events, this`cancelled, this`left, Family()`children
      ensures Abs() == Supervision.Start(old(Abs()), panics) && Releases()
      decreases Budget(Abs()), Open(Abs()), 4
    {
      ghost var t, u := StartParts(Abs(), panics);
      BringUp();
      ghost var side, was, before := SideOf(), stopped, log;
      InvokeMsg(Started);
      assert Abs() == u;
      ReleasedTwice(old(SideOf()), side, SideOf(), was && !old(stopped), stopped && !was, old(Resolves()), id,
                    before, log);
      Broadcast(ActorStarted);
    }

    /** process.go:138-148: up to and including registration. */
    method BringUp()
      requires parent != this
      modifies this`receiver, this`restarts, this`stopped, this`registered, this`closed, this`cancels, this`log,
               this`events, this`cancelled, this`left, Family()`children
      ensures Abs() == Registers(Supervision.InvokeMsg(old(Abs()).(receiver := old(receiver) + 1), Initialized, panics))
      ensures Releases()
      decreases Budget(Abs()), Open(Abs()), 3
    {
      receiver := receiver + 1;
      InvokeMsg(Initialized);
      Broadcast(ActorInitialized);
      registered := true;
    }

    /** process.go:228-257. */
    method Shutdown()
      requires parent != this
      modifies this`receiver, this`restarts, this`stopped, this`registered, this`closed, this`cancels, this`log,
               this`events, this`cancelled, this`left, Family()`children
      ensures Abs() == Supervision.Shutdown(old(Abs()), panics) && Releases()
      decreases Budget(Abs()), Open(Abs()), 0
    {
      if stopped { return; }
      var taken := Claim();
      ghost var s, claimed := Abs(), SideOf();
      InvokeMsg(Stopped);
      DeliversStopped(s, panics);
      ghost var side := SideOf();
      Depart(taken);
      StopReleases(old(SideOf()), claimed, side, SideOf(), old(Resolves()), id, |s.log|, log, Abs());
    }

    /** process.go:234-247: the stop flag and the waiters under one lock, then the parent's set. */
    method Claim() returns (taken: seq<Waiter>)
      requires parent != this
      modifies this`stopped, this`cancels, this`left, Family()`children
      ensures Abs() == old(Abs()).(stopped := true) && taken == old(cancels)
      ensures SideOf() == Claimed(old(SideOf()), Resolves(), id, |log|)
    {
      stopped := true;
      taken := cancels;
      cancels := [];
      LeaveParent();
    }

    /** process.go:241-247. */
    method LeaveParent()
      requires parent != this
      modifies this`left, Family()`children
      ensures if Resolves() then left == old(left) + [|log|] && parent.children == old(parent.children) - {id}
              else left == old(left) && (parent != null ==> parent.children == old(parent.children))
    {
      if parent != null && parent.registered {
        parent.children := parent.children - {id};
        left := left + [|log|];
      }
    }

    /** process.go:250-256: the broadcast, the registry, the inbox, and the waiters last. */
    method Depart(taken: seq<Waiter>)
      modifies this`registered, this`closed, this`events, this`cancelled
      ensures Abs() == Emit(old(Abs()), ActorStopped).(registered := false, closed := true)
      ensures cancelled == old(cancelled) + FireAll(taken, Abs())
    {
      Broadcast(ActorStopped);
      registered := false;
      closed := true;
      CancelAll(taken);
    }

    /** process.go:254-256. */
    method CancelAll(taken: seq<Waiter>)
      modifies this`cancelled
      ensures cancelled == old(cancelled) + FireAll(taken, Abs())
    {
      for i := 0 to |taken|
        invariant cancelled == old(cancelled) + FireAll(taken[..i], Abs())
      {
        assert FireAll(taken[..i + 1], Abs()) == FireAll(taken[..i], Abs()) + [Fired(taken[i], Abs())];
        cancelled := cancelled + [Fired(taken[i], Abs())];
      }
      assert taken[..|taken|] == taken;
    }

    /** process.go:116-131: every child in the snapshot is poisoned, in any order. The wait is not modelled here. */
    method ShutdownChildren() returns (ids: seq<Id>)
      modifies this`poisoned
      ensures Lists(ids, children) && poisoned == old(poisoned) + PoisonAll(ids, Abs())
    {
      ids := [];
      var todo := children;
      while todo != {}
        invariant todo <= children && Lists(ids, children - todo)
        invariant poisoned == old(poisoned) + PoisonAll(ids, Abs())
        decreases |todo|
      {
        var k :| k in todo;
        ListsOneMore(ids, children - todo, k);
        assert children - (todo - {k}) == children - todo + {k};
        assert PoisonAll(ids + [k], Abs()) == PoisonAll(ids, Abs()) + [Poisoned(k, Abs())];
        ids, poisoned := ids + [k], poisoned + [Poisoned(k, Abs())];
        todo := todo - {k};
      }
      assert children - {} == children;
    }

    /** process.go:186-192. */
    method HandlePoison(w: Waiter) returns (ids: seq<Id>)
      requires parent != this
      modifies this`receiver, this`restarts, this`stopped, this`registered, this`closed, this`cancels, this`log,
               this`events, this`cancelled, this`left, this`poisoned, Family()`children
      ensures Abs() == Supervision.Shutdown(old(Abs()), panics) && EndsBy(w, old(Abs()), ids)
    {
      ids := ShutdownChildren();
      Shutdown();
      CancelAll([w]);
    }

    /** process.go:170-178: each envelope in turn, up to the first pill, which ends the batch. */
    method Invoke(msgs: seq<Envelope>) returns (ids: seq<Id>)
      requires parent != this
      modifies this`receiver, this`restarts, this`stopped, this`registered, this`closed, this`cancels, this`log,
               this`events, this`cancelled, this`left, this`poisoned, Family()`children
      ensures Abs() == InvokeSpec(old(Abs()), msgs, panics)
      ensures var k := FirstPill(msgs);
              if k < |msgs| then EndsBy(msgs[k].w, Walked(old(Abs()), msgs, k, panics), ids)
              else Releases() && poisoned == old(poisoned)
    {
      SpecIsWalk(old(Abs()), msgs, panics);
      var k := Walk(msgs);
      ids := [];
      if k < |msgs| {
        ghost var side, was, before := SideOf(), stopped, log;
        ids := HandlePoison(msgs[k].w);
        EndedLater(old(SideOf()), side, SideOf(), msgs[k].w, Abs(), was && !old(stopped), stopped && !was,
                   old(Resolves()), id, before, log);
      }
    }

    /** The loop of Invoke, up to the first pill. */
    method Walk(msgs: seq<Envelope>) returns (i: nat)
      requires parent != this
      modifies this`receiver, this`restarts, this`stopped, this`registered, this`closed, this`cancels, this`log,
               this`events, this`cancelled, this`left, Family()`children
      ensures i == FirstPill(msgs) && Abs() == Walked(old(Abs()), msgs, i, panics) && Releases()
    {
      i := 0;
      while i < |msgs| && !msgs[i].PoisonPill?
        invariant 0 <= i <= FirstPill(msgs)
        invariant Abs() == Walked(old(Abs()), msgs, i, panics) && Releases() && Resolves() == old(Resolves())
      {
        ghost var side, was, before := SideOf(), stopped, log;
        WalkOne(old(Abs()), msgs, i, panics);
        InvokeMsg(User(msgs[i].m));
        ReleasedTwice(old(SideOf()), side, SideOf(), was && !old(stopped), stopped && !was, old(Resolves()), id,
                      before, log);
        i := i + 1;
      }
    }
  }
}
