/** What a run's labels say of its states: what reaches a mailbox, what starts first, and what a close ends. */
module LifecycleHistory {
  import opened Wrappers
  import opened Pids
  import opened Lifecycle
  import opened LifecycleInv
  import opened CascadeInv
  import opened LifecycleTheorems

  // ---------------------------------------------------------------- what reaches a mailbox

  /** The user messages of a mailbox, in order. */
  function Users(msgs: seq<Msg>): seq<int> {
    if msgs == [] then []
    else
      var m := msgs[|msgs| - 1];
      Users(msgs[..|msgs| - 1]) + if m.User? then [m.m] else []
  }

  /** What was sent to a, in order. */
  function Sends(labels: seq<Label>, a: Id): seq<int> {
    if labels == [] then []
    else
      var l := labels[|labels| - 1];
      Sends(labels[..|labels| - 1], a) + if l.LSend? && l.a == a then [l.m] else []
  }

  lemma UsersPush(msgs: seq<Msg>, m: Msg)
    ensures Users(msgs + [m]) == Users(msgs) + if m.User? then [m.m] else []
  {
    assert (msgs + [m])[..|msgs|] == msgs;
  }

  /** How a step changes the mailbox of a. */
  ghost predicate Arrives(s: Sys, s': Sys, l: Label, a: Id)
    requires a in s.act && a in s'.act
  {
    var p, p' := s.act[a].pushed, s'.act[a].pushed;
    if l.LSend? && l.a == a then p' == p + [User(l.m)]
    else if l.LCall? && l.w in s.calls && s.calls[l.w].pc.Deliver? && s.calls[l.w].target == a then
      p' == p + [Pill(l.w)]
    else p' == p
  }

  lemma OwnArrives(s: Sys, s': Sys, b: Id, a: Id)
    requires OwnStep(s, s', b) && a in s.act
    ensures a in s'.act && s'.act[a].pushed == s.act[a].pushed
  {
    if Private(s.act[b]) && a == b { PrivateArrives(s.act[b]); }
  }

  lemma PrivateArrives(x: Actor)
    requires Private(x)
    ensures PrivateNext(x).pushed == x.pushed
  {
  }

  lemma StepArrives(s: Sys, s': Sys, l: Label, a: Id)
    requires Step(s, s', l) && a in s.act
    ensures a in s'.act && Arrives(s, s', l, a)
  {
    if l.LOwn? { OwnArrives(s, s', l.a, a); }
  }

  lemma NewActor(s: Sys, s': Sys, l: Label, a: Id)
    requires Step(s, s', l) && a !in s.act && a in s'.act
    ensures s'.act[a].pushed == [] && InStart(s'.act[a].pc) && !(l.LSend? && l.a == a)
  {
    if l.LOwn? { OwnActors(s, s', l.a); }
  }

  lemma OwnActors(s: Sys, s': Sys, a: Id)
    requires OwnStep(s, s', a)
    ensures s'.act.Keys == s.act.Keys
  {
  }

  /** Every mailbox holds exactly the user messages sent to it, each once and in the order of the Sends. */
  lemma {:induction false} MailboxFromSends(run: seq<Sys>, labels: seq<Label>, i: nat, a: Id)
    requires SysRun(run, labels) && i < |run|
    ensures Sends(labels[..i], a) == if a in run[i].act then Users(run[i].act[a].pushed) else []
  {
    if i > 0 {
      MailboxFromSends(run, labels, i - 1, a);
      var l, s, s' := labels[i - 1], run[i - 1], run[i];
      assert Step(s, s', l);
      assert labels[..i][..i - 1] == labels[..i - 1];
      if a in s.act {
        StepArrives(s, s', l, a);
        if l.LSend? { UsersPush(s.act[a].pushed, User(l.m)); }
        if l.LCall? { UsersPush(s.act[a].pushed, Pill(l.w)); }
      } else if a in s'.act {
        NewActor(s, s', l, a);
      } else {
        assert !(l.LSend? && l.a == a);
      }
    }
  }

  /** Each pill in a mailbox belongs to a Poison of that actor that was accepted and has returned, and is there once. */
  ghost predicate PillsOk(pushed: seq<Msg>, a: Id, calls: map<Waiter, Call>) {
    && (forall i :: 0 <= i < |pushed| && pushed[i].Pill? ==> PillOf(calls, pushed[i].w, a))
    && (forall i, j :: 0 <= i < j < |pushed| && pushed[i].Pill? && pushed[j].Pill? ==> pushed[i].w != pushed[j].w)
  }

  predicate PillOf(calls: map<Waiter, Call>, w: Waiter, a: Id) {
    w in calls && calls[w].target == a && calls[w].accepted && calls[w].pc.Returned?
  }

  /** A call that has returned keeps what it was. */
  lemma ReturnedStays(s: Sys, s': Sys, l: Label, w: Waiter)
    requires Step(s, s', l) && w in s.calls && s.calls[w].pc.Returned?
    ensures w in s'.calls && s'.calls[w] == s.calls[w]
  {
    if l.LOwn? { OwnMono(s, s', l.a); OwnCalls(s, s', l.a); }
  }

  lemma OwnCalls(s: Sys, s': Sys, a: Id)
    requires OwnStep(s, s', a)
    ensures s'.calls == s.calls
  {
  }

  lemma {:induction false} PillsFromPoisons(run: seq<Sys>, labels: seq<Label>, i: nat, a: Id)
    requires SysRun(run, labels) && i < |run| && a in run[i].act
    ensures PillsOk(run[i].act[a].pushed, a, run[i].calls)
  {
    if i > 0 {
      var l, s, s' := labels[i - 1], run[i - 1], run[i];
      assert Step(s, s', l);
      if a in s.act {
        PillsFromPoisons(run, labels, i - 1, a);
        SysSafety(run, labels, i - 1);
        StepArrives(s, s', l, a);
        PillsStep(s, s', l, a);
      } else {
        NewActor(s, s', l, a);
      }
    }
  }

  lemma PillsStep(s: Sys, s': Sys, l: Label, a: Id)
    requires Waiters(s) && Step(s, s', l) && a in s.act && a in s'.act && Arrives(s, s', l, a)
    requires PillsOk(s.act[a].pushed, a, s.calls)
    ensures PillsOk(s'.act[a].pushed, a, s'.calls)
  {
    var p := s.act[a].pushed;
    forall i | 0 <= i < |p| && p[i].Pill? ensures PillOf(s'.calls, p[i].w, a) { ReturnedStays(s, s', l, p[i].w); }
    if l.LCall? && s.calls[l.w].pc.Deliver? && s.calls[l.w].target == a {
      assert CallOk(s, l.w);
      assert s'.calls[l.w] == s.calls[l.w].(pc := Returned);
    }
  }

  /** A Poison stays aimed at the actor it was called on. */
  lemma {:induction false} PoisonStaysAimed(run: seq<Sys>, labels: seq<Label>, i: nat, j: nat, w: Waiter, t: Id)
    requires SysRun(run, labels) && i < j < |run| && labels[i] == LPoison(w, t)
    ensures w in run[j].calls && run[j].calls[w].target == t
    decreases j
  {
    var l := labels[j - 1];
    assert Step(run[j - 1], run[j], l);
    if j > i + 1 {
      PoisonStaysAimed(run, labels, i, j - 1, w, t);
      StepMono(run[j - 1], run[j], l);
    }
  }

  /** The pill being handled is the one the walk stopped at. */
  predicate Carries(x: Actor) {
    Carried(x.pc).Some? ==>
      x.cut.Some? && x.cut.value < |x.pushed| && x.pushed[x.cut.value] == Pill(Carried(x.pc).value)
  }

  lemma PrivateCarries(x: Actor)
    requires Private(x) && Carries(x) && x.walk <= |x.pushed|
    ensures Carries(PrivateNext(x))
  {
  }

  lemma TearCarries(x: Actor)
    requires x.pc.Tear? && Carries(x)
    ensures Carries(TearNext(x))
  {
  }

  lemma OwnCarries(s: Sys, s': Sys, a: Id)
    requires OwnStep(s, s', a) && Carries(s.act[a]) && s.act[a].walk <= |s.act[a].pushed|
    ensures a in s'.act && Carries(s'.act[a])
  {
    if Private(s.act[a]) { PrivateCarries(s.act[a]); } else if s.act[a].pc.Tear? { TearCarries(s.act[a]); }
  }

  lemma OthersCarry(s: Sys, s': Sys, b: Id, a: Id)
    requires OwnStep(s, s', b) && a in s.act && a != b && Carries(s.act[a])
    ensures a in s'.act && Carries(s'.act[a])
  {
  }

  lemma CallCarries(s: Sys, s': Sys, w: Waiter, a: Id)
    requires CallStep(s, s', w) && a in s.act && Carries(s.act[a])
    ensures a in s'.act && Carries(s'.act[a])
  {
  }

  lemma StepCarries(s: Sys, s': Sys, l: Label, a: Id)
    requires Locals(s) && Step(s, s', l) && a in s.act && Carries(s.act[a])
    ensures a in s'.act && Carries(s'.act[a])
  {
    assert Local(s.act[a], a in s.reg);
    match l
    case LOwn(b) => if a == b { OwnCarries(s, s', a); } else { OthersCarry(s, s', b, a); }
    case LCall(w) => CallCarries(s, s', w, a);
    case _ => RestCarry(s, s', l, a);
  }

  lemma RestCarry(s: Sys, s': Sys, l: Label, a: Id)
    requires Step(s, s', l) && !l.LOwn? && !l.LCall? && a in s.act && Carries(s.act[a])
    ensures a in s'.act && Carries(s'.act[a])
  {
  }

  lemma {:induction false} CarriesOfRun(run: seq<Sys>, labels: seq<Label>, i: nat, a: Id)
    requires SysRun(run, labels) && i < |run| && a in run[i].act
    ensures Carries(run[i].act[a])
  {
    if i > 0 {
      var l := labels[i - 1];
      assert Step(run[i - 1], run[i], l);
      if a in run[i - 1].act {
        CarriesOfRun(run, labels, i - 1, a);
        SysSafety(run, labels, i - 1);
        StepCarries(run[i - 1], run[i], l, a);
      } else {
        NewActor(run[i - 1], run[i], l, a);
      }
    }
  }

  /** The last cancel of handlePoison is never the one that wakes its waiter: Shutdown has woken it already. */
  lemma SettledAlready(run: seq<Sys>, labels: seq<Label>, i: nat, a: Id)
    requires SysRun(run, labels) && i < |run| && a in run[i].act && run[i].act[a].pc.Settle?
    ensures run[i].act[a].pc.w in run[i].cancelled
  {
    SysSafety(run, labels, i);
    CarriesOfRun(run, labels, i, a);
    PillsFromPoisons(run, labels, i, a);
    var s := run[i];
    var w := s.act[a].pc.w;
    assert PillOf(s.calls, w, a);
    assert CallOk(s, w) && Local(s.act[a], a in s.reg);
  }

  // ---------------------------------------------------------------- what starts first

  predicate LastOfStart(s: Sys, a: Id) { a in s.act && s.act[a].pc.Starting? && s.act[a].got == [] }

  /** An actor past its start took the step out of Started: it was handed nothing before. */
  lemma {:induction false} StartsFirst(run: seq<Sys>, labels: seq<Label>, i: nat, a: Id)
    requires SysRun(run, labels) && i < |run| && a in run[i].act && !InStart(run[i].act[a].pc)
    ensures exists k: nat :: k < i && labels[k] == LOwn(a) && LastOfStart(run[k], a)
  {
    var l, s, s' := labels[i - 1], run[i - 1], run[i];
    assert Step(s, s', l);
    if a !in s.act {
      NewActor(s, s', l, a);
      assert false;
    } else if !InStart(s.act[a].pc) {
      StartsFirst(run, labels, i - 1, a);
    } else {
      SysSafety(run, labels, i - 1);
      LeavesStart(s, s', l, a);
    }
  }

  lemma LeavesStart(s: Sys, s': Sys, l: Label, a: Id)
    requires Locals(s) && Step(s, s', l) && a in s.act && a in s'.act && InStart(s.act[a].pc) && !InStart(s'.act[a].pc)
    ensures l == LOwn(a) && LastOfStart(s, a)
  {
    assert Local(s.act[a], a in s.reg);
    if l.LOwn? && l.a != a { OwnOthers(s, s', l.a, a); }
  }

  lemma OwnOthers(s: Sys, s': Sys, b: Id, a: Id)
    requires OwnStep(s, s', b) && a in s.act && a != b
    ensures a in s'.act && s'.act[a].pc == s.act[a].pc
  {
  }

  /**
   SpawnChild returns only when the child's start is over, and the child is then recorded if and only if the parent
   still resolves.
   */
  lemma SpawnRecords(run: seq<Sys>, labels: seq<Label>, i: nat, a: Id)
    requires SysRun(run, labels) && i < |labels| && labels[i] == LOwn(a)
    requires a in run[i].act && run[i].act[a].pc.Spawning?
    ensures var k := run[i].act[a].pc.child;
            && k in run[i].act && !InStart(run[i].act[k].pc) && a in run[i + 1].act && !run[i + 1].act[a].pc.Spawning?
            && run[i + 1].act[a].children == run[i].act[a].children + if a in run[i].reg then {k} else {}
  {
    var l := labels[i];
    assert Step(run[i], run[i + 1], l);
  }

  // ---------------------------------------------------------------- what a close ends

  lemma ClosedStep(s: Sys, s': Sys, l: Label, a: Id)
    requires Step(s, s', l) && a in s.act && s.act[a].closed
    ensures a in s'.act && s'.act[a].closed && s'.act[a].popped == s.act[a].popped
  {
    if l.LOwn? { ClosedOwn(s, s', l.a, a); }
  }

  lemma ClosedOwn(s: Sys, s': Sys, b: Id, a: Id)
    requires OwnStep(s, s', b) && a in s.act && s.act[a].closed
    ensures a in s'.act && s'.act[a].closed && s'.act[a].popped == s.act[a].popped
  {
    if Private(s.act[b]) && a == b { ClosedPrivate(s.act[b]); }
  }

  lemma ClosedPrivate(x: Actor)
    requires Private(x)
    ensures PrivateNext(x).closed == x.closed && PrivateNext(x).popped == x.popped
  {
  }

  /** Once its inbox is stopped an actor takes no further batch: it is handed at most the rest of the one it has. */
  lemma {:induction false} ClosedTakesNothing(run: seq<Sys>, labels: seq<Label>, i: nat, j: nat, a: Id)
    requires SysRun(run, labels) && i <= j < |run| && a in run[i].act && run[i].act[a].closed
    ensures a in run[j].act && run[j].act[a].closed && run[j].act[a].popped == run[i].act[a].popped
    ensures |run[j].act[a].got| <= run[i].act[a].popped
    decreases j
  {
    SysSafety(run, labels, j);
    if i < j {
      ClosedTakesNothing(run, labels, i, j - 1, a);
      var l := labels[j - 1];
      ClosedStep(run[j - 1], run[j], l, a);
    }
    assert Local(run[j].act[a], a in run[j].reg);
  }
}
