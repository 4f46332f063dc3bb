/** Left to itself the runtime comes to rest: internal steps run out, and then every waiter has been cancelled. */
module LifecycleProgress {
  import opened Wrappers
  import opened Sums
  import opened Pids
  import opened Lifecycle
  import opened LifecycleInv
  import opened CascadeInv
  import opened LifecycleTheorems

  // ---------------------------------------------------------------- sums

  /** Taking away entries that all stand for a call about to begin. */
  lemma {:induction false} SumLess(m: map<Waiter, nat>, extra: set<Waiter>)
    requires forall k :: k in extra ==> k in m && m[k] == 29
    ensures Sum(m) == Sum(m - extra) + 29 * |extra|
    decreases |extra|
  {
    if extra == {} {
      assert m - extra == m;
    } else {
      var k :| k in extra;
      SumAt(m, k);
      SumLess(m - {k}, extra - {k});
      assert m - {k} - (extra - {k}) == m - extra;
    }
  }

  // ---------------------------------------------------------------- the rank

  function PcRank(pc: Pc): nat {
    match pc
    case Gone => 0
    case Loop => 1
    case Walk => 2
    case Settle(_) => 2
    case Starting => 2
    case Handling => 9
    case Spawning(_, _) => 10
    case Tear(stage, _, _) => if stage >= 4 then 3 else 7 - stage
    case Claim(_) => 8
    case Waiting(_) => 9
    case Snapshot(_) => 10
  }

  function CallRank(pc: CallPc): nat {
    match pc
    case Lookup => 29
    case Add => 28
    case Deliver => 26
    case Fire => 1
    case Returned => 0
  }

  /** What an actor may still do by itself in a world of n actors: messages, waiters, and a cascade to come. */
  function ActorRank(x: Actor, n: nat): nat {
    20 * Max(0, |x.pushed| - x.walk) + 5 * Max(0, |x.pushed| - x.popped) + PcRank(x.pc)
    + |x.cancels| + |Snap(x.pc)| + (if x.cascade.None? then 30 * n else 0)
  }

  ghost function ActorRanks(s: Sys): map<Id, nat> {
    map a | a in s.act :: ActorRank(s.act[a], |s.act.Keys|)
  }

  ghost function CallRanks(calls: map<Waiter, Call>): map<Waiter, nat> {
    map w | w in calls :: CallRank(calls[w].pc)
  }

  ghost function Rank(s: Sys): nat { Sum(ActorRanks(s)) + Sum(CallRanks(s.calls)) }

  lemma ActorPut(s: Sys, s': Sys, a: Id)
    requires a in s.act && a in s'.act && s'.act == s.act[a := s'.act[a]]
    ensures var n := |s.act.Keys|;
            Sum(ActorRanks(s')) == Sum(ActorRanks(s)) - ActorRank(s.act[a], n) + ActorRank(s'.act[a], n)
  {
    assert s'.act.Keys == s.act.Keys;
    SumPut(ActorRanks(s), a, ActorRank(s'.act[a], |s.act.Keys|));
    assert ActorRanks(s') == ActorRanks(s)[a := ActorRank(s'.act[a], |s.act.Keys|)];
  }

  lemma CallPut(s: Sys, s': Sys, w: Waiter)
    requires w in s.calls && w in s'.calls && s'.calls == s.calls[w := s'.calls[w]]
    ensures Sum(CallRanks(s'.calls)) == Sum(CallRanks(s.calls)) - CallRank(s.calls[w].pc) + CallRank(s'.calls[w].pc)
  {
    SumPut(CallRanks(s.calls), w, CallRank(s'.calls[w].pc));
    assert CallRanks(s'.calls) == CallRanks(s.calls)[w := CallRank(s'.calls[w].pc)];
  }

  // ---------------------------------------------------------------- every internal step lowers it

  lemma WalkRank(x: Actor, n: nat)
    requires x.walk <= x.popped <= |x.pushed| && x.pc.Walk?
    ensures ActorRank(WalkNext(x), n) < ActorRank(x, n)
  {
  }

  lemma PrivateRank(x: Actor, n: nat)
    requires x.walk <= x.popped <= |x.pushed| && Private(x)
    ensures ActorRank(PrivateNext(x), n) < ActorRank(x, n)
  {
    if x.pc.Walk? { WalkRank(x, n); }
  }

  lemma TearRank(x: Actor, n: nat)
    requires x.pc.Tear? && (x.pc.stage >= 4 ==> x.pc.snap == {})
    ensures ActorRank(TearNext(x), n) < ActorRank(x, n)
  {
  }

  lemma MoveRank(x: Actor, n: nat, pc: Pc)
    requires !x.pc.Tear? && !pc.Tear? && PcRank(pc) < PcRank(x.pc)
    ensures ActorRank(x.(pc := pc), n) < ActorRank(x, n)
  {
  }

  lemma SpawnReturnRank(s: Sys, s': Sys, a: Id)
    requires a in s.act && s.act[a].pc.Spawning? && SpawnReturn(s, s', a)
    ensures a in s'.act && s'.act == s.act[a := s'.act[a]] && s'.calls == s.calls
    ensures ActorRank(s'.act[a], |s.act.Keys|) < ActorRank(s.act[a], |s.act.Keys|)
  {
    var x := s.act[a];
    MoveRank(x, |s.act.Keys|, if x.pc.inStart then Starting else Handling);
  }

  lemma PrivateStepRank(s: Sys, s': Sys, a: Id)
    requires Locals(s) && OwnStep(s, s', a) && Private(s.act[a])
    ensures a in s'.act && s'.act == s.act[a := s'.act[a]] && s'.calls == s.calls
    ensures ActorRank(s'.act[a], |s.act.Keys|) < ActorRank(s.act[a], |s.act.Keys|)
  {
    assert Local(s.act[a], a in s.reg);
    PrivateRank(s.act[a], |s.act.Keys|);
  }

  lemma TearStepRank(s: Sys, s': Sys, a: Id)
    requires OwnStep(s, s', a) && s.act[a].pc.Tear? && s.act[a].pc.stage > 0
    ensures a in s'.act && s'.act == s.act[a := s'.act[a]] && s'.calls == s.calls
    ensures ActorRank(s'.act[a], |s.act.Keys|) < ActorRank(s.act[a], |s.act.Keys|)
  {
    TearRank(s.act[a], |s.act.Keys|);
  }

  /** An own step that writes only the actor's own record. */
  lemma OwnRank(s: Sys, s': Sys, a: Id)
    requires Locals(s) && OwnStep(s, s', a) && !(s.act[a].pc.Tear? && s.act[a].pc.stage == 0)
    ensures a in s'.act && s'.act == s.act[a := s'.act[a]] && s'.calls == s.calls
    ensures ActorRank(s'.act[a], |s.act.Keys|) < ActorRank(s.act[a], |s.act.Keys|)
  {
    var x, n := s.act[a], |s.act.Keys|;
    if Private(x) {
      PrivateStepRank(s, s', a);
    } else if x.pc.Spawning? {
      SpawnReturnRank(s, s', a);
    } else if x.pc.Tear? {
      TearStepRank(s, s', a);
    } else if x.pc.Waiting? {
      MoveRank(x, n, Claim(Some(x.pc.w)));
    } else {
      MoveRank(x, n, Loop);
    }
  }

  lemma LeaveRank(s: Sys, s': Sys, a: Id)
    requires a in s.act && s.act[a].pc.Tear? && s.act[a].pc.stage == 0 && TearStep(s, s', a)
    ensures Sum(ActorRanks(s')) < Sum(ActorRanks(s)) && s'.calls == s.calls
  {
    var x := s.act[a];
    var t := Put(s, a, TearNext(x));
    TearRank(x, |s.act.Keys|);
    ActorPut(s, t, a);
    if s' != t { ActorPut(t, s', x.parent.value); }
  }

  lemma OwnLowers(s: Sys, s': Sys, a: Id)
    requires Locals(s) && OwnStep(s, s', a)
    ensures Rank(s') < Rank(s)
  {
    if s.act[a].pc.Tear? && s.act[a].pc.stage == 0 {
      LeaveRank(s, s', a);
    } else {
      OwnRank(s, s', a);
      ActorPut(s, s', a);
    }
  }

  lemma PopRank(x: Actor, k: nat, n: nat)
    requires x.walk <= x.popped && x.pc.Loop? && 1 <= k <= |x.pushed| - x.popped
    ensures ActorRank(x.(popped := x.popped + k, pc := Walk), n) < ActorRank(x, n)
  {
  }

  lemma PopLowers(s: Sys, s': Sys, a: Id, n: nat)
    requires Locals(s) && PopBatch(s, s', a, n)
    ensures Rank(s') < Rank(s)
  {
    assert Local(s.act[a], a in s.reg);
    PopRank(s.act[a], n, |s.act.Keys|);
    ActorPut(s, s', a);
  }

  lemma GiveUpLowers(s: Sys, s': Sys, a: Id)
    requires GiveUp(s, s', a)
    ensures Rank(s') < Rank(s)
  {
    MoveRank(s.act[a], |s.act.Keys|, Claim(None));
    ActorPut(s, s', a);
  }

  lemma CancelLowers(s: Sys, s': Sys, a: Id, w: Waiter)
    requires CancelOne(s, s', a, w)
    ensures Rank(s') < Rank(s)
  {
    ActorPut(s, s', a);
  }

  lemma AddRank(x: Actor, w: Waiter, n: nat)
    ensures ActorRank(x.(cancels := x.cancels + {w}), n) <= ActorRank(x, n) + 1
  {
  }

  lemma PushRank(x: Actor, m: Msg, n: nat)
    requires x.walk <= x.popped <= |x.pushed|
    ensures ActorRank(x.(pushed := x.pushed + [m]), n) == ActorRank(x, n) + 25
  {
  }

  /** A call that gives its target a waiter or a pill has that much more to lose. */
  lemma TargetRank(s: Sys, s': Sys, w: Waiter)
    requires Locals(s) && CallStep(s, s', w) && (s.calls[w].pc.Add? || s.calls[w].pc.Deliver?)
    ensures Sum(ActorRanks(s')) <= Sum(ActorRanks(s)) + if s.calls[w].pc.Add? then 1 else 25
    ensures s.calls[w].pc.Add? && s'.calls[w].pc.Fire? ==> Sum(ActorRanks(s')) == Sum(ActorRanks(s))
  {
    var t := s.calls[w].target;
    var x := s.act[t];
    if s.calls[w].pc.Deliver? {
      assert Local(x, t in s.reg);
      PushRank(x, Pill(w), |s.act.Keys|);
      ActorPut(s, s', t);
    } else if x.stopped {
      assert ActorRanks(s') == ActorRanks(s);
    } else {
      AddRank(x, w, |s.act.Keys|);
      ActorPut(s, s', t);
    }
  }

  lemma CallShape(s: Sys, s': Sys, w: Waiter)
    requires CallStep(s, s', w)
    ensures w in s'.calls && s'.calls == s.calls[w := s'.calls[w]]
    ensures s.calls[w].pc.Lookup? || s.calls[w].pc.Fire? ==> s'.act == s.act
    ensures var c, c' := s.calls[w].pc, s'.calls[w].pc;
            CallRank(c') + (if c.Add? then 2 else if c.Deliver? then 26 else 1) <= CallRank(c)
  {
  }

  lemma CallLowers(s: Sys, s': Sys, w: Waiter)
    requires Locals(s) && CallStep(s, s', w)
    ensures Rank(s') < Rank(s)
  {
    CallShape(s, s', w);
    CallPut(s, s', w);
    if s.calls[w].pc.Add? || s.calls[w].pc.Deliver? {
      TargetRank(s, s', w);
    } else {
      assert ActorRanks(s') == ActorRanks(s);
    }
  }

  lemma SnapRank(x: Actor, kids: map<Id, Waiter>, n: nat)
    requires x.pc.Snapshot? && x.cascade.None?
    ensures ActorRank(x.(pc := Waiting(x.pc.w), cascade := Some(kids)), n) == ActorRank(x, n) - 1 - 30 * n
  {
  }

  lemma SnapLowers(s: Sys, s': Sys, a: Id, kids: map<Id, Waiter>)
    requires Locals(s) && Tree(s) && TakeSnapshot(s, s', a, kids)
    ensures Rank(s') < Rank(s)
  {
    SnapActorRank(s, s', a, kids);
    forall w | w in kids.Values ensures w !in s.calls && s'.calls[w].pc.Lookup? {
      var k :| k in kids && kids[k] == w;
    }
    NewEntries(s.calls, s'.calls, kids.Values);
    SumLess(CallRanks(s'.calls), kids.Values);
    ValuesSize(kids);
  }

  lemma SnapActorRank(s: Sys, s': Sys, a: Id, kids: map<Id, Waiter>)
    requires Locals(s) && Tree(s) && TakeSnapshot(s, s', a, kids)
    ensures Sum(ActorRanks(s')) + 30 * |kids.Keys| < Sum(ActorRanks(s))
  {
    assert Local(s.act[a], a in s.reg) && TreeOk(s, a);
    SnapRank(s.act[a], kids, |s.act.Keys|);
    ActorPut(s, s', a);
    SubsetSize(kids.Keys, s.act.Keys);
  }

  lemma NewEntries(calls: map<Waiter, Call>, calls': map<Waiter, Call>, extra: set<Waiter>)
    requires extra !! calls.Keys && calls'.Keys == calls.Keys + extra
    requires forall w :: w in calls ==> calls'[w] == calls[w]
    requires forall w :: w in extra ==> calls'[w].pc.Lookup?
    ensures CallRanks(calls') - extra == CallRanks(calls)
    ensures forall w :: w in extra ==> w in CallRanks(calls') && CallRanks(calls')[w] == 29
  {
  }

  lemma InternalLowers(s: Sys, s': Sys, l: Label)
    requires SysInv(s) && Step(s, s', l) && Internal(l)
    ensures Rank(s') < Rank(s)
  {
    match l
    case LCall(w) => CallLowers(s, s', w);
    case LPop(a, n) => PopLowers(s, s', a, n);
    case LGiveUp(a) => GiveUpLowers(s, s', a);
    case LSnap(a, kids) => SnapLowers(s, s', a, kids);
    case LCancel(a, w) => CancelLowers(s, s', a, w);
    case LOwn(a) => OwnLowers(s, s', a);
  }

  // ---------------------------------------------------------------- theorems over every run

  ghost predicate InternalFrom(labels: seq<Label>, i: nat) {
    forall j :: i <= j < |labels| ==> Internal(labels[j])
  }

  /** With nothing new from outside, a run makes at most Rank(run[i]) more steps. */
  lemma {:induction false} InternalRunsAreShort(run: seq<Sys>, labels: seq<Label>, i: nat, j: nat)
    requires SysRun(run, labels) && i <= j < |run| && InternalFrom(labels, i)
    ensures j - i <= Rank(run[i]) - Rank(run[j])
    decreases j
  {
    if i < j {
      InternalRunsAreShort(run, labels, i, j - 1);
      SysSafety(run, labels, j - 1);
      var l := labels[j - 1];
      InternalLowers(run[j - 1], run[j], l);
    }
  }

  /**
   Whatever the system is in the middle of, once nothing new comes from outside it makes finitely many steps, and
   when it can make no more every waiter has been cancelled.
   */
  lemma EveryRunSettles(run: seq<Sys>, labels: seq<Label>, i: nat)
    requires SysRun(run, labels) && i < |run| && InternalFrom(labels, i)
    ensures |labels| - i <= Rank(run[i])
    ensures var s := run[|labels|]; !CanStep(s) ==> Quiescent(s) && s.cancelled == s.calls.Keys
  {
    InternalRunsAreShort(run, labels, i, |labels|);
    NeverStuck(run, labels, |labels|);
    if !CanStep(run[|labels|]) { NoWaiterLost(run, labels, |labels|); }
  }

  /** And such an end is always within reach. */
  lemma {:induction false} CanSettle(run: seq<Sys>, labels: seq<Label>) returns (run': seq<Sys>, labels': seq<Label>)
    requires SysRun(run, labels)
    ensures SysRun(run', labels') && run <= run' && labels <= labels' && InternalFrom(labels', |labels|)
    ensures var s := run'[|labels'|]; Quiescent(s) && s.cancelled == s.calls.Keys
    decreases Rank(run[|labels|])
  {
    var s := run[|labels|];
    NeverStuck(run, labels, |labels|);
    if Quiescent(s) {
      NoWaiterLost(run, labels, |labels|);
      run', labels' := run, labels;
    } else {
      var l, s' :| Internal(l) && Step(s, s', l);
      SysSafety(run, labels, |labels|);
      InternalLowers(s, s', l);
      OneMore(run, labels, s', l);
      run', labels' := CanSettle(run + [s'], labels + [l]);
      assert labels'[|labels|] == l;
    }
  }

  lemma OneMore(run: seq<Sys>, labels: seq<Label>, s: Sys, l: Label)
    requires SysRun(run, labels) && Step(run[|labels|], s, l)
    ensures SysRun(run + [s], labels + [l])
  {
    var run', labels' := run + [s], labels + [l];
    forall i {:trigger labels'[i]} | 0 <= i < |labels'| ensures Step(run'[i], run'[i + 1], labels'[i]) {
      if i < |labels| { assert labels'[i] == labels[i]; }
    }
  }
}
