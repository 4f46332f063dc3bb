/** What every run of the lifecycle machine guarantees to poisoners, senders and parents. */
module LifecycleTheorems {
  import opened Wrappers
  import opened Pids
  import opened Lifecycle
  import opened LifecycleInv
  import opened CascadeInv

  ghost predicate SysInv(s: Sys) {
    Locals(s) && Waiters(s) && Tree(s) && StopOrder(s)
  }

  lemma SysInitInv(s: Sys)
    requires SysInit(s)
    ensures SysInv(s)
  {
  }

  lemma SysStepKeeps(s: Sys, s': Sys, l: Label)
    requires SysInv(s) && Step(s, s', l)
    ensures SysInv(s')
  {
    LocalsKeep(s, s', l);
    WaitersKeep(s, s', l);
    TreeKeeps(s, s', l);
    OrderKeeps(s, s', l);
  }

  ghost predicate SysRun(run: seq<Sys>, labels: seq<Label>) {
    && |run| == |labels| + 1 && SysInit(run[0])
    && forall i {:trigger labels[i]} :: 0 <= i < |labels| ==> Step(run[i], run[i + 1], labels[i])
  }

  lemma {:induction false} SysSafety(run: seq<Sys>, labels: seq<Label>, i: nat)
    requires SysRun(run, labels) && i < |run|
    ensures SysInv(run[i])
  {
    if i == 0 {
      SysInitInv(run[0]);
    } else {
      SysSafety(run, labels, i - 1);
      var l := labels[i - 1];
      SysStepKeeps(run[i - 1], run[i], l);
    }
  }

  // ---------------------------------------------------------------- graceful stop

  /** Invoke delivers the mailbox in order, up to the first pill; a pill is reached after exactly that. */
  lemma DeliveredUpToPill(run: seq<Sys>, labels: seq<Label>, i: nat, a: Id)
    requires SysRun(run, labels) && i < |run| && a in run[i].act
    ensures var x := run[i].act[a];
            && x.got <= x.pushed
            && (forall m :: 0 <= m < |x.got| ==> x.pushed[m].User?)
            && (x.cut.Some? ==> x.cut.value == |x.got| < |x.pushed| && x.pushed[x.cut.value].Pill?)
            && (x.cut.None? && (x.pc.Loop? || x.pc.Gone?) ==> x.popped <= |x.pushed| && x.got == x.pushed[..x.popped])
            && (x.stopAt.Some? && !x.gaveUp ==> x.cut == Some(|x.got|) && x.stopAt == x.cut)
  {
    SysSafety(run, labels, i);
    assert Local(run[i].act[a], a in run[i].reg);
  }

  /** Once a pill has been reached, nothing more is ever delivered: on the poison path Stopped is last. */
  lemma {:induction false} NothingBehindPill(run: seq<Sys>, labels: seq<Label>, i: nat, j: nat, a: Id)
    requires SysRun(run, labels) && i <= j < |run| && a in run[i].act && run[i].act[a].cut.Some?
    ensures a in run[j].act && run[j].act[a].got == run[i].act[a].got && run[j].act[a].cut == run[i].act[a].cut
    decreases j
  {
    if i < j {
      NothingBehindPill(run, labels, i, j - 1, a);
      SysSafety(run, labels, j - 1);
      var l := labels[j - 1];
      assert Local(run[j - 1].act[a], a in run[j - 1].reg);
      CutStays(run[j - 1], run[j], l, a);
    }
  }

  lemma CutStays(s: Sys, s': Sys, l: Label, a: Id)
    requires Step(s, s', l) && a in s.act && !s.act[a].pc.Walk?
    ensures a in s'.act && s'.act[a].got == s.act[a].got && s'.act[a].cut == s.act[a].cut
  {
    if l.LOwn? { OwnCut(s, s', l.a, a); }
  }

  lemma OwnCut(s: Sys, s': Sys, b: Id, a: Id)
    requires OwnStep(s, s', b) && a in s.act && !s.act[a].pc.Walk?
    ensures a in s'.act && s'.act[a].got == s.act[a].got && s'.act[a].cut == s.act[a].cut
  {
    if Private(s.act[b]) && b == a { PrivateCut(s.act[b]); }
  }

  lemma PrivateCut(x: Actor)
    requires Private(x) && !x.pc.Walk?
    ensures PrivateNext(x).got == x.got && PrivateNext(x).cut == x.cut
  {
  }

  // ---------------------------------------------------------------- waiters

  predicate WithCaller(s: Sys, w: Waiter)
    requires w in s.calls
  {
    s.calls[w].pc.Lookup? || s.calls[w].pc.Add? || s.calls[w].pc.Fire?
  }

  predicate WithTarget(s: Sys, w: Waiter)
    requires w in s.calls
  {
    var t := s.calls[w].target;
    t in s.act && !s.act[t].stopped && w in s.act[t].cancels
  }

  predicate WithShutdown(s: Sys, w: Waiter)
    requires w in s.calls
  {
    var t := s.calls[w].target;
    t in s.act && w in Snap(s.act[t].pc)
  }

  function Count(b: bool): nat { if b then 1 else 0 }

  /** Every waiter is in exactly one place, and one that waits on an actor has its pill on the way. */
  lemma WaiterInOnePlace(run: seq<Sys>, labels: seq<Label>, i: nat, w: Waiter)
    requires SysRun(run, labels) && i < |run| && w in run[i].calls
    ensures var s := run[i];
            && Count(WithCaller(s, w)) + Count(WithTarget(s, w)) + Count(WithShutdown(s, w))
               + Count(w in s.cancelled) == 1
            && (WithTarget(s, w) ==> Covered(s.act[s.calls[w].target], s.calls[w], w))
  {
    SysSafety(run, labels, i);
    var s := run[i];
    var t := s.calls[w].target;
    assert CallOk(s, w);
    if t in s.act { assert Held(s.act[t], t, s.calls, s.cancelled) && Local(s.act[t], t in s.reg); }
  }

  /** The middle of a Shutdown: the stop is claimed, and the inbox is not stopped yet. */
  predicate Tearing(x: Actor) { x.pc.Tear? && x.pc.stage <= 3 }

  /**
   When Done means gone. A cancelled waiter whose actor existed when Poison was called finds it gone (Stopped
   delivered, unregistered, inbox stopped) if and only if that actor is not in the middle of its Shutdown. An
   accepted waiter always finds it gone.
   */
  lemma DoneMeansGone(run: seq<Sys>, labels: seq<Label>, i: nat, w: Waiter)
    requires SysRun(run, labels) && i < |run| && w in run[i].calls && w in run[i].cancelled
    ensures var s, c := run[i], run[i].calls[w];
            && (c.accepted ==> Dead(s, c.target))
            && (c.known ==> c.target in s.act && (Dead(s, c.target) <==> !Tearing(s.act[c.target])))
  {
    SysSafety(run, labels, i);
    var s := run[i];
    var t := s.calls[w].target;
    assert CallOk(s, w);
    if t in s.act { assert Held(s.act[t], t, s.calls, s.cancelled) && Local(s.act[t], t in s.reg); }
  }

  /** The same for a call that was refused, or found nothing, from the moment it is about to cancel its own waiter. */
  lemma RefusedMeansGone(run: seq<Sys>, labels: seq<Label>, i: nat, w: Waiter)
    requires SysRun(run, labels) && i < |run| && w in run[i].calls && run[i].calls[w].known
    requires !run[i].calls[w].accepted && (run[i].calls[w].pc.Fire? || run[i].calls[w].pc.Returned?)
    ensures var s, t := run[i], run[i].calls[w].target;
            t in s.act && s.act[t].stopped && (Dead(s, t) <==> !Tearing(s.act[t]))
  {
    SysSafety(run, labels, i);
    var s, t := run[i], run[i].calls[w].target;
    assert CallOk(s, w);
    assert Local(s.act[t], t in s.reg);
  }

  /** No runtime code left to run for this actor until something is sent to it. */
  predicate Resting(x: Actor) {
    x.pc.Gone? || (x.pc.Loop? && !x.closed && x.popped == |x.pushed|)
  }

  ghost predicate Quiescent(s: Sys) {
    && (forall w :: w in s.calls ==> s.calls[w].pc.Returned?)
    && (forall a :: a in s.act ==> Resting(s.act[a]))
  }

  lemma RestingHoldsNobody(s: Sys, w: Waiter)
    requires SysInv(s) && w in s.calls && s.calls[w].pc.Returned?
    requires s.calls[w].target in s.act ==> Resting(s.act[s.calls[w].target])
    ensures w in s.cancelled
  {
    assert CallOk(s, w);
    var t := s.calls[w].target;
    if s.calls[w].accepted {
      assert Held(s.act[t], t, s.calls, s.cancelled) && Local(s.act[t], t in s.reg);
    }
  }

  /** At quiescence every waiter has been cancelled. */
  lemma NoWaiterLost(run: seq<Sys>, labels: seq<Label>, i: nat)
    requires SysRun(run, labels) && i < |run| && Quiescent(run[i])
    ensures run[i].cancelled == run[i].calls.Keys
  {
    SysSafety(run, labels, i);
    forall w | w in run[i].calls ensures w in run[i].cancelled { RestingHoldsNobody(run[i], w); }
  }

  // ---------------------------------------------------------------- cascade

  /** Stopped reaches an actor at most once, and one stopped by a pill after every child that accepted the cascade. */
  lemma BottomUp(run: seq<Sys>, labels: seq<Label>, i: nat, p: nat, k: Id)
    requires SysRun(run, labels) && i < |run| && p < |run[i].stops|
    ensures run[i].stops[p] in run[i].act
    ensures forall q: nat :: q < |run[i].stops| && run[i].stops[q] == run[i].stops[p] ==> q == p
    ensures var x := run[i].act[run[i].stops[p]];
            !x.gaveUp ==>
              && x.cascade.Some?
              && (k in x.cascade.value ==> k in run[i].act && run[i].act[k].stopped)
              && (k in x.cascade.value && Accepted(run[i], x.cascade.value[k]) ==>
                    Dead(run[i], k) && k in run[i].stops[..p])
  {
    SysSafety(run, labels, i);
    var s := run[i];
    var a := s.stops[p];
    assert Local(s.act[a], a in s.reg) && AfterKids(s, p) && TreeOk(s, a);
    if !s.act[a].gaveUp && k in s.act[a].cascade.value {
      KidStopped(s, a, k, s.act[a].cascade.value[k]);
    }
  }

  /** A child whose cascade waiter fired has at least claimed its stop; if it accepted, it is gone. */
  lemma KidStopped(s: Sys, a: Id, k: Id, w: Waiter)
    requires SysInv(s) && KidOk(s, a, k, w, false)
    ensures s.act[k].stopped && (Accepted(s, w) ==> Dead(s, k))
  {
    assert CallOk(s, w) && Held(s.act[k], k, s.calls, s.cancelled);
  }

  /**
   The cascade hangs on a pill being reached, whether or not the actor had given up before: once its wait is over,
   every child it ever recorded has claimed its stop.
   */
  lemma ChildrenFirst(s: Sys, a: Id, k: Id)
    requires SysInv(s) && a in s.act && s.act[a].cascade.Some? && !s.act[a].pc.Waiting? && k in s.act[a].recorded
    ensures k in s.act && s.act[k].stopped
  {
    var x := s.act[a];
    assert TreeOk(s, a);
    if k in x.children {
      assert KidOk(s, a, k, x.cascade.value[k], false);
      KidStopped(s, a, k, x.cascade.value[k]);
    }
  }

  /** An actor waited for its children if and only if it reached a pill; one stopped without giving up has. */
  lemma CascadeIffPill(run: seq<Sys>, labels: seq<Label>, i: nat, a: Id)
    requires SysRun(run, labels) && i < |run| && a in run[i].act
    ensures var x := run[i].act[a];
            && (x.cascade.Some? <==> x.cut.Some? && !x.pc.Snapshot?)
            && (x.pc.Gone? ==> (x.cascade.Some? <==> x.cut.Some?))
            && (x.stopped && !x.gaveUp ==> x.cascade.Some? && !x.pc.Waiting?)
  {
    SysSafety(run, labels, i);
    assert Local(run[i].act[a], a in run[i].reg);
  }

  /** Each actor on the path recorded the next as a child; whoever gave up in between has since been through a pill. */
  ghost predicate Lineage(s: Sys, path: seq<Id>)
    decreases |path|
  {
    && |path| > 0 && path[0] in s.act
    && (|path| > 1 ==> path[1] in s.act[path[0]].recorded && Lineage(s, path[1..]))
    && (|path| > 2 ==> Cascades(s.act[path[1]]))
  }

  /** If it gave up, it has also reached a pill and waited for its children. */
  predicate Cascades(x: Actor) { x.gaveUp ==> x.cascade.Some? && !x.pc.Waiting? }

  lemma StoppedCascades(s: Sys, a: Id)
    requires SysInv(s) && a in s.act && s.act[a].stopped && Cascades(s.act[a])
    ensures s.act[a].cascade.Some? && !s.act[a].pc.Waiting?
  {
    assert Local(s.act[a], a in s.reg);
  }

  /**
   A pill at the root brings down every line of descent, descendants spawned during the cascade included, as far as
   nobody in between gave up without reaching a pill: the last actor, given up or not, has claimed its stop.
   */
  lemma {:induction false} SubtreeStopped(s: Sys, path: seq<Id>)
    requires SysInv(s) && Lineage(s, path) && |path| >= 2
    requires s.act[path[0]].cascade.Some? && !s.act[path[0]].pc.Waiting?
    ensures path[|path| - 1] in s.act && s.act[path[|path| - 1]].stopped
    decreases |path|
  {
    LinkDown(s, path[0], path[1]);
    if |path| > 2 { SubtreeStopped(s, path[1..]); }
  }

  lemma LinkDown(s: Sys, a: Id, k: Id)
    requires SysInv(s) && a in s.act && s.act[a].cascade.Some? && !s.act[a].pc.Waiting? && k in s.act[a].recorded
    ensures k in s.act && s.act[k].stopped
    ensures Cascades(s.act[k]) ==> s.act[k].cascade.Some? && !s.act[k].pc.Waiting?
  {
    ChildrenFirst(s, a, k);
    if Cascades(s.act[k]) { StoppedCascades(s, k); }
  }

  /** Each actor on the path but the last did not give up, and its cascade waiter on the next was accepted. */
  ghost predicate AcceptedLine(s: Sys, path: seq<Id>)
    decreases |path|
  {
    && |path| > 0 && path[0] in s.act
    && (|path| > 1 ==> AcceptedLink(s, path[0], path[1]) && AcceptedLine(s, path[1..]))
  }

  ghost predicate AcceptedLink(s: Sys, a: Id, k: Id)
    requires a in s.act
  {
    var x := s.act[a];
    !x.gaveUp && x.cascade.Some? && k in x.cascade.value && Accepted(s, x.cascade.value[k])
  }

  /** Down any accepted line the order is strict: the last actor is gone, and was handed Stopped before the root. */
  lemma {:induction false} SubtreeBottomUp(s: Sys, path: seq<Id>, p: nat) returns (q: nat)
    requires SysInv(s) && AcceptedLine(s, path) && |path| >= 2 && p < |s.stops| && s.stops[p] == path[0]
    ensures q < p && s.stops[q] == path[|path| - 1] && Dead(s, path[|path| - 1])
    decreases |path|
  {
    q := LinkBottomUp(s, p, path[1]);
    if |path| > 2 { q := SubtreeBottomUp(s, path[1..], q); }
  }

  lemma LinkBottomUp(s: Sys, p: nat, k: Id) returns (q: nat)
    requires SysInv(s) && p < |s.stops| && s.stops[p] in s.act && AcceptedLink(s, s.stops[p], k)
    ensures q < p && s.stops[q] == k && Dead(s, k)
  {
    var a := s.stops[p];
    assert Local(s.act[a], a in s.reg) && AfterKids(s, p) && TreeOk(s, a);
    KidStopped(s, a, k, s.act[a].cascade.value[k]);
    q :| q < p && s.stops[q] == k;
  }

  // ---------------------------------------------------------------- Stopped and the registry

  /** Stopped is delivered while the PID still resolves, and the PID stops resolving only after that. */
  lemma StoppedWhileRegistered(run: seq<Sys>, labels: seq<Label>, i: nat, a: Id)
    requires SysRun(run, labels) && i < |labels|
    ensures run[i + 1].stops == run[i].stops + [a] ==> a in run[i].reg && a in run[i + 1].reg
    ensures a in run[i].reg && a !in run[i + 1].reg ==> a in run[i].stops
  {
    SysSafety(run, labels, i);
    var l := labels[i];
    var s, s' := run[i], run[i + 1];
    assert Step(s, s', l);
    if s'.stops == s.stops + [a] { StopsAt(s, s', l, a); }
    if a in s.reg && a !in s'.reg { LeavesAt(s, s', l, a); }
  }

  lemma StopsAt(s: Sys, s': Sys, l: Label, a: Id)
    requires Locals(s) && Step(s, s', l) && s'.stops == s.stops + [a]
    ensures a in s.reg && s'.reg == s.reg
  {
    assert |s'.stops| != |s.stops| && s'.stops[|s.stops|] == a;
    if l.LOwn? && l.a in s.act { assert Local(s.act[l.a], l.a in s.reg); }
  }

  lemma LeavesAt(s: Sys, s': Sys, l: Label, a: Id)
    requires Locals(s) && StopOrder(s) && Step(s, s', l) && a in s.reg && a !in s'.reg
    ensures a in s.stops
  {
    assert l == LOwn(a);
    assert Local(s.act[a], true);
  }

  // ---------------------------------------------------------------- waiting never closes a cycle

  /** a's goroutine is blocked until b makes progress. */
  ghost predicate WaitsFor(s: Sys, a: Id, b: Id) {
    && a in s.act
    && var x := s.act[a];
       || (x.pc.Waiting? && x.cascade.Some? && b in x.cascade.value && x.cascade.value[b] !in s.cancelled)
       || (x.pc.Spawning? && x.pc.child == b)
  }

  lemma WaitExtends(s: Sys, a: Id, b: Id)
    requires Tree(s) && WaitsFor(s, a, b)
    ensures b in s.act && Extends(a, b)
  {
    assert TreeOk(s, a);
    if s.act[a].pc.Waiting? { assert KidOk(s, a, b, s.act[a].cascade.value[b], true); }
  }

  /** Along any chain of waits the IDs strictly extend one another, so no chain returns to where it began. */
  lemma {:induction false} WaitsAreAcyclic(s: Sys, path: seq<Id>)
    requires Tree(s) && |path| >= 2
    requires forall i {:trigger path[i]} :: 0 <= i < |path| - 1 ==> WaitsFor(s, path[i], path[i + 1])
    ensures Extends(path[0], path[|path| - 1])
  {
    var n := |path|;
    assert WaitsFor(s, path[n - 2], path[n - 2 + 1]);
    WaitExtends(s, path[n - 2], path[n - 1]);
    if n > 2 {
      var init := path[..n - 1];
      forall i {:trigger init[i]} | 0 <= i < |init| - 1 ensures WaitsFor(s, init[i], init[i + 1]) {
        assert WaitsFor(s, path[i], path[i + 1]);
      }
      WaitsAreAcyclic(s, init);
    }
  }

  /** Steps the runtime takes by itself, give-ups included, with no new message, spawn or Poison from outside. */
  predicate Internal(l: Label) { l.LCall? || l.LPop? || l.LGiveUp? || l.LSnap? || l.LCancel? || l.LOwn? }

  ghost predicate CanStep(s: Sys) {
    exists l, s' :: Internal(l) && Step(s, s', l)
  }

  /** No deadlock: a state that is not quiescent has an internal step, whatever the tree is in the middle of. */
  lemma NeverStuck(run: seq<Sys>, labels: seq<Label>, i: nat)
    requires SysRun(run, labels) && i < |run|
    ensures Quiescent(run[i]) || CanStep(run[i])
  {
    SysSafety(run, labels, i);
    var s := run[i];
    if w :| w in s.calls && !s.calls[w].pc.Returned? {
      CallCanStep(s, w);
    } else {
      var busy := set a | a in s.act && !Resting(s.act[a]);
      if b :| b in s.act && !Resting(s.act[b]) {
        assert b in busy;
        var a := Deepest(busy);
        DeepestCanStep(s, a);
      }
    }
  }

  lemma CallCanStep(s: Sys, w: Waiter)
    requires SysInv(s) && w in s.calls && !s.calls[w].pc.Returned?
    ensures CanStep(s)
  {
    assert CallOk(s, w);
    var c := s.calls[w];
    var t := c.target;
    var s' := match c.pc
      case Lookup => s.(calls := s.calls[w := c.(pc := if t in s.reg then Add else Fire)])
      case Add =>
        if s.act[t].stopped then s.(calls := s.calls[w := c.(pc := Fire)])
        else Put(s, t, s.act[t].(cancels := s.act[t].cancels + {w}))
             .(calls := s.calls[w := c.(pc := Deliver, accepted := true)])
      case Deliver =>
        Put(s, t, s.act[t].(pushed := s.act[t].pushed + [Pill(w)])).(calls := s.calls[w := c.(pc := Returned)])
      case Fire => s.(cancelled := s.cancelled + {w}, calls := s.calls[w := c.(pc := Returned)]);
    assert Step(s, s', LCall(w));
  }

  lemma {:induction false} Deepest(ids: set<Id>) returns (m: Id)
    requires ids != {}
    ensures m in ids && forall k :: k in ids ==> |k| <= |m|
  {
    m :| m in ids;
    if ids != {m} {
      var n := Deepest(ids - {m});
      if |m| < |n| { m := n; }
    }
  }

  /** Among the busy actors, one with the longest ID waits for nobody. */
  lemma DeepestCanStep(s: Sys, a: Id)
    requires SysInv(s) && a in s.act && !Resting(s.act[a])
    requires forall w :: w in s.calls ==> s.calls[w].pc.Returned?
    requires forall b :: b in s.act && |b| > |a| ==> Resting(s.act[b])
    ensures CanStep(s)
  {
    var x := s.act[a];
    if x.pc.Snapshot? {
      SnapCanStep(s, a);
    } else if x.pc.Waiting? {
      WaitCanStep(s, a);
    } else if x.pc.Tear? {
      TearCanStep(s, a);
    } else {
      assert Local(x, a in s.reg);
      assert x.pc.Spawning? ==> x.pc.child in s.act && Resting(s.act[x.pc.child]) by { assert TreeOk(s, a); }
      FreeCanStep(s, a);
    }
  }

  lemma FreeCanStep(s: Sys, a: Id)
    requires a in s.act && !Resting(s.act[a]) && s.act[a].popped <= |s.act[a].pushed|
    requires var pc := s.act[a].pc; !pc.Snapshot? && !pc.Waiting? && !pc.Tear?
    requires s.act[a].pc.Spawning? ==> s.act[a].pc.child in s.act && Resting(s.act[s.act[a].pc.child])
    ensures CanStep(s)
  {
    var x := s.act[a];
    if Private(x) {
      assert Step(s, Put(s, a, PrivateNext(x)), LOwn(a));
    } else if x.pc.Loop? {
      assert Step(s, Put(s, a, x.(popped := x.popped + 1, pc := Walk)), LPop(a, 1));
    } else if x.pc.Settle? {
      assert Step(s, Put(s, a, x.(pc := Loop)).(cancelled := s.cancelled + {x.pc.w}), LOwn(a));
    } else {
      var y := x.(pc := if x.pc.inStart then Starting else Handling);
      var y' := if a in s.reg then Record(y, x.pc.child, Left(s.act[x.pc.child])) else y;
      assert Step(s, Put(s, a, y'), LOwn(a));
    }
  }

  lemma WaitCanStep(s: Sys, a: Id)
    requires SysInv(s) && a in s.act && s.act[a].pc.Waiting?
    requires forall w :: w in s.calls ==> s.calls[w].pc.Returned?
    requires forall b :: b in s.act && |b| > |a| ==> Resting(s.act[b])
    ensures CanStep(s)
  {
    var x := s.act[a];
    assert Local(x, a in s.reg) && TreeOk(s, a);
    forall k | k in x.cascade.value ensures x.cascade.value[k] in s.cancelled {
      assert KidOk(s, a, k, x.cascade.value[k], true);
      RestingHoldsNobody(s, x.cascade.value[k]);
    }
    assert Step(s, Put(s, a, x.(pc := Claim(Some(x.pc.w)))), LOwn(a));
  }

  lemma TearCanStep(s: Sys, a: Id)
    requires Locals(s) && a in s.act && s.act[a].pc.Tear?
    ensures CanStep(s)
  {
    var x := s.act[a];
    var snap: set<Waiter> := x.pc.snap;
    assert Local(x, a in s.reg);
    if x.pc.stage == 4 && snap != {} {
      var w :| w in snap;
      var y := x.(pc := Tear(4, x.pc.cause, x.pc.snap - {w}));
      assert Step(s, Put(s, a, y).(cancelled := s.cancelled + {w}), LCancel(a, w));
    } else {
      var t := Put(s, a, TearNext(x));
      var s' := match x.pc.stage
        case 0 => LeaveParent(t, a, x.parent)
        case 1 => t.(stops := s.stops + [a])
        case 2 => t.(reg := s.reg - {a})
        case _ => t;
      assert Step(s, s', LOwn(a));
    }
  }

  /** A fresh waiter for each child, and the calls that use them. */
  lemma {:induction false} FreshCalls(act: set<Id>, calls: map<Waiter, Call>, kids: set<Id>)
    returns (ws: map<Id, Waiter>, calls': map<Waiter, Call>)
    ensures ws.Keys == kids
    ensures forall k :: k in ws ==> ws[k] !in calls
    ensures forall j, k :: j in ws && k in ws && ws[j] == ws[k] ==> j == k
    ensures calls'.Keys == calls.Keys + ws.Values
    ensures forall w :: w in calls ==> calls'[w] == calls[w]
    ensures forall k :: k in ws ==> calls'[ws[k]] == Call(k, Lookup, k in act, false)
  {
    if kids == {} {
      ws, calls' := map[], calls;
    } else {
      var k :| k in kids;
      ws, calls' := FreshCalls(act, calls, kids - {k});
      var n := FreshSerial(calls'.Keys);
      var w := Waiter(n);
      forall j | j in ws ensures ws[j] != w { assert ws[j] in ws.Values; }
      var ws' := ws[k := w];
      assert ws'.Values == ws.Values + {w} by {
        forall v | v in ws.Values + {w} ensures v in ws'.Values {
          if v == w { assert ws'[k] == w; } else { var j :| j in ws && ws[j] == v; assert ws'[j] == v; }
        }
      }
      ws, calls' := ws', calls'[w := Call(k, Lookup, k in act, false)];
    }
  }

  lemma {:induction false} FreshSerial(used: set<Waiter>) returns (n: int)
    ensures forall v :: v in used ==> v.serial < n
  {
    if used == {} {
      n := 0;
    } else {
      var u :| u in used;
      var rest := used - {u};
      n := FreshSerial(rest);
      assert forall v :: v in used && v != u ==> v in rest;
      if n <= u.serial { n := u.serial + 1; }
    }
  }

  lemma SnapCanStep(s: Sys, a: Id)
    requires a in s.act && s.act[a].pc.Snapshot?
    ensures CanStep(s)
  {
    var x := s.act[a];
    var kids, calls' := FreshCalls(s.act.Keys, s.calls, x.children);
    var s' := s.(act := s.act[a := x.(pc := Waiting(x.pc.w), cascade := Some(kids))], calls := calls');
    assert Step(s, s', LSnap(a, kids));
  }
}
