/** The tree of actors: who waits for whom, who stops before whom. */
module CascadeInv {
  import opened Wrappers
  import opened Pids
  import opened Lifecycle
  import opened LifecycleInv

  /** Facts that only ever accumulate. */
  ghost predicate Mono(s: Sys, s': Sys) {
    && s.act.Keys <= s'.act.Keys && s.calls.Keys <= s'.calls.Keys && s.cancelled <= s'.cancelled
    && (forall a :: a in s.act ==> (s.act[a].stopped ==> s'.act[a].stopped) && s'.act[a].parent == s.act[a].parent)
    && (forall w :: w in s.calls ==> s'.calls[w].target == s.calls[w].target && s'.calls[w].known == s.calls[w].known)
  }

  lemma MonoPut(s: Sys, s': Sys, a: Id)
    requires a in s.act && a in s'.act && s'.act == s.act[a := s'.act[a]]
    requires s'.act[a].parent == s.act[a].parent && (s.act[a].stopped ==> s'.act[a].stopped)
    requires s'.calls == s.calls && s.cancelled <= s'.cancelled
    ensures Mono(s, s')
  {
  }

  /** What an actor's own step leaves alone in its record. */
  ghost predicate SameFamily(x: Actor, y: Actor) {
    && y.parent == x.parent && (x.stopped ==> y.stopped)
    && y.children == x.children && y.recorded == x.recorded && y.cascade == x.cascade
    && !y.pc.Spawning? && !y.pc.Waiting?
  }

  lemma PrivateFamily(x: Actor)
    requires Private(x)
    ensures SameFamily(x, PrivateNext(x))
  {
  }

  lemma OwnShape(s: Sys, s': Sys, a: Id)
    requires OwnStep(s, s', a) && !s.act[a].pc.Spawning? && !(s.act[a].pc.Tear? && s.act[a].pc.stage == 0)
    ensures a in s'.act && s'.act == s.act[a := s'.act[a]] && SameFamily(s.act[a], s'.act[a])
    ensures s'.calls == s.calls && s.cancelled <= s'.cancelled
    ensures s.act[a].pc.Waiting? ==> s.act[a].cascade.Some? && s.act[a].cascade.value.Values <= s.cancelled
  {
    if Private(s.act[a]) { PrivateFamily(s.act[a]); }
  }

  lemma OwnMono(s: Sys, s': Sys, a: Id)
    requires OwnStep(s, s', a)
    ensures Mono(s, s')
  {
    var x := s.act[a];
    if x.pc.Tear? && x.pc.stage == 0 {
      MonoPut(s, Put(s, a, TearNext(x)), a);
    } else {
      if !x.pc.Spawning? { OwnShape(s, s', a); }
      MonoPut(s, s', a);
    }
  }

  lemma StepMono(s: Sys, s': Sys, l: Label)
    requires Step(s, s', l)
    ensures Mono(s, s')
  {
    match l
    case LOwn(a) => OwnMono(s, s', a);
    case LSpawn(a, _, _) => MonoPut(s, Put(s, a, s'.act[a]), a);
    case LSend(a, _) => MonoPut(s, s', a);
    case LPop(a, _) => MonoPut(s, s', a);
    case LGiveUp(a) => MonoPut(s, s', a);
    case LCancel(a, _) => MonoPut(s, s', a);
    case LCall(w) => CallMono(s, s', w);
    case _ =>
  }

  lemma CallMono(s: Sys, s': Sys, w: Waiter)
    requires CallStep(s, s', w)
    ensures Mono(s, s')
  {
  }

  /** One snapshotted child: poisoned under this waiter, and waited for. */
  ghost predicate KidOk(s: Sys, a: Id, k: Id, w: Waiter, waiting: bool) {
    && k in s.act && Extends(a, k)
    && w in s.calls && s.calls[w].target == k && s.calls[w].known
    && (!waiting ==> w in s.cancelled)
  }

  ghost predicate TreeOk(s: Sys, a: Id)
    requires a in s.act
  {
    var x := s.act[a];
    && x.children <= x.recorded
    && (forall k :: k in x.recorded ==> k in s.act && Extends(a, k) && (k in x.children || s.act[k].stopped))
    && (x.parent.Some? ==> x.parent.value in s.act && Extends(x.parent.value, a))
    && (x.pc.Spawning? ==> x.pc.child in s.act && Extends(a, x.pc.child))
    && (x.cascade.Some? ==>
          && x.children <= x.cascade.value.Keys
          && forall k :: k in x.cascade.value ==> KidOk(s, a, k, x.cascade.value[k], x.pc.Waiting?))
  }

  ghost predicate Tree(s: Sys) {
    forall a :: a in s.act ==> TreeOk(s, a)
  }

  /** An actor whose family record does not change stays in order. */
  lemma TreeSame(s: Sys, s': Sys, a: Id)
    requires a in s.act && TreeOk(s, a) && Mono(s, s')
    requires var x, y := s.act[a], s'.act[a];
             && y.children == x.children && y.recorded == x.recorded && y.cascade == x.cascade
             && (y.pc.Spawning? ==> y.pc == x.pc)
             && (x.pc.Waiting? && !y.pc.Waiting? ==> x.cascade.Some? && x.cascade.value.Values <= s.cancelled)
    ensures TreeOk(s', a)
  {
    var x, y := s.act[a], s'.act[a];
    if x.cascade.Some? {
      forall k | k in x.cascade.value ensures KidOk(s', a, k, x.cascade.value[k], y.pc.Waiting?) {
        assert KidOk(s, a, k, x.cascade.value[k], x.pc.Waiting?);
        assert x.cascade.value[k] in x.cascade.value.Values;
      }
    }
  }

  lemma TreeOthers(s: Sys, s': Sys, a: Id)
    requires Tree(s) && Mono(s, s') && (a in s'.act ==> TreeOk(s', a))
    requires forall b :: b != a && b in s'.act ==> b in s.act && s'.act[b] == s.act[b]
    ensures Tree(s')
  {
    forall b | b in s'.act && b != a ensures TreeOk(s', b) { TreeSame(s, s', b); }
  }

  lemma SpawnTree(s: Sys, s': Sys, a: Id, kind: string, name: string)
    requires Tree(s) && SpawnChild(s, s', a, kind, name)
    ensures Tree(s')
  {
    var k := ChildId(a, kind, name);
    StepMono(s, s', LSpawn(a, kind, name));
    ChildExtends(a, kind, name);
    forall b | b in s'.act ensures TreeOk(s', b) {
      if b == a { SpawningOk(s, s', a, k); } else if b != k { TreeSame(s, s', b); }
    }
  }

  lemma SpawningOk(s: Sys, s': Sys, a: Id, k: Id)
    requires a in s.act && TreeOk(s, a) && Mono(s, s') && k in s'.act && Extends(a, k)
    requires (s.act[a].pc.Starting? || s.act[a].pc.Handling?)
    requires s'.act[a] == s.act[a].(pc := Spawning(k, s.act[a].pc.Starting?))
    ensures TreeOk(s', a)
  {
    var t := s'.(act := s'.act[a := s.act[a]]);
    TreeSame(s, t, a);
    var x := s.act[a];
    if x.cascade.Some? {
      forall j | j in x.cascade.value ensures KidOk(s', a, j, x.cascade.value[j], false) {
        assert KidOk(t, a, j, x.cascade.value[j], x.pc.Waiting?);
      }
    }
  }

  lemma SnapTree(s: Sys, s': Sys, a: Id, kids: map<Id, Waiter>)
    requires Tree(s) && TakeSnapshot(s, s', a, kids)
    ensures Tree(s')
  {
    StepMono(s, s', LSnap(a, kids));
    var x := s.act[a];
    assert TreeOk(s, a);
    forall k | k in kids ensures KidOk(s', a, k, kids[k], true) {
      assert kids[k] in kids.Values;
    }
    TreeOthers(s, s', a);
  }

  lemma LeaveTree(s: Sys, a: Id, parent: Option<Id>)
    requires Tree(s) && a in s.act && s.act[a].stopped
    ensures Tree(LeaveParent(s, a, parent))
  {
    var s' := LeaveParent(s, a, parent);
    if s' != s {
      var p := parent.value;
      var x := s.act[p];
      assert TreeOk(s, p);
      if x.cascade.Some? {
        forall k | k in x.cascade.value ensures KidOk(s', p, k, x.cascade.value[k], x.pc.Waiting?) {
          assert KidOk(s, p, k, x.cascade.value[k], x.pc.Waiting?);
        }
      }
      TreeOthers(s, s', p);
    }
  }

  lemma DetachTree(s: Sys, s': Sys, a: Id)
    requires Locals(s) && Tree(s) && a in s.act && s.act[a].pc.Tear? && s.act[a].pc.stage == 0 && TearStep(s, s', a)
    ensures Tree(s')
  {
    var x := s.act[a];
    assert Local(x, a in s.reg);
    var t := Put(s, a, TearNext(x));
    MonoPut(s, t, a);
    TreeSame(s, t, a);
    TreeOthers(s, t, a);
    LeaveTree(t, a, x.parent);
  }

  lemma ReturnTree(s: Sys, s': Sys, a: Id)
    requires Locals(s) && Tree(s) && a in s.act && s.act[a].pc.Spawning? && SpawnReturn(s, s', a)
    ensures Tree(s')
  {
    var x := s.act[a];
    assert TreeOk(s, a) && Local(x, a in s.reg);
    assert x.cascade.None?;
    assert TreeOk(s', a);
    TreeOthers(s, s', a);
  }

  lemma OwnTree(s: Sys, s': Sys, a: Id)
    requires Locals(s) && Tree(s) && OwnStep(s, s', a)
    ensures Tree(s')
  {
    var x := s.act[a];
    if x.pc.Tear? && x.pc.stage == 0 {
      DetachTree(s, s', a);
    } else if x.pc.Spawning? {
      ReturnTree(s, s', a);
    } else {
      OwnShape(s, s', a);
      MonoPut(s, s', a);
      TreeSame(s, s', a);
      TreeOthers(s, s', a);
    }
  }

  lemma CallTree(s: Sys, s': Sys, w: Waiter)
    requires Tree(s) && CallStep(s, s', w)
    ensures Tree(s')
  {
    var t := s.calls[w].target;
    CallMono(s, s', w);
    if t in s.act { TreeSame(s, s', t); }
    TreeOthers(s, s', t);
  }

  lemma ChoiceTree(s: Sys, s': Sys, l: Label)
    requires Tree(s) && Step(s, s', l) && (l.LSend? || l.LPop? || l.LGiveUp? || l.LCancel?)
    ensures Tree(s')
  {
    MonoPut(s, s', l.a);
    TreeSame(s, s', l.a);
    TreeOthers(s, s', l.a);
  }

  lemma TreeKeeps(s: Sys, s': Sys, l: Label)
    requires Locals(s) && Tree(s) && Step(s, s', l)
    ensures Tree(s')
  {
    match l
    case LRoot(_) => ArriveTree(s, s', l);
    case LSpawn(a, kind, name) => SpawnTree(s, s', a, kind, name);
    case LPoison(_, _) => ArriveTree(s, s', l);
    case LCall(w) => CallTree(s, s', w);
    case LSnap(a, kids) => SnapTree(s, s', a, kids);
    case LOwn(a) => OwnTree(s, s', a);
    case _ => ChoiceTree(s, s', l);
  }

  lemma ArriveTree(s: Sys, s': Sys, l: Label)
    requires Tree(s) && Step(s, s', l) && (l.LRoot? || l.LPoison?)
    ensures Tree(s')
  {
    assert Mono(s, s');
    if l.LRoot? {
      TreeOthers(s, s', l.a);
    } else {
      forall b | b in s'.act ensures TreeOk(s', b) { TreeSame(s, s', b); }
    }
  }

  // ---------------------------------------------------------------- order of Stopped

  /** The p-th Stopped, if a pill asked for it, came after the Stopped of every child that accepted the cascade. */
  ghost predicate AfterKids(s: Sys, p: nat)
    requires p < |s.stops|
  {
    var a := s.stops[p];
    a in s.act && !s.act[a].gaveUp && s.act[a].cascade.Some? ==>
      forall k :: k in s.act[a].cascade.value && Accepted(s, s.act[a].cascade.value[k]) ==> k in s.stops[..p]
  }

  predicate Accepted(s: Sys, w: Waiter) { w in s.calls && s.calls[w].accepted }

  ghost predicate StopOrder(s: Sys) {
    && (forall p: nat :: p < |s.stops| ==> s.stops[p] in s.act && s.act[s.stops[p]].stopAt.Some?)
    && (forall a :: a in s.act && s.act[a].stopAt.Some? ==> a in s.stops)
    && (forall p: nat, q: nat :: p < q < |s.stops| ==> s.stops[p] != s.stops[q])
    && (forall p: nat :: p < |s.stops| ==> AfterKids(s, p))
  }

  /** For actors that have stopped, a step changes nothing the order speaks of. */
  ghost predicate OrderFrame(s: Sys, s': Sys) {
    && s'.stops == s.stops && s.act.Keys <= s'.act.Keys
    && (forall a :: a in s'.act ==> if a in s.act then s'.act[a].stopAt == s.act[a].stopAt else s'.act[a].stopAt.None?)
    && (forall a :: a in s.act && s.act[a].stopAt.Some? && !s'.act[a].gaveUp ==>
          !s.act[a].gaveUp && s'.act[a].cascade == s.act[a].cascade)
    && (forall w :: w in s.cancelled && Accepted(s', w) ==> Accepted(s, w))
  }

  lemma OrderSame(s: Sys, s': Sys)
    requires Locals(s) && Tree(s) && StopOrder(s) && OrderFrame(s, s')
    ensures StopOrder(s')
  {
    forall p: nat | p < |s.stops| ensures AfterKids(s', p) {
      var a := s.stops[p];
      assert AfterKids(s, p) && Local(s.act[a], a in s.reg) && TreeOk(s, a);
      var x := s.act[a];
      if !s'.act[a].gaveUp && x.cascade.Some? {
        assert x.stopped && !x.pc.Waiting?;
        forall k | k in x.cascade.value && Accepted(s', x.cascade.value[k]) ensures k in s.stops[..p] {
          assert KidOk(s, a, k, x.cascade.value[k], false);
        }
      }
    }
  }

  /** An actor's record changes without touching what the order speaks of. */
  ghost predicate SameEnd(x: Actor, y: Actor) {
    y.stopAt == x.stopAt && y.gaveUp == x.gaveUp && y.cascade == x.cascade
  }

  lemma OrderPut(s: Sys, s': Sys, a: Id)
    requires a in s.act && a in s'.act && s'.act == s.act[a := s'.act[a]] && SameEnd(s.act[a], s'.act[a])
    requires s'.stops == s.stops && s'.calls == s.calls
    ensures OrderFrame(s, s')
  {
  }

  lemma PrivateEnd(x: Actor)
    requires Private(x)
    ensures SameEnd(x, PrivateNext(x))
  {
  }

  lemma OwnOrder(s: Sys, s': Sys, a: Id)
    requires OwnStep(s, s', a) && !(s.act[a].pc.Tear? && s.act[a].pc.stage <= 1)
    ensures OrderFrame(s, s')
  {
    if Private(s.act[a]) { PrivateEnd(s.act[a]); }
    OrderPut(s, s', a);
  }

  lemma DetachOrder(s: Sys, s': Sys, a: Id)
    requires a in s.act && s.act[a].pc.Tear? && s.act[a].pc.stage == 0 && TearStep(s, s', a)
    ensures OrderFrame(s, s')
  {
    var x := s.act[a];
    var t := Put(s, a, TearNext(x));
    OrderPut(s, t, a);
    if s' != t { OrderPut(t, s', x.parent.value); }
  }

  lemma CallOrder(s: Sys, s': Sys, w: Waiter)
    requires CallStep(s, s', w) && (s.calls[w].pc.Add? ==> w !in s.cancelled)
    ensures OrderFrame(s, s')
  {
    assert s'.stops == s.stops && s'.act.Keys == s.act.Keys;
    var t := s.calls[w].target;
    assert t in s.act ==> SameEnd(s.act[t], s'.act[t]);
  }

  lemma SnapOrder(s: Sys, s': Sys, a: Id, kids: map<Id, Waiter>)
    requires TakeSnapshot(s, s', a, kids) && s.cancelled <= s.calls.Keys
    requires s.act[a].stopAt.Some? ==> s.act[a].gaveUp
    ensures OrderFrame(s, s')
  {
    assert forall w :: w in s.cancelled ==> w in s.calls;
  }

  /** The new Stopped is the last in the order, and everything it had to wait for is already there. */
  lemma StoppedOrder(s: Sys, s': Sys, a: Id)
    requires Locals(s) && Waiters(s) && Tree(s) && StopOrder(s)
    requires a in s.act && s.act[a].pc.Tear? && s.act[a].pc.stage == 1 && TearStep(s, s', a)
    ensures StopOrder(s')
  {
    StoppedOnce(s, s', a);
    forall p: nat | p < |s'.stops| ensures AfterKids(s', p) {
      if p < |s.stops| { EarlierAfterKids(s, s', a, p); } else { LastAfterKids(s, s', a); }
    }
  }

  lemma StoppedOnce(s: Sys, s': Sys, a: Id)
    requires Locals(s) && StopOrder(s)
    requires a in s.act && s.act[a].pc.Tear? && s.act[a].pc.stage == 1 && TearStep(s, s', a)
    ensures forall p: nat :: p < |s'.stops| ==> s'.stops[p] in s'.act && s'.act[s'.stops[p]].stopAt.Some?
    ensures forall b :: b in s'.act && s'.act[b].stopAt.Some? ==> b in s'.stops
    ensures forall p: nat, q: nat :: p < q < |s'.stops| ==> s'.stops[p] != s'.stops[q]
  {
    assert Local(s.act[a], a in s.reg);
    assert a !in s.stops;
    assert s'.stops[|s.stops|] == a;
  }

  lemma EarlierAfterKids(s: Sys, s': Sys, a: Id, p: nat)
    requires Locals(s) && StopOrder(s) && p < |s.stops|
    requires a in s.act && s.act[a].pc.Tear? && s.act[a].pc.stage == 1 && TearStep(s, s', a)
    ensures AfterKids(s', p)
  {
    assert Local(s.act[a], a in s.reg) && AfterKids(s, p);
    assert s.stops[p] != a;
    assert s'.stops[..p] == s.stops[..p];
  }

  lemma LastAfterKids(s: Sys, s': Sys, a: Id)
    requires Locals(s) && Waiters(s) && Tree(s) && StopOrder(s)
    requires a in s.act && s.act[a].pc.Tear? && s.act[a].pc.stage == 1 && TearStep(s, s', a)
    ensures AfterKids(s', |s.stops|)
  {
    var x := s.act[a];
    assert TreeOk(s, a);
    assert s'.stops[..|s.stops|] == s.stops;
    if x.cascade.Some? {
      forall k | k in x.cascade.value && Accepted(s, x.cascade.value[k]) ensures k in s.stops {
        assert KidOk(s, a, k, x.cascade.value[k], false);
        assert CallOk(s, x.cascade.value[k]) && Held(s.act[k], k, s.calls, s.cancelled);
      }
    }
  }

  lemma OrderKeeps(s: Sys, s': Sys, l: Label)
    requires Locals(s) && Waiters(s) && Tree(s) && StopOrder(s) && Step(s, s', l)
    ensures StopOrder(s')
  {
    if l.LOwn? && s.act[l.a].pc.Tear? && s.act[l.a].pc.stage == 1 {
      StoppedOrder(s, s', l.a);
    } else {
      FrameOf(s, s', l);
      OrderSame(s, s');
    }
  }

  lemma FrameOf(s: Sys, s': Sys, l: Label)
    requires Locals(s) && Waiters(s) && Step(s, s', l)
    requires !(l.LOwn? && s.act[l.a].pc.Tear? && s.act[l.a].pc.stage == 1)
    ensures OrderFrame(s, s')
  {
    match l
    case LOwn(a) =>
      if s.act[a].pc.Tear? && s.act[a].pc.stage == 0 { DetachOrder(s, s', a); } else { OwnOrder(s, s', a); }
    case LCall(w) => assert CallOk(s, w); CallOrder(s, s', w);
    case LSnap(a, kids) => assert Local(s.act[a], a in s.reg); SnapOrder(s, s', a, kids);
    case LSend(a, _) => OrderPut(s, s', a);
    case LPop(a, _) => OrderPut(s, s', a);
    case LCancel(a, _) => OrderPut(s, s', a);
    case _ => ArriveOrder(s, s', l);
  }

  lemma ArriveOrder(s: Sys, s': Sys, l: Label)
    requires Step(s, s', l) && (l.LRoot? || l.LSpawn? || l.LPoison? || l.LGiveUp?) && s.cancelled <= s.calls.Keys
    ensures OrderFrame(s, s')
  {
  }
}
