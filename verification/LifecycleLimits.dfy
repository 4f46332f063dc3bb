/** Reachable states that mark where the guarantees of the lifecycle machine end. */
module LifecycleLimits {
  import opened Wrappers
  import opened Pids
  import opened Lifecycle
  import opened LifecycleInv
  import opened CascadeInv
  import opened LifecycleTheorems

  ghost predicate Reachable(s: Sys) {
    exists run, labels :: SysRun(run, labels) && run[|labels|] == s
  }

  lemma Begin(s: Sys)
    requires SysInit(s)
    ensures Reachable(s)
  {
    var labels: seq<Label> := [];
    assert SysRun([s], labels) && [s][|labels|] == s;
  }

  lemma Extend(s: Sys, s': Sys, l: Label)
    requires Reachable(s) && Step(s, s', l)
    ensures Reachable(s')
  {
    var run, labels :| SysRun(run, labels) && run[|labels|] == s;
    var run', labels' := run + [s'], labels + [l];
    forall i {:trigger labels'[i]} | 0 <= i < |labels'| ensures Step(run'[i], run'[i + 1], labels'[i]) {
      if i < |labels| { assert labels'[i] == labels[i]; }
    }
    assert SysRun(run', labels') && run'[|labels'|] == s';
  }

  /** A lone actor handling a user message. */
  lemma OneHandling(a: Id) returns (s: Sys)
    ensures Reachable(s) && s.act.Keys == {a} == s.reg && s.calls == map[] && s.cancelled == {} && s.stops == []
    ensures s.act[a] == Fresh(None).(pushed := [User(0)], popped := 1, walk := 1, pc := Handling, got := [User(0)])
  {
    var s0 := Sys(map[], {}, map[], {}, []);
    Begin(s0);
    var s1 := s0.(act := map[a := Fresh(None)], reg := {a});
    assert s1.act == s0.act[a := Fresh(None)] && s1.reg == s0.reg + {a};
    Extend(s0, s1, LRoot(a));
    var s2 := Put(s1, a, s1.act[a].(pc := Loop));
    Extend(s1, s2, LOwn(a));
    var s3 := Put(s2, a, s2.act[a].(pushed := [User(0)]));
    assert [] + [User(0)] == [User(0)];
    Extend(s2, s3, LSend(a, 0));
    var s4 := Put(s3, a, s3.act[a].(popped := 1, pc := Walk));
    Extend(s3, s4, LPop(a, 1));
    s := Put(s4, a, WalkNext(s4.act[a]));
    Extend(s4, s, LOwn(a));
  }

  /**
   A refused waiter may be woken while its actor still resolves and has not been handed Stopped: only acceptance
   makes Done mean gone.
   */
  lemma RefusedWakesEarly(a: Id, w: Waiter)
    ensures exists s ::
              && Reachable(s) && w in s.calls && s.calls[w].target == a && w in s.cancelled && !s.calls[w].accepted
              && a in s.reg && a in s.act && s.act[a].stopAt.None? && !s.act[a].closed
  {
    var s0 := OneHandling(a);
    var c := Call(a, Lookup, true, false);
    var s1 := s0.(calls := s0.calls[w := c]);
    Extend(s0, s1, LPoison(w, a));
    var s2 := s1.(calls := s1.calls[w := c.(pc := Add)]);
    Extend(s1, s2, LCall(w));
    var s3 := Put(s2, a, s2.act[a].(pc := Claim(None), gaveUp := true));
    Extend(s2, s3, LGiveUp(a));
    var s4 := Put(s3, a, ClaimNext(s3.act[a]));
    Extend(s3, s4, LOwn(a));
    var s5 := s4.(calls := s4.calls[w := c.(pc := Fire)]);
    Extend(s4, s5, LCall(w));
    var s6 := s5.(cancelled := s5.cancelled + {w}, calls := s5.calls[w := c.(pc := Returned)]);
    Extend(s5, s6, LCall(w));
  }

  /** A parent handling a message, with one recorded child at rest. */
  lemma ParentAndChild(a: Id, k: Id, kind: string, name: string) returns (s: Sys)
    requires k == ChildId(a, kind, name)
    ensures Reachable(s) && k != a && a in s.act && k in s.act && a in s.reg && k in s.reg
    ensures s.act[a].pc.Handling? && !s.act[a].stopped && s.act[a].recorded == {k} && s.act[a].parent.None?
    ensures s.act[a].cancels == {} && s.act[a].cut.None? && s.act[k].pc.Loop? && !s.act[k].stopped
  {
    ChildExtends(a, kind, name);
    var s0 := OneHandling(a);
    var s1 := s0.(act := s0.act[a := s0.act[a].(pc := Spawning(k, false))][k := Fresh(Some(a))], reg := s0.reg + {k});
    Extend(s0, s1, LSpawn(a, kind, name));
    var s2 := Put(s1, k, s1.act[k].(pc := Loop));
    Extend(s1, s2, LOwn(k));
    s := Put(s2, a,
      s2.act[a].(pc := Handling, children := s2.act[a].children + {k}, recorded := s2.act[a].recorded + {k}));
    Extend(s2, s, LOwn(a));
  }

  /** An actor that gives up takes the stop and leaves its parent; if nobody lists it, nothing else changes. */
  lemma GiveUpLeaves(s: Sys, a: Id) returns (s': Sys)
    requires Reachable(s) && a in s.act && s.act[a].pc.Handling? && !s.act[a].stopped
    requires var p := s.act[a].parent; p.Some? ==> p.value != a && p.value in s.act && a !in s.act[p.value].children
    ensures Reachable(s') && var x := s.act[a];
            s' == Put(s, a, x.(gaveUp := true, stopped := true, cancels := {}, pc := Tear(1, None, x.cancels)))
  {
    var s1 := Put(s, a, s.act[a].(pc := Claim(None), gaveUp := true));
    Extend(s, s1, LGiveUp(a));
    var s2 := Put(s1, a, ClaimNext(s1.act[a]));
    Extend(s1, s2, LOwn(a));
    s' := Put(s2, a, TearNext(s2.act[a]));
    LeaveNothing(s', a, s.act[a].parent);
    Extend(s2, s', LOwn(a));
  }

  lemma GiveUpDies(s: Sys, a: Id) returns (s': Sys)
    requires Reachable(s) && a in s.act && s.act[a].pc.Handling? && !s.act[a].stopped
    requires var p := s.act[a].parent; p.Some? ==> p.value != a && p.value in s.act && a !in s.act[p.value].children
    ensures Reachable(s') && Dead(s', a) && s'.act == s.act[a := s'.act[a]] && s'.reg == s.reg - {a}
    ensures s'.act[a].gaveUp && !InStart(s'.act[a].pc)
    ensures s'.act[a].recorded == s.act[a].recorded && s'.act[a].cut == s.act[a].cut
  {
    var s3 := GiveUpLeaves(s, a);
    var s4 := Put(s3, a, TearNext(s3.act[a])).(stops := s3.stops + [a]);
    Extend(s3, s4, LOwn(a));
    var s5 := Put(s4, a, TearNext(s4.act[a])).(reg := s4.reg - {a});
    Extend(s4, s5, LOwn(a));
    s' := Put(s5, a, TearNext(s5.act[a]));
    Extend(s5, s', LOwn(a));
  }

  lemma LeaveNothing(s: Sys, a: Id, parent: Option<Id>)
    requires parent.Some? ==> parent.value in s.act && a !in s.act[parent.value].children
    ensures LeaveParent(s, a, parent) == s
  {
    if parent.Some? {
      var x := s.act[parent.value];
      assert x.children - {a} == x.children;
      assert s.act[parent.value := x] == s.act;
    }
  }

  /** Giving up alone does not cascade: with no pill reached, a parent can be dead while a child it recorded runs on. */
  lemma GiveUpLeavesChildren(a: Id, k: Id, kind: string, name: string)
    requires k == ChildId(a, kind, name)
    ensures exists s ::
              && Reachable(s) && Dead(s, a) && s.act[a].gaveUp && s.act[a].cut.None? && k in s.act[a].recorded
              && k in s.reg && k in s.act && !s.act[k].stopped
  {
    var s0 := ParentAndChild(a, k, kind, name);
    var s := GiveUpDies(s0, a);
  }

  /** A parent still inside SpawnChild, with the child already handling a message. */
  lemma BusyChild(a: Id, k: Id, kind: string, name: string) returns (s: Sys)
    requires k == ChildId(a, kind, name)
    ensures Reachable(s) && k != a && a in s.act && k in s.act && a in s.reg && k in s.reg
    ensures s.act[a].pc == Spawning(k, false) && s.act[a].children == {} && !s.act[a].stopped
    ensures s.act[k].pc.Handling? && !s.act[k].stopped && s.act[k].parent == Some(a)
  {
    ChildExtends(a, kind, name);
    var s0 := OneHandling(a);
    var s1 := s0.(act := s0.act[a := s0.act[a].(pc := Spawning(k, false))][k := Fresh(Some(a))], reg := s0.reg + {k});
    Extend(s0, s1, LSpawn(a, kind, name));
    var s2 := Put(s1, k, s1.act[k].(pc := Loop));
    Extend(s1, s2, LOwn(k));
    var s3 := Put(s2, k, s2.act[k].(pushed := [User(0)]));
    assert [] + [User(0)] == [User(0)];
    Extend(s2, s3, LSend(k, 0));
    var s4 := Put(s3, k, s3.act[k].(popped := 1, pc := Walk));
    Extend(s3, s4, LPop(k, 1));
    s := Put(s4, k, WalkNext(s4.act[k]));
    Extend(s4, s, LOwn(k));
  }

  /** A child that dies before SpawnChild records it stays listed by a parent that runs on. */
  lemma LateChildStaysListed(a: Id, k: Id, kind: string, name: string)
    requires k == ChildId(a, kind, name)
    ensures exists s ::
              Reachable(s) && a in s.reg && a in s.act && !s.act[a].stopped && Dead(s, k) && k in s.act[a].children
  {
    var s0 := BusyChild(a, k, kind, name);
    var s1 := GiveUpDies(s0, k);
    var x := s1.act[a];
    assert x == s0.act[a];
    var s2 := Put(s1, a, Record(x.(pc := Handling), k, Left(s1.act[k])));
    Extend(s1, s2, LOwn(a));
    assert Dead(s2, k);
  }
}
