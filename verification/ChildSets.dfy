/** What an actor's child set holds: who is taken out, and who is left behind. */
module ChildSets {
  import opened Wrappers
  import opened Pids
  import opened Lifecycle
  import opened LifecycleInv
  import opened CascadeInv
  import opened LifecycleTheorems

  /** What the record x of parent p says about a child k it once recorded, whose own record is y. */
  predicate EntryOk(x: Actor, y: Actor, p: Id, k: Id, inReg: bool) {
    && y.parent == Some(p)
    && (k in x.late ==> Left(y) && k in x.children)
    && (k in x.children && Left(y) && inReg ==> k in x.late)
  }

  ghost predicate Entry(s: Sys, p: Id, k: Id)
    requires p in s.act
  {
    k in s.act && EntryOk(s.act[p], s.act[k], p, k, p in s.reg)
  }

  ghost predicate Entries(s: Sys) {
    && (forall p, k :: p in s.act && k in s.act[p].recorded ==> Entry(s, p, k))
    && forall p :: p in s.act ==> s.act[p].late <= s.act[p].recorded
  }

  /** A child being spawned knows its parent. */
  ghost predicate Spawns(s: Sys) {
    forall p :: p in s.act && s.act[p].pc.Spawning? ==>
      s.act[p].pc.child in s.act && s.act[s.act[p].pc.child].parent == Some(p)
  }

  predicate SameSets(x: Actor, y: Actor) {
    && y.parent == x.parent && (Left(y) <==> Left(x))
    && y.children == x.children && y.recorded == x.recorded && y.late == x.late
  }

  /** A step that moves no child in or out of a set. */
  ghost predicate Quiet(s: Sys, s': Sys) {
    && (forall p :: p in s.act ==> p in s'.act && SameSets(s.act[p], s'.act[p]) && (p in s'.reg ==> p in s.reg))
    && (forall p :: p in s'.act && p !in s.act ==> s'.act[p].recorded == {} == s'.act[p].late)
  }

  lemma QuietEntries(s: Sys, s': Sys)
    requires Entries(s) && Quiet(s, s')
    ensures Entries(s')
  {
    forall p, k | p in s'.act && k in s'.act[p].recorded ensures Entry(s', p, k) {
      assert p in s.act && SameSets(s.act[p], s'.act[p]);
      assert Entry(s, p, k);
      assert SameSets(s.act[k], s'.act[k]);
    }
  }

  lemma PrivateSets(x: Actor)
    requires Private(x)
    ensures SameSets(x, PrivateNext(x)) && !PrivateNext(x).pc.Spawning?
  {
  }

  lemma TearSets(x: Actor)
    requires x.pc.Tear? && x.stopped && x.pc.stage > 0
    ensures SameSets(x, TearNext(x))
  {
  }

  lemma OwnQuiet(s: Sys, s': Sys, a: Id)
    requires Locals(s) && OwnStep(s, s', a) && !s.act[a].pc.Spawning? && !(s.act[a].pc.Tear? && s.act[a].pc.stage == 0)
    ensures Quiet(s, s') && s'.act == s.act[a := s'.act[a]] && !s'.act[a].pc.Spawning?
  {
    var x := s.act[a];
    assert Local(x, a in s.reg);
    if Private(x) { PrivateSets(x); } else if x.pc.Tear? { TearSets(x); }
    assert SameSets(x, s'.act[a]);
  }

  lemma CallQuiet(s: Sys, s': Sys, w: Waiter)
    requires CallStep(s, s', w)
    ensures Quiet(s, s') && s'.act.Keys == s.act.Keys && forall p :: p in s.act ==> s'.act[p].pc == s.act[p].pc
  {
  }

  /** SpawnChild returns: the child is recorded, late if it has already left. */
  lemma ReturnEntries(s: Sys, s': Sys, a: Id)
    requires Entries(s) && Spawns(s) && a in s.act && s.act[a].pc.Spawning? && SpawnReturn(s, s', a)
    ensures Entries(s')
  {
    forall p, k | p in s'.act && k in s'.act[p].recorded ensures Entry(s', p, k) {
      if k in s.act[p].recorded { assert Entry(s, p, k); }
      ReturnRecords(s, s', a, p);
      ReturnRecords(s, s', a, k);
    }
    forall p | p in s'.act ensures s'.act[p].late <= s'.act[p].recorded { ReturnRecords(s, s', a, p); }
  }

  lemma ReturnRecords(s: Sys, s': Sys, a: Id, p: Id)
    requires a in s.act && s.act[a].pc.Spawning? && SpawnReturn(s, s', a) && p in s'.act
    ensures p in s.act && s'.reg == s.reg && var x, y, c := s.act[p], s'.act[p], s.act[a].pc.child;
            && y.parent == x.parent && (Left(y) <==> Left(x))
            && (p != a || a !in s.reg ==> SameSets(x, y))
            && (p == a && a in s.reg ==>
                  && c in s.act && y.children == x.children + {c} && y.recorded == x.recorded + {c}
                  && y.late == if Left(s.act[c]) then x.late + {c} else x.late)
  {
  }

  lemma ReturnSpawns(s: Sys, s': Sys, a: Id)
    requires Spawns(s) && a in s.act && s.act[a].pc.Spawning? && SpawnReturn(s, s', a)
    ensures Spawns(s')
  {
    assert forall p :: p in s.act && p != a ==> s'.act[p] == s.act[p];
  }

  /** Shutdown takes the actor out of its parent's set, if the parent still resolves. */
  lemma LeaveEntries(s: Sys, s': Sys, a: Id)
    requires Entries(s) && Tree(s) && a in s.act && s.act[a].pc.Tear? && s.act[a].pc.stage == 0 && TearStep(s, s', a)
    ensures Entries(s')
  {
    assert TreeOk(s, a);
    forall p, k | p in s'.act && k in s'.act[p].recorded ensures Entry(s', p, k) {
      LeaveRecords(s, s', a, p);
      assert Entry(s, p, k);
      LeaveRecords(s, s', a, k);
    }
    forall p | p in s'.act ensures s'.act[p].late <= s'.act[p].recorded { LeaveRecords(s, s', a, p); }
  }

  lemma LeaveRecords(s: Sys, s': Sys, a: Id, p: Id)
    requires a in s.act && s.act[a].pc.Tear? && s.act[a].pc.stage == 0 && TearStep(s, s', a) && p in s'.act
    requires s.act[a].parent != Some(a)
    ensures p in s.act && s'.reg == s.reg && var x, y := s.act[p], s'.act[p];
            && y.parent == x.parent && y.recorded == x.recorded && y.late == x.late
            && (if p == a then !Left(x) else Left(y) <==> Left(x))
            && y.children == (if s.act[a].parent == Some(p) && p in s.reg then x.children - {a} else x.children)
  {
  }

  lemma LeaveSpawns(s: Sys, s': Sys, a: Id)
    requires Spawns(s) && a in s.act && s.act[a].pc.Tear? && s.act[a].pc.stage == 0 && TearStep(s, s', a)
    ensures Spawns(s')
  {
    assert forall p :: p in s.act && p != a ==> s'.act[p].pc == s.act[p].pc && s'.act[p].parent == s.act[p].parent;
  }

  lemma OwnEntries(s: Sys, s': Sys, a: Id)
    requires Entries(s) && Spawns(s) && Tree(s) && Locals(s) && OwnStep(s, s', a)
    ensures Entries(s') && Spawns(s')
  {
    var x := s.act[a];
    if x.pc.Spawning? {
      ReturnEntries(s, s', a);
      ReturnSpawns(s, s', a);
    } else if x.pc.Tear? && x.pc.stage == 0 {
      LeaveEntries(s, s', a);
      LeaveSpawns(s, s', a);
    } else {
      OwnQuiet(s, s', a);
      QuietEntries(s, s');
    }
  }

  lemma StepEntries(s: Sys, s': Sys, l: Label)
    requires Entries(s) && Spawns(s) && Tree(s) && Locals(s) && Step(s, s', l)
    ensures Entries(s') && Spawns(s')
  {
    if l.LOwn? {
      OwnEntries(s, s', l.a);
    } else {
      if l.LCall? { CallQuiet(s, s', l.w); } else { OtherQuiet(s, s', l); }
      QuietEntries(s, s');
    }
  }

  lemma OtherQuiet(s: Sys, s': Sys, l: Label)
    requires Spawns(s) && Step(s, s', l) && !l.LOwn? && !l.LCall?
    ensures Quiet(s, s') && Spawns(s')
  {
    match l
    case LRoot(_) =>
    case LSpawn(a, kind, name) => SpawnQuiet(s, s', a, kind, name);
    case LPoison(_, _) =>
    case LSnap(a, _) => OneQuiet(s, s', a);
    case LSend(a, _) => OneQuiet(s, s', a);
    case LPop(a, _) => OneQuiet(s, s', a);
    case LGiveUp(a) => OneQuiet(s, s', a);
    case LCancel(a, _) => OneQuiet(s, s', a);
  }

  lemma OneQuiet(s: Sys, s': Sys, a: Id)
    requires Spawns(s) && a in s.act && a in s'.act && s'.act == s.act[a := s'.act[a]] && s'.reg == s.reg
    requires SameSets(s.act[a], s'.act[a]) && (s'.act[a].pc.Spawning? ==> s'.act[a].pc == s.act[a].pc)
    ensures Quiet(s, s') && Spawns(s')
  {
  }

  lemma SpawnQuiet(s: Sys, s': Sys, a: Id, kind: string, name: string)
    requires Spawns(s) && SpawnChild(s, s', a, kind, name)
    ensures Quiet(s, s') && Spawns(s')
  {
    assert SameSets(s.act[a], s'.act[a]);
  }

  lemma {:induction false} EntriesOfRun(run: seq<Sys>, labels: seq<Label>, i: nat)
    requires SysRun(run, labels) && i < |run|
    ensures Entries(run[i]) && Spawns(run[i])
  {
    if i > 0 {
      EntriesOfRun(run, labels, i - 1);
      SysSafety(run, labels, i - 1);
      var l := labels[i - 1];
      StepEntries(run[i - 1], run[i], l);
    }
  }

  /**
   While the parent resolves, a child whose Shutdown has passed the removal is still listed if and only if it had
   passed it before SpawnChild recorded it.
   */
  lemma LeftBehindIffLate(run: seq<Sys>, labels: seq<Label>, i: nat, p: Id, k: Id)
    requires SysRun(run, labels) && i < |run| && p in run[i].act && p in run[i].reg && k in run[i].act[p].recorded
    ensures k in run[i].act
    ensures Left(run[i].act[k]) ==> (k in run[i].act[p].children <==> k in run[i].act[p].late)
  {
    EntriesOfRun(run, labels, i);
    assert Entry(run[i], p, k);
  }
}
