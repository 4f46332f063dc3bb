/** The inductive invariant of the lifecycle machine and its preservation by every step. */
module LifecycleInv {
  import opened Wrappers
  import opened Pids
  import opened Lifecycle

  // ---------------------------------------------------------------- one actor

  /** The pill whose teardown is in progress. */
  function Carried(pc: Pc): Option<Waiter> {
    match pc
    case Snapshot(w) => Some(w)
    case Waiting(w) => Some(w)
    case Settle(w) => Some(w)
    case Claim(cause) => cause
    case Tear(_, cause, _) => cause
    case _ => None
  }

  function Snap(pc: Pc): set<Waiter> { if pc.Tear? then pc.snap else {} }

  /** What was delivered is the mailbox up to the first pill, and nothing follows that pill. */
  ghost predicate Mailbox(x: Actor) {
    && x.walk <= x.popped <= |x.pushed|
    && x.got <= x.pushed
    && (forall i :: 0 <= i < |x.got| ==> x.got[i].User?)
    && (x.cut.None? ==> |x.got| == x.walk && Carried(x.pc).None?)
    && (x.cut.Some? ==>
          && x.cut.value == |x.got| && x.walk == |x.got| + 1 && x.pushed[|x.got|].Pill?
          && (Carried(x.pc).Some? || (x.pc.Loop? && x.closed) || x.pc.Gone?))
    && ((x.pc.Loop? || x.pc.Gone?) && x.cut.None? ==> x.walk == x.popped)
    && (InStart(x.pc) ==> x.popped == 0)
  }

  /** The stop flag, the registry, the inbox and Stopped move in the order Shutdown prescribes. */
  ghost predicate Teardown(x: Actor, inReg: bool) {
    && (!x.stopped ==> inReg && !x.closed && x.stopAt.None? && !x.pc.Tear? && !x.pc.Settle? && !x.pc.Gone?)
    && (x.stopped && x.pc.Tear? ==>
          && x.pc.stage <= 4
          && (inReg <==> x.pc.stage <= 2)
          && (x.closed <==> x.pc.stage >= 4)
          && (x.stopAt.Some? <==> x.pc.stage >= 2))
    && (x.stopped && !x.pc.Tear? ==> !inReg && x.closed && x.stopAt.Some?)
    && (x.stopped ==> x.cancels == {})
  }

  /** What tells a pill's teardown from a give-up. */
  ghost predicate Causes(x: Actor) {
    && (x.stopped && !x.gaveUp ==> x.cut.Some?)
    && ((x.pc.Claim? || x.pc.Tear?) && x.pc.cause.None? ==> x.gaveUp)
    && (x.stopAt.Some? && !x.gaveUp ==> x.stopAt.value == |x.got|)
    && (InStart(x.pc) ==> !x.stopped)
    && (x.stopped && (x.pc.Snapshot? || x.pc.Waiting? || x.pc.Claim?) ==> x.gaveUp)
    && (x.cascade.Some? <==> x.cut.Some? && !x.pc.Snapshot?)
  }

  ghost predicate Local(x: Actor, inReg: bool) {
    Mailbox(x) && Teardown(x, inReg) && Causes(x)
  }

  ghost predicate Locals(s: Sys) {
    s.reg <= s.act.Keys && forall a :: a in s.act ==> Local(s.act[a], a in s.reg)
  }

  lemma WalkLocal(x: Actor, inReg: bool)
    requires Local(x, inReg) && x.pc.Walk?
    ensures Local(WalkNext(x), inReg)
  {
    var y := WalkNext(x);
    if x.walk < x.popped && x.pushed[x.walk].User? { assert y.got == x.pushed[..x.walk + 1]; }
  }

  lemma ClaimLocal(x: Actor, inReg: bool)
    requires Local(x, inReg) && x.pc.Claim?
    ensures Local(ClaimNext(x), inReg)
  {
  }

  lemma PrivateLocal(x: Actor, inReg: bool)
    requires Local(x, inReg) && Private(x)
    ensures Local(PrivateNext(x), inReg)
  {
    if x.pc.Walk? { WalkLocal(x, inReg); } else if x.pc.Claim? { ClaimLocal(x, inReg); }
  }

  /** A mailbox only grows at the end, whatever the actor is doing. */
  lemma PushLocal(x: Actor, inReg: bool, m: Msg)
    requires Local(x, inReg)
    ensures Local(x.(pushed := x.pushed + [m]), inReg)
  {
    assert x.got <= x.pushed + [m];
  }

  /** Replacing one record, and possibly its registration, keeps the others. */
  lemma LocalsPut(s: Sys, s': Sys, a: Id)
    requires Locals(s) && a in s'.act && s'.act == s.act[a := s'.act[a]] && s'.reg <= s'.act.Keys
    requires forall b :: b != a ==> (b in s'.reg <==> b in s.reg)
    requires Local(s'.act[a], a in s'.reg)
    ensures Locals(s')
  {
  }

  lemma TearLocal(x: Actor, inReg: bool)
    requires Local(x, inReg) && x.pc.Tear?
    ensures Local(TearNext(x), inReg && x.pc.stage != 2)
  {
  }

  lemma LeaveLocals(s: Sys, a: Id, parent: Option<Id>)
    requires Locals(s)
    ensures Locals(LeaveParent(s, a, parent))
  {
    var s' := LeaveParent(s, a, parent);
    if s' != s {
      var p := parent.value;
      assert Local(s.act[p], p in s.reg);
      LocalsPut(s, s', p);
    }
  }

  lemma TearLocals(s: Sys, s': Sys, a: Id)
    requires Locals(s) && a in s.act && s.act[a].pc.Tear? && TearStep(s, s', a)
    ensures Locals(s')
  {
    var x := s.act[a];
    assert Local(x, a in s.reg);
    TearLocal(x, a in s.reg);
    if x.pc.stage == 0 {
      var t := Put(s, a, TearNext(x));
      LocalsPut(s, t, a);
      LeaveLocals(t, a, x.parent);
    } else {
      LocalsPut(s, s', a);
    }
  }

  lemma OwnLocals(s: Sys, s': Sys, a: Id)
    requires Locals(s) && OwnStep(s, s', a)
    ensures Locals(s')
  {
    var x := s.act[a];
    if Private(x) {
      PrivateLocal(x, a in s.reg);
      LocalsPut(s, s', a);
    } else if x.pc.Tear? {
      TearLocals(s, s', a);
    } else {
      LocalsPut(s, s', a);
    }
  }

  lemma SpawnLocals(s: Sys, s': Sys, a: Id, kind: string, name: string)
    requires Locals(s) && SpawnChild(s, s', a, kind, name)
    ensures Locals(s')
  {
    var k := ChildId(a, kind, name);
    var t := Put(s, a, s'.act[a]);
    LocalsPut(s, t, a);
    LocalsPut(t, s', k);
  }

  lemma CallLocals(s: Sys, s': Sys, w: Waiter)
    requires Locals(s) && CallStep(s, s', w)
    ensures Locals(s')
  {
    var t := s.calls[w].target;
    if s.calls[w].pc.Deliver? { PushLocal(s.act[t], t in s.reg, Pill(w)); }
    if s'.act != s.act { LocalsPut(s, s', t); }
  }

  lemma LocalsKeep(s: Sys, s': Sys, l: Label)
    requires Locals(s) && Step(s, s', l)
    ensures Locals(s')
  {
    match l
    case LRoot(a) => LocalsPut(s, s', a);
    case LSpawn(a, kind, name) => SpawnLocals(s, s', a, kind, name);
    case LSend(a, m) => PushLocal(s.act[a], a in s.reg, User(m)); LocalsPut(s, s', a);
    case LPoison(_, _) =>
    case LCall(w) => CallLocals(s, s', w);
    case LOwn(a) => OwnLocals(s, s', a);
    case _ => ChoiceLocals(s, s', l);
  }

  lemma PopLocal(x: Actor, inReg: bool, n: nat)
    requires Local(x, inReg) && x.pc.Loop? && !x.closed && n <= |x.pushed| - x.popped
    ensures Local(x.(popped := x.popped + n, pc := Walk), inReg)
  {
  }

  lemma GiveUpLocal(x: Actor, inReg: bool)
    requires Local(x, inReg) && x.pc.Handling?
    ensures Local(x.(pc := Claim(None), gaveUp := true), inReg)
  {
  }

  lemma SnapLocal(x: Actor, inReg: bool, kids: map<Id, Waiter>)
    requires Local(x, inReg) && x.pc.Snapshot?
    ensures Local(x.(pc := Waiting(x.pc.w), cascade := Some(kids)), inReg)
  {
  }

  lemma CancelLocal(x: Actor, inReg: bool, snap: set<Waiter>)
    requires Local(x, inReg) && x.pc.Tear? && x.pc.stage == 4
    ensures Local(x.(pc := Tear(4, x.pc.cause, snap)), inReg)
  {
  }

  lemma ChoiceLocals(s: Sys, s': Sys, l: Label)
    requires Locals(s) && Step(s, s', l) && (l.LPop? || l.LGiveUp? || l.LSnap? || l.LCancel?)
    ensures Locals(s')
  {
    var x, inReg := s.act[l.a], l.a in s.reg;
    match l {
      case LPop(_, n) => PopLocal(x, inReg, n);
      case LGiveUp(_) => GiveUpLocal(x, inReg);
      case LSnap(_, kids) => SnapLocal(x, inReg, kids);
      case LCancel(_, w) => CancelLocal(x, inReg, x.pc.snap - {w});
    }
    LocalsPut(s, s', l.a);
  }

  // ---------------------------------------------------------------- waiters

  /** w was accepted by actor a. */
  predicate Mine(calls: map<Waiter, Call>, a: Id, w: Waiter) {
    w in calls && calls[w].target == a && calls[w].accepted
  }

  /** Stopped delivered, unregistered, inbox stopped. */
  predicate Dead(s: Sys, a: Id) {
    a in s.act && a !in s.reg && s.act[a].closed && s.act[a].stopAt.Some? && s.act[a].stopped
  }

  /** The pill of a waiting caller is about to be sent, is queued or in the batch, or is being handled. */
  ghost predicate Covered(x: Actor, c: Call, w: Waiter) {
    c.pc.Deliver? || Carried(x.pc) == Some(w) || Queued(x, w)
  }

  ghost predicate Queued(x: Actor, w: Waiter) {
    exists i :: x.walk <= i < |x.pushed| && x.pushed[i] == Pill(w)
  }

  /**
   Waiters in `cancels` are live and their pill is on its way; waiters taken by a Shutdown in progress are
   live; pills are in the mailbox their waiter was accepted by.
   */
  ghost predicate Held(x: Actor, a: Id, calls: map<Waiter, Call>, cancelled: set<Waiter>) {
    && (forall w :: w in x.cancels ==> Mine(calls, a, w) && w !in cancelled && Covered(x, calls[w], w))
    && (forall w :: w in Snap(x.pc) ==> Mine(calls, a, w) && w !in cancelled)
    && (forall i :: 0 <= i < |x.pushed| && x.pushed[i].Pill? ==> Mine(calls, a, x.pushed[i].w))
    && (Carried(x.pc).Some? ==> Mine(calls, a, Carried(x.pc).value))
  }

  /** A waiter is held by its caller, or by its target, or cancelled; accepted ones are cancelled only by the dead. */
  ghost predicate CallOk(s: Sys, w: Waiter)
    requires w in s.calls
  {
    var c := s.calls[w];
    && (c.known || c.accepted || c.pc.Add? || c.pc.Deliver? ==> c.target in s.act)
    && (c.pc.Lookup? || c.pc.Add? || c.pc.Fire? ==> !c.accepted && w !in s.cancelled)
    && (c.pc.Deliver? ==> c.accepted)
    && (c.pc.Returned? && !c.accepted ==> w in s.cancelled)
    && ((c.pc.Fire? || c.pc.Returned?) && !c.accepted && c.known ==> s.act[c.target].stopped)
    && (c.accepted ==>
          || w in s.act[c.target].cancels
          || w in Snap(s.act[c.target].pc)
          || (w in s.cancelled && Dead(s, c.target)))
  }

  ghost predicate Waiters(s: Sys) {
    && s.cancelled <= s.calls.Keys
    && (forall a :: a in s.act ==> Held(s.act[a], a, s.calls, s.cancelled))
    && (forall w :: w in s.calls ==> CallOk(s, w))
  }

  /** Nothing changes for actors other than a, nor for waiters aimed at them. */
  ghost predicate OnlyAt(s: Sys, s': Sys, a: Id) {
    && (forall b :: b != a ==> ((b in s'.act <==> b in s.act) && (b in s'.reg <==> b in s.reg)))
    && (forall b :: b in s.act && b != a ==> s'.act[b] == s.act[b])
    && s.calls.Keys == s'.calls.Keys
    && (forall w :: w in s.calls ==> s'.calls[w].target == s.calls[w].target)
    && (forall w :: w in s.calls && s.calls[w].target != a ==> s'.calls[w] == s.calls[w])
    && s.cancelled <= s'.cancelled
    && (forall w :: w in s'.cancelled && w !in s.cancelled ==> w in s.calls && s.calls[w].target == a)
  }

  lemma OthersHeld(s: Sys, s': Sys, a: Id, b: Id)
    requires Waiters(s) && OnlyAt(s, s', a) && b in s.act && b != a
    ensures Held(s'.act[b], b, s'.calls, s'.cancelled)
  {
    var x := s.act[b];
    assert forall w :: Mine(s.calls, b, w) ==> Mine(s'.calls, b, w) && (w in s'.cancelled ==> w in s.cancelled);
  }

  /** It is enough to look at the one actor that changed. */
  lemma WaitersPut(s: Sys, s': Sys, a: Id)
    requires Waiters(s) && OnlyAt(s, s', a)
    requires a in s'.act ==> Held(s'.act[a], a, s'.calls, s'.cancelled)
    requires forall w :: w in s'.calls && s'.calls[w].target == a ==> CallOk(s', w)
    ensures Waiters(s')
  {
    forall b | b in s'.act && b != a ensures Held(s'.act[b], b, s'.calls, s'.cancelled) {
      OthersHeld(s, s', a, b);
    }
    forall w | w in s'.calls && s'.calls[w].target != a ensures CallOk(s', w) {
      assert CallOk(s, w);
    }
    forall w | w in s'.cancelled ensures w in s'.calls { assert w in s.calls; }
  }

  /** New Poison calls disturb nobody. */
  lemma NewCalls(s: Sys, s': Sys)
    requires Waiters(s) && s' == s.(calls := s'.calls) && s.calls.Keys <= s'.calls.Keys
    requires forall w :: w in s.calls ==> s'.calls[w] == s.calls[w]
    requires forall w :: w in s'.calls && w !in s.calls ==>
               s'.calls[w] == Call(s'.calls[w].target, Lookup, s'.calls[w].target in s.act, false)
    ensures Waiters(s')
  {
    forall b | b in s.act ensures Held(s'.act[b], b, s'.calls, s'.cancelled) {
      assert forall w :: Mine(s.calls, b, w) ==> Mine(s'.calls, b, w);
    }
    forall w | w in s'.calls ensures CallOk(s', w) {
      if w in s.calls { assert CallOk(s, w); }
    }
  }

  /** x becomes y without any waiter changing hands. */
  ghost predicate SameHands(x: Actor, y: Actor) {
    && y.cancels == x.cancels && Snap(y.pc) == Snap(x.pc) && y.pushed == x.pushed
    && (x.stopped ==> y.stopped) && (x.closed ==> y.closed) && (x.stopAt.Some? ==> y.stopAt.Some?)
    && (forall w :: w in x.cancels && (Queued(x, w) || Carried(x.pc) == Some(w)) ==>
          Queued(y, w) || Carried(y.pc) == Some(w))
    && (Carried(y.pc).Some? ==>
          || Carried(y.pc) == Carried(x.pc)
          || exists i :: 0 <= i < |x.pushed| && x.pushed[i] == Pill(Carried(y.pc).value))
  }

  lemma QuietWaiters(s: Sys, s': Sys, a: Id)
    requires Waiters(s) && a in s.act && a in s'.act && s'.act == s.act[a := s'.act[a]]
    requires SameHands(s.act[a], s'.act[a])
    requires s'.calls == s.calls && s'.cancelled == s.cancelled
    requires (forall b :: b != a ==> (b in s'.reg <==> b in s.reg)) && (a in s'.reg ==> a in s.reg)
    ensures Waiters(s')
  {
    var x := s.act[a];
    assert Held(x, a, s.calls, s.cancelled);
    forall w | w in s'.calls && s'.calls[w].target == a ensures CallOk(s', w) { assert CallOk(s, w); }
    WaitersPut(s, s', a);
  }

  lemma WalkHands(x: Actor)
    requires Mailbox(x) && x.pc.Walk?
    ensures SameHands(x, WalkNext(x))
  {
    var y := WalkNext(x);
    if x.walk < x.popped {
      forall w | Queued(x, w) ensures Queued(y, w) || Carried(y.pc) == Some(w) {
        var i :| x.walk <= i < |x.pushed| && x.pushed[i] == Pill(w);
        if i != x.walk { assert y.walk <= i; }
      }
    } else {
      assert forall w :: Queued(x, w) ==> Queued(y, w);
    }
  }

  /** Nothing about mailbox or waiters changes. */
  lemma PcHands(x: Actor, y: Actor)
    requires y.cancels == x.cancels && Snap(y.pc) == Snap(x.pc) && y.pushed == x.pushed && y.walk == x.walk
    requires Carried(y.pc) == Carried(x.pc)
    requires (x.stopped ==> y.stopped) && (x.closed ==> y.closed) && (x.stopAt.Some? ==> y.stopAt.Some?)
    ensures SameHands(x, y)
  {
    assert forall w :: Queued(x, w) ==> Queued(y, w);
  }

  lemma ClaimHeld(x: Actor, a: Id, calls: map<Waiter, Call>, cancelled: set<Waiter>)
    requires Held(x, a, calls, cancelled) && x.pc.Claim? && !x.stopped
    ensures Held(ClaimNext(x), a, calls, cancelled)
  {
  }

  lemma ClaimWaiters(s: Sys, s': Sys, a: Id)
    requires Waiters(s) && a in s.act && s.act[a].pc.Claim? && s' == Put(s, a, ClaimNext(s.act[a]))
    ensures Waiters(s')
  {
    var x := s.act[a];
    if x.stopped {
      PcHands(x, ClaimNext(x));
      QuietWaiters(s, s', a);
    } else {
      ClaimHeld(x, a, s.calls, s.cancelled);
      forall w | w in s'.calls && s'.calls[w].target == a ensures CallOk(s', w) { assert CallOk(s, w); }
      WaitersPut(s, s', a);
    }
  }

  /** Cancelling a waiter that no longer sits in the actor's hands leaves the rest held. */
  lemma ReleaseHeld(x: Actor, y: Actor, a: Id, calls: map<Waiter, Call>, cancelled: set<Waiter>, w: Waiter)
    requires Held(x, a, calls, cancelled) && x.cancels == {}
    requires y == x.(pc := y.pc) && Snap(y.pc) == Snap(x.pc) - {w}
    requires Carried(y.pc).Some? ==> Carried(y.pc) == Carried(x.pc)
    ensures Held(y, a, calls, cancelled + {w})
  {
  }

  /** Cancelling an accepted waiter of a dead actor is what Done means. */
  lemma ReleaseWaiters(s: Sys, s': Sys, a: Id, w: Waiter)
    requires Waiters(s) && Dead(s, a) && Mine(s.calls, a, w) && s.act[a].cancels == {}
    requires a in s'.act && s'.act == s.act[a := s'.act[a]] && s' == s.(act := s'.act, cancelled := s.cancelled + {w})
    requires s'.act[a] == s.act[a].(pc := s'.act[a].pc) && Snap(s'.act[a].pc) == Snap(s.act[a].pc) - {w}
    requires Carried(s'.act[a].pc).Some? ==> Carried(s'.act[a].pc) == Carried(s.act[a].pc)
    ensures Waiters(s')
  {
    ReleaseHeld(s.act[a], s'.act[a], a, s.calls, s.cancelled, w);
    forall v | v in s'.calls && s'.calls[v].target == a ensures CallOk(s', v) { assert CallOk(s, v); }
    WaitersPut(s, s', a);
  }

  lemma CancelWaiters(s: Sys, s': Sys, a: Id, w: Waiter)
    requires Locals(s) && Waiters(s) && CancelOne(s, s', a, w)
    ensures Waiters(s')
  {
    var x := s.act[a];
    assert Local(x, a in s.reg) && Held(x, a, s.calls, s.cancelled);
    ReleaseWaiters(s, s', a, w);
  }

  lemma SettleWaiters(s: Sys, s': Sys, a: Id)
    requires Locals(s) && Waiters(s) && a in s.act && s.act[a].pc.Settle? && OwnStep(s, s', a)
    ensures Waiters(s')
  {
    var x := s.act[a];
    assert Local(x, a in s.reg) && Held(x, a, s.calls, s.cancelled);
    ReleaseWaiters(s, s', a, x.pc.w);
  }

  // the steps of Engine.poison

  lemma AddHeld(x: Actor, a: Id, calls: map<Waiter, Call>, cancelled: set<Waiter>, w: Waiter)
    requires Held(x, a, calls, cancelled) && w in calls && calls[w].target == a && w !in cancelled
    ensures Held(x.(cancels := x.cancels + {w}), a, calls[w := calls[w].(pc := Deliver, accepted := true)], cancelled)
  {
    var y := x.(cancels := x.cancels + {w});
    assert forall v :: Queued(x, v) ==> Queued(y, v);
  }

  lemma DeliverHeld(x: Actor, a: Id, calls: map<Waiter, Call>, cancelled: set<Waiter>, w: Waiter)
    requires Held(x, a, calls, cancelled) && Mine(calls, a, w) && x.walk <= |x.pushed|
    ensures Held(x.(pushed := x.pushed + [Pill(w)]), a, calls[w := calls[w].(pc := Returned)], cancelled)
  {
    var y := x.(pushed := x.pushed + [Pill(w)]);
    assert y.pushed[|x.pushed|] == Pill(w);
    assert Queued(y, w);
    PushQueued(x, Pill(w));
  }

  lemma PushQueued(x: Actor, m: Msg)
    ensures forall v :: Queued(x, v) ==> Queued(x.(pushed := x.pushed + [m]), v)
  {
    var y := x.(pushed := x.pushed + [m]);
    forall v | Queued(x, v) ensures Queued(y, v) {
      var i :| x.walk <= i < |x.pushed| && x.pushed[i] == Pill(v);
      assert y.pushed[i] == Pill(v);
    }
  }

  lemma SendHeld(x: Actor, a: Id, calls: map<Waiter, Call>, cancelled: set<Waiter>, m: int)
    requires Held(x, a, calls, cancelled)
    ensures Held(x.(pushed := x.pushed + [User(m)]), a, calls, cancelled)
  {
    PushQueued(x, User(m));
  }

  /** Moving a call along without accepting it leaves the target's hands as they are. */
  lemma CallHeld(x: Actor, a: Id, calls: map<Waiter, Call>, cancelled: set<Waiter>, w: Waiter,
                 pc: CallPc, c': set<Waiter>)
    requires Held(x, a, calls, cancelled) && w in calls && !calls[w].accepted
    requires cancelled <= c' <= cancelled + {w}
    ensures Held(x, a, calls[w := calls[w].(pc := pc)], c')
  {
    assert forall v :: Mine(calls, a, v) ==> v != w && Mine(calls[w := calls[w].(pc := pc)], a, v);
  }

  /** A lookup that misses, a refusal, or a caller firing its own cancel. */
  lemma MissWaiters(s: Sys, s': Sys, w: Waiter)
    requires Locals(s) && Waiters(s) && CallStep(s, s', w) && !s'.calls[w].accepted
    ensures Waiters(s')
  {
    var t := s.calls[w].target;
    assert CallOk(s, w);
    if t in s.act {
      CallHeld(s.act[t], t, s.calls, s.cancelled, w, s'.calls[w].pc, s'.cancelled);
    }
    MissCalls(s, s', w);
    WaitersPut(s, s', t);
  }

  lemma MissCalls(s: Sys, s': Sys, w: Waiter)
    requires Locals(s) && Waiters(s) && CallStep(s, s', w) && !s'.calls[w].accepted
    ensures s'.act == s.act && s'.reg == s.reg && s'.calls.Keys == s.calls.Keys
    ensures forall v :: v in s'.calls ==> CallOk(s', v)
  {
    forall v | v in s'.calls ensures CallOk(s', v) {
      assert CallOk(s, v);
      if v == w { MissOk(s, s', w); }
    }
  }

  lemma MissOk(s: Sys, s': Sys, w: Waiter)
    requires Locals(s) && CallStep(s, s', w) && !s'.calls[w].accepted && CallOk(s, w)
    ensures w in s'.calls && CallOk(s', w)
  {
    var t := s.calls[w].target;
    assert t in s.act ==> Local(s.act[t], t in s.reg);
  }

  lemma AddWaiters(s: Sys, s': Sys, w: Waiter)
    requires Waiters(s) && CallStep(s, s', w) && s.calls[w].pc.Add? && s'.calls[w].accepted
    ensures Waiters(s')
  {
    var t := s.calls[w].target;
    assert CallOk(s, w);
    AddHeld(s.act[t], t, s.calls, s.cancelled, w);
    forall v | v in s'.calls && s'.calls[v].target == t ensures CallOk(s', v) { assert CallOk(s, v); }
    WaitersPut(s, s', t);
  }

  lemma DeliverWaiters(s: Sys, s': Sys, w: Waiter)
    requires Locals(s) && Waiters(s) && CallStep(s, s', w) && s.calls[w].pc.Deliver?
    ensures Waiters(s')
  {
    var t := s.calls[w].target;
    assert CallOk(s, w) && Local(s.act[t], t in s.reg);
    DeliverHeld(s.act[t], t, s.calls, s.cancelled, w);
    forall v | v in s'.calls && s'.calls[v].target == t ensures CallOk(s', v) { assert CallOk(s, v); }
    WaitersPut(s, s', t);
  }

  lemma CallWaiters(s: Sys, s': Sys, w: Waiter)
    requires Locals(s) && Waiters(s) && CallStep(s, s', w)
    ensures Waiters(s')
  {
    assert CallOk(s, w);
    if s.calls[w].pc.Deliver? {
      DeliverWaiters(s, s', w);
    } else if s'.calls[w].accepted {
      AddWaiters(s, s', w);
    } else {
      MissWaiters(s, s', w);
    }
  }

  lemma SpawnWaiters(s: Sys, s': Sys, k: Id, parent: Option<Id>)
    requires Waiters(s) && k !in s.act && s' == s.(act := s.act[k := Fresh(parent)], reg := s.reg + {k})
    ensures Waiters(s')
  {
    forall w | w in s'.calls && s'.calls[w].target == k ensures CallOk(s', w) { assert CallOk(s, w); }
    WaitersPut(s, s', k);
  }

  lemma LeaveWaiters(s: Sys, a: Id, parent: Option<Id>)
    requires Waiters(s)
    ensures Waiters(LeaveParent(s, a, parent))
  {
    var s' := LeaveParent(s, a, parent);
    if s' != s {
      var p := parent.value;
      PcHands(s.act[p], s'.act[p]);
      QuietWaiters(s, s', p);
    }
  }

  lemma TearHands(x: Actor)
    requires x.pc.Tear? && (x.pc.stage >= 4 ==> x.pc.snap == {})
    ensures SameHands(x, TearNext(x))
  {
    PcHands(x, TearNext(x));
  }

  lemma TearWaiters(s: Sys, s': Sys, a: Id)
    requires Locals(s) && Waiters(s) && a in s.act && s.act[a].pc.Tear? && TearStep(s, s', a)
    ensures Waiters(s')
  {
    var x := s.act[a];
    assert Local(x, a in s.reg);
    TearHands(x);
    if x.pc.stage == 0 {
      var t := Put(s, a, TearNext(x));
      QuietWaiters(s, t, a);
      LeaveWaiters(t, a, x.parent);
    } else {
      QuietWaiters(s, s', a);
    }
  }

  lemma RestHands(s: Sys, s': Sys, a: Id)
    requires Locals(s) && OwnStep(s, s', a)
    requires !s.act[a].pc.Claim? && !s.act[a].pc.Settle? && !s.act[a].pc.Tear?
    ensures a in s'.act && s' == Put(s, a, s'.act[a]) && SameHands(s.act[a], s'.act[a])
  {
    var x := s.act[a];
    assert Local(x, a in s.reg);
    if x.pc.Walk? { WalkHands(x); } else { PcHands(x, s'.act[a]); }
  }

  lemma OwnWaiters(s: Sys, s': Sys, a: Id)
    requires Locals(s) && Waiters(s) && OwnStep(s, s', a)
    ensures Waiters(s')
  {
    var x := s.act[a];
    if x.pc.Claim? {
      ClaimWaiters(s, s', a);
    } else if x.pc.Settle? {
      SettleWaiters(s, s', a);
    } else if x.pc.Tear? {
      TearWaiters(s, s', a);
    } else {
      RestHands(s, s', a);
      QuietWaiters(s, s', a);
    }
  }

  lemma WaitersKeep(s: Sys, s': Sys, l: Label)
    requires Locals(s) && Waiters(s) && Step(s, s', l)
    ensures Waiters(s')
  {
    match l
    case LRoot(a) => SpawnWaiters(s, s', a, None);
    case LSpawn(a, kind, name) =>
      var t := Put(s, a, s'.act[a]);
      PcHands(s.act[a], s'.act[a]);
      QuietWaiters(s, t, a);
      SpawnWaiters(t, s', ChildId(a, kind, name), Some(a));
    case LSend(a, m) => SendWaiters(s, s', a, m);
    case LPoison(_, _) => NewCalls(s, s');
    case LCall(w) => CallWaiters(s, s', w);
    case LPop(a, _) => PcHands(s.act[a], s'.act[a]); QuietWaiters(s, s', a);
    case LGiveUp(a) => PcHands(s.act[a], s'.act[a]); QuietWaiters(s, s', a);
    case LSnap(a, kids) => SnapWaiters(s, s', a, kids);
    case LCancel(a, w) => CancelWaiters(s, s', a, w);
    case LOwn(a) => OwnWaiters(s, s', a);
  }

  lemma SendWaiters(s: Sys, s': Sys, a: Id, m: int)
    requires Waiters(s) && Send(s, s', a, m)
    ensures Waiters(s')
  {
    SendHeld(s.act[a], a, s.calls, s.cancelled, m);
    forall w | w in s'.calls && s'.calls[w].target == a ensures CallOk(s', w) { assert CallOk(s, w); }
    WaitersPut(s, s', a);
  }

  lemma SnapWaiters(s: Sys, s': Sys, a: Id, kids: map<Id, Waiter>)
    requires Waiters(s) && TakeSnapshot(s, s', a, kids)
    ensures Waiters(s')
  {
    var t := s.(calls := s'.calls);
    NewCalls(s, t);
    PcHands(t.act[a], s'.act[a]);
    QuietWaiters(t, s', a);
  }
}
