/**
 Poison, shutdown and cascade (process.go, engine.go) for a whole tree of actors: any number of
 poisoners, senders and actors, interleaved at every lock region, registry access and mailbox hand-off.
 Mailboxes are the FIFO queues that the inbox provides; a batch is a run of messages taken at once.
 */
module Lifecycle {
  import opened Wrappers
  import opened Pids

  /** A Poison waiter: the context one caller holds. */
  datatype Waiter = Waiter(serial: int)

  datatype Msg = User(m: int) | Pill(w: Waiter)

  /** Where an actor's goroutine is. `cause` is the pill that asked for the teardown, if one did. */
  datatype Pc =
    | Starting                            // Started is being handled on the spawner's goroutine
    | Spawning(child: Id, inStart: bool)  // inside SpawnChild, child not yet recorded
    | Loop                                // top of the inbox loop
    | Walk                                // inside Invoke, before the next message
    | Handling                            // inside Receive for a user message
    | Snapshot(w: Waiter)                 // handlePoison: about to snapshot the children
    | Waiting(w: Waiter)                  // handlePoison: waiting for the snapshot's waiters
    | Claim(cause: Option<Waiter>)           // Shutdown: about to take the lock
    | Tear(stage: nat, cause: Option<Waiter>, snap: set<Waiter>)
      // Shutdown, in order: 0 leave the parent's set, 1 deliver Stopped, 2 unregister, 3 stop the inbox,
      // 4 cancel waiters
    | Settle(w: Waiter)                   // handlePoison: cancel the pill's own waiter
    | Gone                                // processor returned for good

  datatype Actor = Actor(
    parent: Option<Id>,
    stopped: bool,
    closed: bool,             // inbox stopped
    pushed: seq<Msg>,         // mailbox, in push order
    popped: nat,              // messages taken in batches so far
    walk: nat,                // next message Invoke looks at
    cancels: set<Waiter>,
    children: set<Id>,
    pc: Pc,
    cascade: Option<map<Id, Waiter>>,  // children snapshotted by the pill, with their waiters
    // history: read by no step
    got: seq<Msg>,            // envelopes Invoke passed to invokeMsg
    cut: Option<nat>,         // mailbox position of the pill that was reached
    stopAt: Option<nat>,      // |got| when Stopped was delivered
    gaveUp: bool,             // restarts were exhausted at some point
    recorded: set<Id>,        // children ever recorded
    late: set<Id>)            // children that had already left when they were recorded

  datatype CallPc = Lookup | Add | Deliver | Fire | Returned

  /** One Engine.Poison call. `known` and `accepted` are history. */
  datatype Call = Call(target: Id, pc: CallPc, known: bool, accepted: bool)

  datatype Sys = Sys(
    act: map<Id, Actor>,
    reg: set<Id>,
    calls: map<Waiter, Call>,
    cancelled: set<Waiter>,
    stops: seq<Id>)           // history: Stopped deliveries in global order

  // ---------------------------------------------------------------- steps

  function Fresh(parent: Option<Id>): Actor {
    Actor(parent, false, false, [], 0, 0, {}, {}, Starting, None, [], None, None, false, {}, {})
  }

  predicate InStart(pc: Pc) { pc.Starting? || (pc.Spawning? && pc.inStart) }

  function Put(s: Sys, a: Id, x: Actor): Sys { s.(act := s.act[a := x]) }

  /** A root actor comes up: Initialized handled, registered, Started in progress. IDs are fresh. */
  ghost predicate SpawnRoot(s: Sys, s': Sys, a: Id) {
    a !in s.act && s' == s.(act := s.act[a := Fresh(None)], reg := s.reg + {a})
  }

  /** SpawnChild called from Started or from a user message. */
  ghost predicate SpawnChild(s: Sys, s': Sys, a: Id, kind: string, name: string) {
    var k := ChildId(a, kind, name);
    && a in s.act && (s.act[a].pc.Starting? || s.act[a].pc.Handling?) && k !in s.act
    && s' == s.(act := s.act[a := s.act[a].(pc := Spawning(k, s.act[a].pc.Starting?))][k := Fresh(Some(a))],
                reg := s.reg + {k})
  }

  /** A user message reaches the mailbox; the sender's registry lookup may be long past. */
  ghost predicate Send(s: Sys, s': Sys, a: Id, m: int) {
    a in s.act && s' == Put(s, a, s.act[a].(pushed := s.act[a].pushed + [User(m)]))
  }

  ghost predicate BeginPoison(s: Sys, s': Sys, w: Waiter, t: Id) {
    w !in s.calls && s' == s.(calls := s.calls[w := Call(t, Lookup, t in s.act, false)])
  }

  /** One step of Engine.poison. */
  ghost predicate CallStep(s: Sys, s': Sys, w: Waiter) {
    && w in s.calls
    && var c := s.calls[w];
       match c.pc
       case Lookup => s' == s.(calls := s.calls[w := c.(pc := if c.target in s.reg then Add else Fire)])
       case Add =>
         && c.target in s.act
         && if s.act[c.target].stopped then s' == s.(calls := s.calls[w := c.(pc := Fire)])
            else
              var x := s.act[c.target];
              s' == Put(s, c.target, x.(cancels := x.cancels + {w}))
                    .(calls := s.calls[w := c.(pc := Deliver, accepted := true)])
       case Deliver =>
         && c.target in s.act
         && var x := s.act[c.target];
            s' == Put(s, c.target, x.(pushed := x.pushed + [Pill(w)])).(calls := s.calls[w := c.(pc := Returned)])
       case Fire => s' == s.(cancelled := s.cancelled + {w}, calls := s.calls[w := c.(pc := Returned)])
       case Returned => false
  }

  /** The inbox loop takes a batch of n messages. */
  ghost predicate PopBatch(s: Sys, s': Sys, a: Id, n: nat) {
    && a in s.act && s.act[a].pc.Loop? && !s.act[a].closed
    && 1 <= n <= |s.act[a].pushed| - s.act[a].popped
    && s' == Put(s, a, s.act[a].(popped := s.act[a].popped + n, pc := Walk))
  }

  /** A user message panicked with no restart left: invokeMsg calls Shutdown. */
  ghost predicate GiveUp(s: Sys, s': Sys, a: Id) {
    a in s.act && s.act[a].pc.Handling? && s' == Put(s, a, s.act[a].(pc := Claim(None), gaveUp := true))
  }

  /** shutdownChildren snapshots the children and starts one Poison per child. */
  ghost predicate TakeSnapshot(s: Sys, s': Sys, a: Id, kids: map<Id, Waiter>) {
    && a in s.act && s.act[a].pc.Snapshot? && kids.Keys == s.act[a].children
    && (forall k :: k in kids ==> kids[k] !in s.calls)
    && (forall j, k :: j in kids && k in kids && kids[j] == kids[k] ==> j == k)
    && s'.act == s.act[a := s.act[a].(pc := Waiting(s.act[a].pc.w), cascade := Some(kids))]
    && s'.reg == s.reg && s'.cancelled == s.cancelled && s'.stops == s.stops
    && s'.calls.Keys == s.calls.Keys + kids.Values
    && (forall w :: w in s.calls ==> s'.calls[w] == s.calls[w])
    && (forall k :: k in kids ==> s'.calls[kids[k]] == Call(k, Lookup, k in s.act, false))
  }

  /** Shutdown cancels one of the waiters it took. */
  ghost predicate CancelOne(s: Sys, s': Sys, a: Id, w: Waiter) {
    && a in s.act && s.act[a].pc.Tear? && s.act[a].pc.stage == 4 && w in s.act[a].pc.snap
    && s' == Put(s, a, s.act[a].(pc := Tear(4, s.act[a].pc.cause, s.act[a].pc.snap - {w})))
             .(cancelled := s.cancelled + {w})
  }

  /** Where Shutdown returns to. */
  function After(cause: Option<Waiter>): Pc {
    match cause case None => Walk case Some(w) => Settle(w)
  }

  /** Shutdown's effect on the actor's own record, one stage at a time. */
  function TearNext(x: Actor): Actor
    requires x.pc.Tear?
  {
    if x.pc.stage >= 4 then x.(pc := After(x.pc.cause))
    else
      x.(pc := Tear(x.pc.stage + 1, x.pc.cause, x.pc.snap),
         stopAt := if x.pc.stage == 1 then Some(|x.got|) else x.stopAt,
         closed := x.closed || x.pc.stage == 3)
  }

  /** removeChild on the parent, if the parent is still registered. */
  function LeaveParent(s: Sys, a: Id, parent: Option<Id>): Sys {
    if parent.Some? && parent.value in s.reg && parent.value in s.act then
      Put(s, parent.value, s.act[parent.value].(children := s.act[parent.value].children - {a}))
    else s
  }

  /** Shutdown after its lock region, stage by stage; it returns once all are cancelled. */
  ghost predicate TearStep(s: Sys, s': Sys, a: Id)
    requires a in s.act && s.act[a].pc.Tear?
  {
    var x := s.act[a];
    var t := Put(s, a, TearNext(x));
    match x.pc.stage
    case 0 => s' == LeaveParent(t, a, x.parent)
    case 1 => s' == t.(stops := s.stops + [a])
    case 2 => s' == t.(reg := s.reg - {a})
    case 3 => s' == t
    case _ => x.pc.snap == {} && s' == t
  }

  /** What Invoke does with the next message of the batch, or with the end of it. */
  function WalkNext(x: Actor): Actor {
    if x.walk >= x.popped || x.walk >= |x.pushed| then x.(pc := Loop)
    else match x.pushed[x.walk]
         case User(_) => x.(walk := x.walk + 1, pc := Handling, got := x.got + [x.pushed[x.walk]])
         case Pill(w) => x.(walk := x.walk + 1, pc := Snapshot(w), cut := Some(x.walk))
  }

  /** The lock region at the top of Shutdown. */
  function ClaimNext(x: Actor): Actor
    requires x.pc.Claim?
  {
    if x.stopped then x.(pc := After(x.pc.cause))
    else x.(stopped := true, cancels := {}, pc := Tear(0, x.pc.cause, x.cancels))
  }

  /** Steps of an actor's goroutine that read and write only its own record. */
  predicate Private(x: Actor) {
    x.pc.Starting? || (x.pc.Loop? && x.closed) || x.pc.Walk? || x.pc.Handling? || x.pc.Claim?
  }

  function PrivateNext(x: Actor): Actor
    requires Private(x)
  {
    match x.pc
    case Starting => x.(pc := Loop)
    case Loop => x.(pc := Gone)
    case Walk => WalkNext(x)
    case Handling => x.(pc := Walk)
    case Claim(_) => ClaimNext(x)
  }

  /** SpawnChild returns: the child is recorded if its parent is still registered. */
  ghost predicate SpawnReturn(s: Sys, s': Sys, a: Id)
    requires a in s.act && s.act[a].pc.Spawning?
  {
    var x := s.act[a];
    && x.pc.child in s.act && !InStart(s.act[x.pc.child].pc)
    && var y := x.(pc := if x.pc.inStart then Starting else Handling);
       s' == Put(s, a, if a in s.reg then Record(y, x.pc.child, Left(s.act[x.pc.child])) else y)
  }

  /** addChild, noting whether the child's Shutdown is already past leaving its parent. */
  function Record(x: Actor, child: Id, left: bool): Actor {
    x.(children := x.children + {child}, recorded := x.recorded + {child},
       late := if left then x.late + {child} else x.late)
  }

  /** Shutdown has passed the point where it takes the actor out of its parent's set. */
  predicate Left(x: Actor) { x.stopped && !(x.pc.Tear? && x.pc.stage == 0) }

  /** The next step of an actor's own goroutine, when nothing is left to choose. */
  ghost predicate OwnStep(s: Sys, s': Sys, a: Id) {
    && a in s.act
    && var x := s.act[a];
       if Private(x) then s' == Put(s, a, PrivateNext(x))
       else if x.pc.Spawning? then SpawnReturn(s, s', a)
       else if x.pc.Waiting? then
         && x.cascade.Some? && x.cascade.value.Values <= s.cancelled
         && s' == Put(s, a, x.(pc := Claim(Some(x.pc.w))))
       else if x.pc.Tear? then TearStep(s, s', a)
       else x.pc.Settle? && s' == Put(s, a, x.(pc := Loop)).(cancelled := s.cancelled + {x.pc.w})
  }

  datatype Label =
    | LRoot(a: Id)
    | LSpawn(a: Id, kind: string, name: string)
    | LSend(a: Id, m: int)
    | LPoison(w: Waiter, t: Id)
    | LCall(w: Waiter)
    | LPop(a: Id, n: nat)
    | LGiveUp(a: Id)
    | LSnap(a: Id, kids: map<Id, Waiter>)
    | LCancel(a: Id, w: Waiter)
    | LOwn(a: Id)

  ghost predicate Step(s: Sys, s': Sys, l: Label) {
    match l
    case LRoot(a) => SpawnRoot(s, s', a)
    case LSpawn(a, kind, name) => SpawnChild(s, s', a, kind, name)
    case LSend(a, m) => Send(s, s', a, m)
    case LPoison(w, t) => BeginPoison(s, s', w, t)
    case LCall(w) => CallStep(s, s', w)
    case LPop(a, n) => PopBatch(s, s', a, n)
    case LGiveUp(a) => GiveUp(s, s', a)
    case LSnap(a, kids) => TakeSnapshot(s, s', a, kids)
    case LCancel(a, w) => CancelOne(s, s', a, w)
    case LOwn(a) => OwnStep(s, s', a)
  }

  ghost predicate SysInit(s: Sys) {
    s.act == map[] && s.reg == {} && s.calls == map[] && s.cancelled == {} && s.stops == []
  }
}
