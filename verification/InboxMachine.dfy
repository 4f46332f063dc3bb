/**
 The inbox scheduler (inbox.go) on top of the ring buffer: any number of Sends, any number of
 processor goroutines, and Stop, interleaved at every load, store and compare-and-swap.
 */
module InboxMachine {
  import opened RingMachine
  import opened RingTheorems
  import opened Wrappers
  import opened Bits

  datatype Status = Idle | Running | Stopped

  /** Where a processor goroutine is inside process() and run(). */
  datatype Proc =
    | Top                    // run: about to load procStatus
    | Popping(c: Consumer)   // run: inside PopN
    | Invoking               // run: inside proc.Invoke
    | Parking                // process: about to CAS running to idle
    | Rechecking             // process: parked, about to load Len
    | Reclaiming             // process: about to CAS idle to running

  datatype Inbox = Inbox(
    ring: Ring,
    scheds: set<nat>,        // senders between Push and the CAS in schedule()
    procs: map<nat, Proc>,   // live processor goroutines
    status: Status,
    throughput: nat,
    delivered: seq<seq<Item>>,  // history: batches handed to Invoke, in order
    afterStop: nat)             // history: Invokes begun after Stop

  // ---------------------------------------------------------------- steps

  ghost predicate SendBegin(a: Inbox, a': Inbox, id: nat, x: Item) {
    id !in a.scheds && BeginPush(a.ring, a'.ring, id, x) && a' == a.(ring := a'.ring)
  }

  ghost predicate SendStep(a: Inbox, a': Inbox, id: nat) {
    || ((Acquire(a.ring, a'.ring, id) || Advance(a.ring, a'.ring, id)) && a' == a.(ring := a'.ring))
    || (EndPush(a.ring, a'.ring, id) && a' == a.(ring := a'.ring, scheds := a.scheds + {id}))
  }

  /** The CAS of schedule(); the winner starts processor q. */
  ghost predicate Schedule(a: Inbox, a': Inbox, id: nat, q: nat) {
    && id in a.scheds && q !in a.procs
    && a' == if a.status == Idle then a.(scheds := a.scheds - {id}, status := Running, procs := a.procs[q := Top])
             else a.(scheds := a.scheds - {id})
  }

  ghost predicate Stop(a: Inbox, a': Inbox) {
    a' == a.(status := Stopped)
  }

  /** A processor step outside PopN. */
  ghost predicate ProcStep(a: Inbox, a': Inbox, q: nat) {
    && q in a.procs
    && match a.procs[q]
       case Top =>
         a' == a.(procs := a.procs[q := if a.status == Stopped then Parking else Popping(AtLength(a.throughput))])
       case Popping(c) =>
         && c.Returned?
         && a' == if c.got == [] then a.(procs := a.procs[q := Parking])
                  else a.(procs := a.procs[q := Invoking], delivered := a.delivered + [c.got],
                          afterStop := a.afterStop + if a.status == Stopped then 1 else 0)
       case Invoking => a' == a.(procs := a.procs[q := Top])
       case Parking =>
         a' == if a.status == Running then a.(status := Idle, procs := a.procs[q := Rechecking])
               else a.(procs := a.procs - {q})
       case Rechecking =>
         a' == if a.ring.sh.length == 0 then a.(procs := a.procs - {q}) else a.(procs := a.procs[q := Reclaiming])
       case Reclaiming =>
         a' == if a.status == Idle then a.(status := Running, procs := a.procs[q := Top])
               else a.(procs := a.procs - {q})
  }

  /** A processor step inside PopN. Nothing here says that only one processor may be there. */
  ghost predicate PopStep(a: Inbox, a': Inbox, q: nat, c': Consumer) {
    && q in a.procs && a.procs[q].Popping?
    && CStep(a.ring.sh, a.procs[q].c, a'.ring.sh, c')
    && a' == a.(ring := a.ring.(sh := a'.ring.sh), procs := a.procs[q := Popping(c')])
  }

  datatype Label =
    | LSend(id: nat, x: Item)
    | LPush(id: nat)
    | LSchedule(id: nat, q: nat)
    | LStop
    | LProc(q: nat)
    | LPop(q: nat, c: Consumer)

  ghost predicate Step(a: Inbox, a': Inbox, l: Label) {
    match l
    case LSend(id, x) => SendBegin(a, a', id, x)
    case LPush(id) => SendStep(a, a', id)
    case LSchedule(id, q) => Schedule(a, a', id, q)
    case LStop => Stop(a, a')
    case LProc(q) => ProcStep(a, a', q)
    case LPop(q, c) => PopStep(a, a', q, c)
  }

  ghost predicate InboxInit(a: Inbox, size: int64) {
    && Init(a.ring, Away, size)
    && a.scheds == {} && a.procs == map[] && a.status == Idle && a.throughput > 0
    && a.delivered == [] && a.afterStop == 0
  }

  // ---------------------------------------------------------------- ownership

  /** In run() or about to park. */
  predicate Owner(p: Proc) { p.Top? || p.Popping? || p.Invoking? || p.Parking? }

  /** At most one owner; one exactly while running, none while idle. */
  ghost predicate Ownership(procs: map<nat, Proc>, status: Status) {
    && (forall p, q :: p in procs && q in procs && Owner(procs[p]) && Owner(procs[q]) ==> p == q)
    && (status == Idle ==> forall p :: p in procs ==> !Owner(procs[p]))
    && (status == Running ==> exists p :: p in procs && Owner(procs[p]))
  }

  lemma OwnershipKeeps(a: Inbox, a': Inbox, l: Label)
    requires Ownership(a.procs, a.status) && Step(a, a', l)
    ensures Ownership(a'.procs, a'.status)
  {
    if a'.status == Running {
      match l
      case LSchedule(_, q) => if a.status == Idle { assert Owner(a'.procs[q]); } else { OwnerStays(a, a', l); }
      case LProc(q) =>
        if a.procs[q].Reclaiming? && a.status == Idle { assert Owner(a'.procs[q]); } else { OwnerStays(a, a', l); }
      case _ => OwnerStays(a, a', l);
    }
  }

  lemma OwnerStays(a: Inbox, a': Inbox, l: Label)
    requires Ownership(a.procs, a.status) && Step(a, a', l) && a.status == Running == a'.status
    ensures exists p :: p in a'.procs && Owner(a'.procs[p])
  {
    var p :| p in a.procs && Owner(a.procs[p]);
    assert p in a'.procs && Owner(a'.procs[p]);
  }

  /** The consumer the ring buffer sees: whoever is inside PopN. */
  ghost function ConsumerOf(procs: map<nat, Proc>): Consumer {
    if exists q :: q in procs && procs[q].Popping? then
      var q :| q in procs && procs[q].Popping?;
      procs[q].c
    else Away
  }

  lemma ConsumerIs(procs: map<nat, Proc>, status: Status, q: nat)
    requires Ownership(procs, status) && q in procs && Owner(procs[q])
    ensures ConsumerOf(procs) == if procs[q].Popping? then procs[q].c else Away
  {
    if p :| p in procs && procs[p].Popping? { assert p == q; }
  }

  /** A change that touches no owner leaves the consumer alone. */
  lemma SameConsumer(procs: map<nat, Proc>, procs': map<nat, Proc>, status: Status)
    requires Ownership(procs, status)
    requires forall q :: (q in procs && procs[q].Popping?) <==> (q in procs' && procs'[q].Popping?)
    requires forall q :: q in procs && procs[q].Popping? ==> procs[q] == procs'[q]
    ensures ConsumerOf(procs') == ConsumerOf(procs)
  {
    if q :| q in procs && procs[q].Popping? {
      ConsumerIs(procs, status, q);
      forall p | p in procs' && procs'[p].Popping? ensures p == q { assert procs[p].Popping?; }
    }
  }

  // ---------------------------------------------------------------- the ring buffer's single consumer

  /** Every step of the inbox is a step of the one-consumer ring buffer, or leaves it alone. */
  lemma RefinesRing(a: Inbox, a': Inbox, l: Label)
    requires Ownership(a.procs, a.status) && Step(a, a', l) && a.throughput > 0
    ensures var c, c' := ConsumerOf(a.procs), ConsumerOf(a'.procs);
            Next(a.ring, c, a'.ring, c') || (a'.ring == a.ring && c' == c)
  {
    OwnershipKeeps(a, a', l);
    match l
    case LSend(id, x) => assert a'.procs == a.procs;
    case LPush(id) => assert a'.procs == a.procs; assert ProducerStep(a.ring, a'.ring, id);
    case LSchedule(id, q) => SameConsumer(a.procs, a'.procs, a.status);
    case LStop =>
    case LProc(q) =>
      if Owner(a.procs[q]) {
        ProcConsumer(a, a', q);
      } else {
        SameConsumer(a.procs, a'.procs, a.status);
      }
    case LPop(q, c) =>
      ConsumerIs(a.procs, a.status, q);
      ConsumerIs(a'.procs, a'.status, q);
  }

  // ---------------------------------------------------------------- invariant

  function Flatten(batches: seq<seq<Item>>): seq<Item> {
    if batches == [] then [] else Flatten(batches[..|batches| - 1]) + batches[|batches| - 1]
  }

  /** Items the consumer has taken past head but not yet handed on. */
  function InHand(c: Consumer): seq<Item> {
    if c.Leave? || c.Returned? then c.got else []
  }

  /** A batch never exceeds the throughput. */
  predicate Bounded(c: Consumer, throughput: nat) {
    && (c.AtLength? ==> c.want == throughput)
    && (Sized(c) || c.StoreHead? ==> c.n <= throughput)
    && |InHand(c)| <= throughput
  }

  /** What was handed to Invoke, and what is in hand, is what was popped. */
  ghost predicate Delivery(a: Inbox) {
    var c := ConsumerOf(a.procs);
    && Flatten(a.delivered) + InHand(c) == a.ring.sh.m.popped
    && Bounded(c, a.throughput)
    && forall i :: 0 <= i < |a.delivered| ==> 1 <= |a.delivered[i]| <= a.throughput
  }

  /** A sender that has not yet attempted the CAS of schedule(). */
  predicate SenderPending(a: Inbox) { a.ring.prods != map[] || a.scheds != {} }

  ghost predicate InParkWindow(a: Inbox) {
    exists q :: q in a.procs && (a.procs[q].Rechecking? || a.procs[q].Reclaiming?)
  }

  /** An idle inbox with queued messages has somebody on the way to wake it. */
  ghost predicate WakeupDue(a: Inbox) {
    a.status == Idle && a.ring.sh.length > 0 ==> SenderPending(a) || InParkWindow(a)
  }

  ghost predicate StopRespected(a: Inbox) {
    && (a.status != Stopped ==> a.afterStop == 0)
    && a.afterStop <= 1
    && (a.afterStop == 1 ==> forall q :: q in a.procs ==> !a.procs[q].Popping?)
  }

  ghost predicate InboxInv(a: Inbox) {
    && a.throughput > 0
    && Ownership(a.procs, a.status)
    && Inv(a.ring, ConsumerOf(a.procs))
    && Delivery(a)
    && WakeupDue(a)
    && StopRespected(a)
  }

  lemma WakeupKeeps(a: Inbox, a': Inbox, l: Label)
    requires WakeupDue(a) && Ownership(a.procs, a.status) && Step(a, a', l)
    ensures WakeupDue(a')
  {
    match l
    case LSend(id, x) => assert id in a'.ring.prods;
    case LPush(id) => assert id in a'.ring.prods || id in a'.scheds;
    case LPop(q, _) => assert Owner(a.procs[q]);
    case LProc(q) =>
      if a.procs[q].Parking? {
        assert a'.status == Idle ==> a'.procs[q].Rechecking?;
      } else if InParkWindow(a) && a.status == Idle {
        var p :| p in a.procs && (a.procs[p].Rechecking? || a.procs[p].Reclaiming?);
        assert a'.status == Idle && a.ring.sh.length > 0 ==>
          p in a'.procs && (a'.procs[p].Rechecking? || a'.procs[p].Reclaiming?);
      }
    case _ =>
  }

  lemma StopKeeps(a: Inbox, a': Inbox, l: Label)
    requires StopRespected(a) && Ownership(a.procs, a.status) && Step(a, a', l)
    ensures StopRespected(a')
  {
  }

  lemma FlattenSnoc(batches: seq<seq<Item>>, b: seq<Item>)
    ensures Flatten(batches + [b]) == Flatten(batches) + b
  {
    assert (batches + [b])[..|batches|] == batches;
  }

  /** A ring step of the consumer moves items from the queue into its hand. */
  lemma PopDelivers(s: Shared, p: Producer, c: Consumer, s': Shared, c': Consumer, throughput: nat)
    requires Core(s, p, c) && CStep(s, c, s', c') && Bounded(c, throughput)
    ensures Bounded(c', throughput)
    ensures s'.m.popped == if c.StoreHead? then s.m.popped + c.got else s.m.popped
    ensures InHand(c') == if c.StoreHead? then c.got else InHand(c)
  {
    if c.Move? {
      assert s'.m.popped == s.m.popped && c'.n == c.n && (c'.Move? || c'.Sub?);
    }
  }

  lemma PushPops(s: Shared, p: Producer, s': Shared, p': Producer)
    requires PStep(s, p, s', p')
    ensures s'.m.popped == s.m.popped
  {
  }

  lemma DeliveryKeeps(a: Inbox, a': Inbox, l: Label)
    requires InboxInv(a) && Step(a, a', l)
    ensures Delivery(a')
  {
    OwnershipKeeps(a, a', l);
    var c := ConsumerOf(a.procs);
    match l
    case LSend(id, x) => assert a'.procs == a.procs;
    case LPush(id) =>
      assert a'.procs == a.procs;
      if Advance(a.ring, a'.ring, id) {
        var q :| PStep(a.ring.sh, a.ring.prods[id], a'.ring.sh, q);
        PushPops(a.ring.sh, a.ring.prods[id], a'.ring.sh, q);
      }
    case LSchedule(id, q) => SameConsumer(a.procs, a'.procs, a.status);
    case LStop =>
    case LProc(q) => InvokeDelivers(a, a', q);
    case LPop(q, c') =>
      ConsumerIs(a.procs, a.status, q);
      ConsumerIs(a'.procs, a'.status, q);
      PopDelivers(a.ring.sh, Active(a.ring), c, a'.ring.sh, c', a.throughput);
  }

  lemma InvokeDelivers(a: Inbox, a': Inbox, q: nat)
    requires InboxInv(a) && ProcStep(a, a', q) && Ownership(a'.procs, a'.status)
    ensures Delivery(a')
  {
    if !Owner(a.procs[q]) {
      SameConsumer(a.procs, a'.procs, a.status);
    } else {
      ProcConsumer(a, a', q);
      if a.procs[q].Popping? && a.procs[q].c.got != [] { HandOver(a, a', q); }
    }
  }

  /** A returned batch goes from the hand to Invoke. */
  lemma HandOver(a: Inbox, a': Inbox, q: nat)
    requires Delivery(a) && ProcStep(a, a', q) && a.procs[q].Popping? && a.procs[q].c.got != []
    requires ConsumerOf(a.procs) == a.procs[q].c && ConsumerOf(a'.procs) == Away
    ensures Delivery(a')
  {
    FlattenSnoc(a.delivered, a.procs[q].c.got);
  }

  lemma ProcConsumer(a: Inbox, a': Inbox, q: nat)
    requires Ownership(a.procs, a.status) && ProcStep(a, a', q) && Ownership(a'.procs, a'.status)
    requires Owner(a.procs[q])
    ensures ConsumerOf(a.procs) == if a.procs[q].Popping? then a.procs[q].c else Away
    ensures ConsumerOf(a'.procs) == if a.procs[q].Top? && a.status != Stopped then AtLength(a.throughput) else Away
  {
    ConsumerIs(a.procs, a.status, q);
    if q in a'.procs && Owner(a'.procs[q]) {
      ConsumerIs(a'.procs, a'.status, q);
    } else {
      assert forall p :: p in a'.procs ==> !Owner(a'.procs[p]);
    }
  }

  lemma StepKeeps(a: Inbox, a': Inbox, l: Label)
    requires InboxInv(a) && Step(a, a', l)
    ensures InboxInv(a')
  {
    OwnershipKeeps(a, a', l);
    RefinesRing(a, a', l);
    if Next(a.ring, ConsumerOf(a.procs), a'.ring, ConsumerOf(a'.procs)) {
      NextKeeps(a.ring, ConsumerOf(a.procs), a'.ring, ConsumerOf(a'.procs));
    }
    DeliveryKeeps(a, a', l);
    WakeupKeeps(a, a', l);
    StopKeeps(a, a', l);
  }

  // ---------------------------------------------------------------- theorems over every run

  ghost predicate InboxRun(run: seq<Inbox>, labels: seq<Label>, size: int64) {
    && |run| == |labels| + 1 && InboxInit(run[0], size)
    && forall i {:trigger labels[i]} :: 0 <= i < |labels| ==> Step(run[i], run[i + 1], labels[i])
  }

  lemma InboxInitInv(a: Inbox, size: int64)
    requires InboxInit(a, size)
    ensures InboxInv(a)
  {
    InitInv(a.ring, Away, size);
    assert ConsumerOf(a.procs) == Away;
  }

  lemma {:induction false} InboxSafety(run: seq<Inbox>, labels: seq<Label>, size: int64, i: nat)
    requires InboxRun(run, labels, size) && i < |run|
    ensures InboxInv(run[i])
  {
    if i == 0 {
      InboxInitInv(run[0], size);
    } else {
      InboxSafety(run, labels, size, i - 1);
      var l := labels[i - 1];
      StepKeeps(run[i - 1], run[i], l);
    }
  }

  /** End to end: the batches handed to Invoke concatenate to a prefix of the push order. */
  lemma DeliveredInOrder(run: seq<Inbox>, labels: seq<Label>, size: int64, i: nat)
    requires InboxRun(run, labels, size) && i < |run|
    ensures Flatten(run[i].delivered) <= run[i].ring.sh.m.pushed
    ensures forall k :: 0 <= k < |run[i].delivered| ==> 1 <= |run[i].delivered[k]| <= run[i].throughput
  {
    InboxSafety(run, labels, size, i);
  }

  /** Processor q reads the length at state i and stays inside that call of PopN up to state j. */
  ghost predicate OnePopN(run: seq<Inbox>, i: nat, j: nat, q: nat) {
    && i < j < |run|
    && (forall n: nat :: i <= n <= j ==> q in run[n].procs && run[n].procs[q].Popping?)
    && run[i].procs[q].c.AtLength? && forall n: nat :: i < n <= j ==> InCall(run[n].procs[q].c)
  }

  /** How many messages that call takes. */
  function BatchSize(a: Inbox): int { Min(a.throughput, a.ring.sh.length) }

  /** One step of the inbox while q stays inside its call. */
  lemma CallKeeps(a: Inbox, a': Inbox, l: Label, q: nat, h: nat, k: int)
    requires InboxInv(a) && Step(a, a', l)
    requires q in a.procs && a.procs[q].Popping? && q in a'.procs && a'.procs[q].Popping?
    requires InCall(a.procs[q].c) && InCall(a'.procs[q].c) && Taking(a.ring.sh.m, a.procs[q].c, h, k)
    ensures Taking(a'.ring.sh.m, a'.procs[q].c, h, k)
  {
    RefinesRing(a, a', l);
    OwnershipKeeps(a, a', l);
    ConsumerIs(a.procs, a.status, q);
    ConsumerIs(a'.procs, a'.status, q);
    var c, c' := ConsumerOf(a.procs), ConsumerOf(a'.procs);
    if Next(a.ring, c, a'.ring, c') { TakingKeeps(a.ring, c, a'.ring, c', h, k); }
  }

  /** The step that leaves AtLength. */
  lemma CallBegins(a: Inbox, a': Inbox, l: Label, q: nat)
    requires InboxInv(a) && Step(a, a', l)
    requires q in a.procs && a.procs[q].Popping? && q in a'.procs && a'.procs[q].Popping?
    requires a.procs[q].c.AtLength? && InCall(a'.procs[q].c)
    ensures Taking(a'.ring.sh.m, a'.procs[q].c, a.ring.sh.m.head, BatchSize(a))
  {
    ConsumerIs(a.procs, a.status, q);
    TakingBegins(a.ring.sh, Active(a.ring), a.procs[q].c, a'.ring.sh, a'.procs[q].c);
  }

  lemma {:induction false} CallTakes(run: seq<Inbox>, labels: seq<Label>, size: int64, i: nat, j: nat, q: nat)
    requires InboxRun(run, labels, size) && OnePopN(run, i, j, q)
    ensures Taking(run[j].ring.sh.m, run[j].procs[q].c, run[i].ring.sh.m.head, BatchSize(run[i]))
    decreases j
  {
    InboxSafety(run, labels, size, j - 1);
    var l := labels[j - 1];
    if j == i + 1 {
      CallBegins(run[i], run[j], l, q);
    } else {
      CallTakes(run, labels, size, i, j - 1, q);
      CallKeeps(run[j - 1], run[j], l, q, run[i].ring.sh.m.head, BatchSize(run[i]));
    }
  }

  /**
   Every batch handed to Invoke holds min(throughput, the length its PopN read) messages: the oldest not yet popped
   when that PopN began, in order, however many Sends, growths and other processors came between.
   */
  lemma BatchIsFull(run: seq<Inbox>, labels: seq<Label>, size: int64, i: nat, j: nat, q: nat)
    requires InboxRun(run, labels, size) && OnePopN(run, i, j, q) && j < |labels| && labels[j] == LProc(q)
    ensures run[j].procs[q].c.Returned?
    ensures var h, k := run[i].ring.sh.m.head, BatchSize(run[i]);
            && 0 <= k && h + k <= |run[j].ring.sh.m.pushed|
            && run[j + 1].delivered ==
                 run[j].delivered + if k == 0 then [] else [run[j].ring.sh.m.pushed[h..h + k]]
  {
    var l := labels[j];
    assert Step(run[j], run[j + 1], l);
    CallTakes(run, labels, size, i, j, q);
  }

  /** A non-stopped inbox with no pending sender and no processor has delivered everything ever pushed. */
  lemma NothingStranded(run: seq<Inbox>, labels: seq<Label>, size: int64, i: nat)
    requires InboxRun(run, labels, size) && i < |run|
    requires run[i].status != Stopped && !SenderPending(run[i]) && run[i].procs == map[]
    ensures Flatten(run[i].delivered) == run[i].ring.sh.m.pushed && run[i].ring.sh.length == 0
  {
    InboxSafety(run, labels, size, i);
    var a := run[i];
    assert ConsumerOf(a.procs) == Away && Active(a.ring) == PUnlock;
    assert Counted(a.ring.sh, PUnlock, Away);
  }

  /** Invoke is never running on two goroutines, nor PopN. */
  lemma OneProcessor(run: seq<Inbox>, labels: seq<Label>, size: int64, i: nat, p: nat, q: nat)
    requires InboxRun(run, labels, size) && i < |run|
    requires p in run[i].procs && q in run[i].procs && Owner(run[i].procs[p]) && Owner(run[i].procs[q])
    ensures p == q && run[i].status != Idle
  {
    InboxSafety(run, labels, size, i);
  }

  ghost predicate AtMostOneAlive(a: Inbox) {
    forall p, q :: p in a.procs && q in a.procs ==> p == q
  }

  /**
   When at most one processor goroutine is alive. Two can be alive only while one of them is between its park and its
   reclaim; while the inbox is running that is exactly when two are.
   */
  lemma AliveTogether(run: seq<Inbox>, labels: seq<Label>, size: int64, i: nat)
    requires InboxRun(run, labels, size) && i < |run|
    ensures forall p, q :: p in run[i].procs && q in run[i].procs && p != q ==>
              !Owner(run[i].procs[p]) || !Owner(run[i].procs[q])
    ensures !InParkWindow(run[i]) ==> AtMostOneAlive(run[i])
    ensures run[i].status == Running ==> (AtMostOneAlive(run[i]) <==> !InParkWindow(run[i]))
  {
    InboxSafety(run, labels, size, i);
    var a := run[i];
    if a.status == Running && InParkWindow(a) {
      var p :| p in a.procs && Owner(a.procs[p]);
      var q :| q in a.procs && (a.procs[q].Rechecking? || a.procs[q].Reclaiming?);
      assert p != q;
    }
  }

  /** Once stopped, always stopped, and at most one Invoke begins afterwards. */
  lemma {:induction false} StopIsFinal(run: seq<Inbox>, labels: seq<Label>, size: int64, i: nat, j: nat)
    requires InboxRun(run, labels, size) && i <= j < |run| && run[i].status == Stopped
    ensures run[j].status == Stopped
    ensures |run[j].delivered| <= |run[i].delivered| + 1
    decreases j
  {
    InboxSafety(run, labels, size, j);
    InboxSafety(run, labels, size, i);
    StoppedCount(run, labels, size, i, j);
  }

  /**
   Stop stops: from the step that is a Stop on, the inbox is stopped and at most one more Invoke begins, whatever is
   sent; and nothing but a Stop stops it.
   */
  lemma StopStops(run: seq<Inbox>, labels: seq<Label>, size: int64, i: nat, j: nat)
    requires InboxRun(run, labels, size) && i < j < |run|
    ensures labels[i] == LStop ==> run[j].status == Stopped && |run[j].delivered| <= |run[i].delivered| + 1
    ensures run[i].status != Stopped && run[i + 1].status == Stopped ==> labels[i] == LStop
  {
    var l := labels[i];
    assert Step(run[i], run[i + 1], l);
    if l == LStop { StopIsFinal(run, labels, size, i + 1, j); }
  }

  predicate NobodyPopping(a: Inbox) { forall q :: q in a.procs ==> !a.procs[q].Popping? }

  /** With nobody inside PopN at the Stop, not one more Invoke begins: what is sent to an idle stopped inbox stays. */
  lemma {:induction false} StopAtRest(run: seq<Inbox>, labels: seq<Label>, size: int64, i: nat, j: nat)
    requires InboxRun(run, labels, size) && i < j < |run| && labels[i] == LStop && NobodyPopping(run[i])
    ensures run[j].status == Stopped && NobodyPopping(run[j]) && run[j].delivered == run[i].delivered
    decreases j
  {
    var l := labels[j - 1];
    assert Step(run[j - 1], run[j], l);
    if j > i + 1 { StopAtRest(run, labels, size, i, j - 1); }
  }

  /** A processor parks only after PopN has told it that the queue is empty, or after a Stop. */
  lemma ParksWhenDrained(run: seq<Inbox>, labels: seq<Label>, size: int64, i: nat, q: nat)
    requires InboxRun(run, labels, size) && i < |labels| && q in run[i].procs && q in run[i + 1].procs
    requires !run[i].procs[q].Parking? && run[i + 1].procs[q].Parking?
    ensures run[i].procs[q] == Popping(RingMachine.Returned([])) || (run[i].procs[q].Top? && run[i].status == Stopped)
  {
    var l := labels[i];
    assert Step(run[i], run[i + 1], l);
  }

  lemma {:induction false} StoppedCount(run: seq<Inbox>, labels: seq<Label>, size: int64, i: nat, j: nat)
    requires InboxRun(run, labels, size) && i <= j < |run| && run[i].status == Stopped
    ensures run[j].status == Stopped
    ensures |run[j].delivered| - |run[i].delivered| == run[j].afterStop - run[i].afterStop
    decreases j
  {
    if i < j {
      StoppedCount(run, labels, size, i, j - 1);
      var l := labels[j - 1];
      assert Step(run[j - 1], run[j], l);
    }
  }
}
