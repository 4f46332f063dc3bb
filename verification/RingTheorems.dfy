/**
 What every run of the ring buffer keeps: refinement of a FIFO sequence, exclusion of growth from
 the consumer's critical section, freedom from slot races and mutual waiting, and the cost bounds.
 */
module RingTheorems {
  import opened Wrappers
  import opened Bits
  import opened RingMachine

  /** Only the holder of the mutex is past Lock. */
  ghost predicate Mutex(r: Ring) {
    && (forall p :: p in r.prods && !r.prods[p].PLock? ==> r.holder == Some(p))
    && (r.holder.Some? ==> r.holder.value in r.prods && !r.prods[r.holder.value].PLock?)
  }

  /** The position of the mutex holder; a free mutex looks like a producer with nothing left to do. */
  function Active(r: Ring): Producer {
    if r.holder.Some? && r.holder.value in r.prods then r.prods[r.holder.value] else PUnlock
  }

  ghost predicate Inv(r: Ring, c: Consumer) {
    Mutex(r) && Core(r.sh, Active(r), c)
  }

  lemma InitInv(r: Ring, c: Consumer, size: int64)
    requires Init(r, c, size)
    ensures Inv(r, c)
  {
    var m := r.sh.m;
    assert Cap(m) == RoundUpPow2(size);
    assert Lo(m, c) == 0 && Hi(m, Active(r)) == 0;
  }

  lemma LockKeeps(s: Shared, x: Item, c: Consumer)
    requires Core(s, PUnlock, c)
    ensures Core(s, PBuf(x), c)
  {
    assert Hi(s.m, PBuf(x)) == Hi(s.m, PUnlock);
  }

  lemma AdvanceKeeps(r: Ring, c: Consumer, r': Ring, p: nat)
    requires Inv(r, c) && Advance(r, r', p)
    ensures Inv(r', c)
  {
    var q :| PStep(r.sh, r.prods[p], r'.sh, q) && r' == r.(sh := r'.sh, prods := r.prods[p := q]);
    assert Active(r) == r.prods[p] && Active(r') == q;
    PStepKeeps(r.sh, r.prods[p], c, r'.sh, q);
  }

  lemma ProducerKeeps(r: Ring, c: Consumer, r': Ring, p: nat)
    requires Inv(r, c) && ProducerStep(r, r', p)
    ensures Inv(r', c)
  {
    if Acquire(r, r', p) {
      LockKeeps(r.sh, r.prods[p].x, c);
    } else if Advance(r, r', p) {
      AdvanceKeeps(r, c, r', p);
    } else {
      assert r.holder == Some(p) && Active(r) == PUnlock == Active(r');
    }
  }

  lemma BeginPushKeeps(r: Ring, c: Consumer, r': Ring, p: nat, x: Item)
    requires Inv(r, c) && BeginPush(r, r', p, x)
    ensures Inv(r', c)
  {
    assert Active(r') == Active(r);
  }

  lemma BetweenPopsKeeps(s: Shared, p: Producer, c: Consumer, c': Consumer)
    requires Core(s, p, c) && BetweenPops(c, c')
    ensures Core(s, p, c')
  {
    assert Lo(s.m, c') == Lo(s.m, c);
  }

  lemma NextKeeps(r: Ring, c: Consumer, r': Ring, c': Consumer)
    requires Inv(r, c) && Next(r, c, r', c')
    ensures Inv(r', c')
  {
    if p: nat, x :| c' == c && BeginPush(r, r', p, x) {
      BeginPushKeeps(r, c, r', p, x);
    } else if p: nat :| c' == c && ProducerStep(r, r', p) {
      ProducerKeeps(r, c, r', p);
    } else if r' == r && BetweenPops(c, c') {
      BetweenPopsKeeps(r.sh, Active(r), c, c');
    } else {
      ConsumerKeeps(r, c, r', c');
    }
  }

  lemma ConsumerKeeps(r: Ring, c: Consumer, r': Ring, c': Consumer)
    requires Inv(r, c) && CStep(r.sh, c, r'.sh, c') && r' == r.(sh := r'.sh)
    ensures Inv(r', c')
  {
    CStepKeeps(r.sh, Active(r), c, r'.sh, c');
    assert Active(r') == Active(r);
  }

  datatype Config = Config(r: Ring, c: Consumer) {
    ghost predicate Good() { Inv(r, c) }
    ghost predicate Moves(k: Config) { Next(r, c, k.r, k.c) }
  }

  lemma MovesKeeps(k: Config, k': Config)
    requires k.Good() && k.Moves(k')
    ensures k'.Good()
  {
    NextKeeps(k.r, k.c, k'.r, k'.c);
  }

  ghost predicate MovesAt(run: seq<Config>, i: nat)
    requires i < |run| - 1
  {
    run[i].Moves(run[i + 1])
  }

  ghost predicate Run(run: seq<Config>, size: int64) {
    && |run| > 0 && Init(run[0].r, run[0].c, size)
    && forall i: nat :: i < |run| - 1 ==> MovesAt(run, i)
  }

  /** Every state of every run satisfies the invariant. */
  lemma {:induction false} Safety(run: seq<Config>, size: int64, i: nat)
    requires Run(run, size) && i < |run|
    ensures run[i].Good()
  {
    if i == 0 {
      InitInv(run[0].r, run[0].c, size);
    } else {
      Safety(run, size, i - 1);
      var k, k' := run[i - 1], run[i];
      assert MovesAt(run, i - 1);
      MovesKeeps(k, k');
    }
  }

  // ---------------------------------------------------------------- FIFO refinement

  /** The abstract queue: pushed and not yet popped. */
  function Queue(m: Mem): seq<Item>
    requires m.head <= |m.pushed|
  {
    m.pushed[m.head..]
  }

  /**
   A step leaves the queue alone, is the tail store of the mutex holder's Push and appends that call's item, or
   is the consumer's head store and hands it a non-empty prefix.
   */
  ghost predicate FifoStep(q: seq<Item>, q': seq<Item>, p: Producer, c: Consumer, c': Consumer) {
    || q' == q
    || (p.PStore? && q' == q + [p.x])
    || (c.StoreHead? && c' == Leave(c.got) && c.got != [] && q == c.got + q')
  }

  lemma RefinesFifo(r: Ring, c: Consumer, r': Ring, c': Consumer)
    requires Inv(r, c) && Next(r, c, r', c')
    ensures r'.sh.m.head <= |r'.sh.m.pushed| && FifoStep(Queue(r.sh.m), Queue(r'.sh.m), Active(r), c, c')
    ensures || r'.sh.m.pushed == r.sh.m.pushed
            || (Active(r).PStore? && Active(r').PAdd? && r'.sh.m.pushed == r.sh.m.pushed + [Active(r).x])
  {
    if CStep(r.sh, c, r'.sh, c') {
      PopRefines(r.sh, Active(r), c, r'.sh, c');
    } else if p: nat :| Advance(r, r', p) {
      AdvanceRefines(r, c, r', p);
    }
  }

  lemma AdvanceRefines(r: Ring, c: Consumer, r': Ring, p: nat)
    requires Inv(r, c) && Advance(r, r', p)
    ensures r'.sh.m.head <= |r'.sh.m.pushed| && Active(r) == r.prods[p] && r'.holder == Some(p)
    ensures if r.prods[p].PStore? then
              && r'.prods == r.prods[p := PAdd]
              && r'.sh.m.pushed == r.sh.m.pushed + [r.prods[p].x] && Queue(r'.sh.m) == Queue(r.sh.m) + [r.prods[p].x]
            else r'.sh.m.pushed == r.sh.m.pushed && Queue(r'.sh.m) == Queue(r.sh.m)
  {
    var q :| PStep(r.sh, r.prods[p], r'.sh, q) && r' == r.(sh := r'.sh, prods := r.prods[p := q]);
    assert Active(r) == r.prods[p];
    PushRefines(r.sh, r.prods[p], c, r'.sh, q);
  }

  lemma PushRefines(s: Shared, p: Producer, c: Consumer, s': Shared, p': Producer)
    requires Core(s, p, c) && PStep(s, p, s', p')
    ensures s'.m.head <= |s'.m.pushed|
    ensures if p.PStore? then s'.m.pushed == s.m.pushed + [p.x] && Queue(s'.m) == Queue(s.m) + [p.x]
            else s'.m.pushed == s.m.pushed && Queue(s'.m) == Queue(s.m)
  {
  }

  lemma PopRefines(s: Shared, p: Producer, c: Consumer, s': Shared, c': Consumer)
    requires Core(s, p, c) && CStep(s, c, s', c')
    ensures s'.m.pushed == s.m.pushed && s'.m.head <= |s'.m.pushed|
    ensures if c.StoreHead? then c' == Leave(c.got) && c.got != [] && Queue(s.m) == c.got + Queue(s'.m)
            else Queue(s'.m) == Queue(s.m)
  {
    if !c.StoreHead? { assert s'.m.head == s.m.head && s'.m.pushed == s.m.pushed; }
  }

  // ---------------------------------------------------------------- linearization of Push

  /** Has this Push made its item part of the queue? */
  predicate Stored(p: Producer) { p.PAdd? || p.PUnlock? }

  /** Where goroutine p is in its Push. */
  function At(run: seq<Config>, n: nat, p: nat): Producer
    requires n < |run|
  {
    if p in run[n].r.prods then run[n].r.prods[p] else PUnlock
  }

  /** Goroutine p is inside one call Push(x) from just after step i up to state j. */
  ghost predicate Pushing(run: seq<Config>, i: nat, j: nat, p: nat, x: Item) {
    && i < j < |run| && BeginPush(run[i].r, run[i + 1].r, p, x)
    && forall n: nat :: i < n <= j ==> p in run[n].r.prods
  }

  /** Step k is the one that appends x: p has not stored before it and has stored after it. */
  ghost predicate StoresAt(run: seq<Config>, i: nat, k: nat, j: nat, p: nat, x: Item)
    requires i < k < j < |run|
  {
    && (forall n: nat :: i < n <= k ==> !Stored(At(run, n, p)))
    && (forall n: nat :: k < n <= j ==> Stored(At(run, n, p)))
    && run[k + 1].r.sh.m.pushed == run[k].r.sh.m.pushed + [x]
  }

  /**
   Every Push takes effect at exactly one step between its call and its return: it appends its own item. By
   RefinesFifo nothing else appends, so the push order respects the real-time order of the calls.
   */
  lemma PushLinearizes(run: seq<Config>, size: int64, i: nat, j: nat, p: nat, x: Item)
    requires Run(run, size) && Pushing(run, i, j, p, x)
    ensures if Stored(At(run, j, p)) then exists k: nat :: i < k < j && StoresAt(run, i, k, j, p, x)
            else At(run, j, p).x == x && forall n: nat :: i < n <= j ==> !Stored(At(run, n, p))
  {
    forall n: nat | i < n < j ensures StageAt(run, n, p) {
      StageOfRun(run, size, n, p);
    }
    StagesLinearize(run, i, j, p, x);
  }

  lemma {:induction false} StagesLinearize(run: seq<Config>, i: nat, j: nat, p: nat, x: Item)
    requires i < j < |run| && At(run, i + 1, p) == PLock(x)
    requires forall n: nat :: i < n < j ==> StageAt(run, n, p)
    ensures if Stored(At(run, j, p)) then exists k: nat :: i < k < j && StoresAt(run, i, k, j, p, x)
            else At(run, j, p).x == x && forall n: nat :: i < n <= j ==> !Stored(At(run, n, p))
    decreases j
  {
    if j > i + 1 {
      StagesLinearize(run, i, j - 1, p, x);
      assert StageAt(run, j - 1, p);
      if Stored(At(run, j - 1, p)) {
        var k: nat :| i < k < j - 1 && StoresAt(run, i, k, j - 1, p, x);
        assert StoresAt(run, i, k, j, p, x);
      } else if Stored(At(run, j, p)) {
        assert StoresAt(run, i, j - 1, j, p, x);
      }
    }
  }

  /** What step n of a run does to the Push of goroutine p. */
  ghost predicate StageAt(run: seq<Config>, n: nat, p: nat)
    requires n < |run| - 1
  {
    StageMoves(run[n].r.sh.m, At(run, n, p), run[n + 1].r.sh.m, At(run, n + 1, p))
  }

  lemma StageOfRun(run: seq<Config>, size: int64, n: nat, p: nat)
    requires Run(run, size) && n < |run| - 1 && p in run[n].r.prods && p in run[n + 1].r.prods
    ensures StageAt(run, n, p)
  {
    Safety(run, size, n);
    assert MovesAt(run, n);
    PushStage(run[n].r, run[n].c, run[n + 1].r, run[n + 1].c, p);
  }

  predicate StageMoves(m: Mem, p: Producer, m': Mem, p': Producer) {
    if Stored(p) then Stored(p')
    else if Stored(p') then m'.pushed == m.pushed + [p.x]
    else p'.x == p.x
  }

  lemma PushStage(r: Ring, c: Consumer, r': Ring, c': Consumer, p: nat)
    requires Inv(r, c) && Next(r, c, r', c') && p in r.prods && p in r'.prods
    ensures StageMoves(r.sh.m, r.prods[p], r'.sh.m, r'.prods[p])
  {
    if Advance(r, r', p) {
      var q :| PStep(r.sh, r.prods[p], r'.sh, q) && r' == r.(sh := r'.sh, prods := r.prods[p := q]);
      StageStep(r.sh, r.prods[p], r'.sh, q);
    } else if Acquire(r, r', p) {
    } else {
      assert r'.prods[p] == r.prods[p];
    }
  }

  lemma StageStep(s: Shared, p: Producer, s': Shared, p': Producer)
    requires PStep(s, p, s', p')
    ensures StageMoves(s.m, p, s'.m, p')
  {
  }

  /**
   In every state, mid-batch and mid-push included: cursors the consumer has not cleared yet find their item, popped
   items are the first `head` pushed, and every slot outside the window from Lo to Hi is zero. Outside the consumer's
   critical section and the gap between slot write and tail store, that window is head to tail.
   */
  lemma SlotContents(r: Ring, c: Consumer, s: nat)
    requires Inv(r, c) && s < Cap(r.sh.m)
    ensures var m := r.sh.m;
            var lo, hi := Lo(m, c), Hi(m, Active(r));
            && m.popped == m.pushed[..m.head]
            && m.head <= lo <= m.tail <= hi <= lo + Cap(m)
            && (!Critical(c) ==> lo == m.head) && (!Active(r).PStore? ==> hi == m.tail)
            && (forall i: nat :: lo <= i < m.tail ==> m.bufs[m.content][Slot(i, Cap(m))] == m.pushed[i])
            && (m.tail < hi ==> m.bufs[m.content][Slot(m.tail, Cap(m))] == Active(r).x)
            && (m.bufs[m.content][s] == m.zero || exists i: nat :: lo <= i < hi && Slot(i, Cap(m)) == s)
  {
    var m := r.sh.m;
    var i := WindowCovers(Lo(m, c), Cap(m), s);
  }

  /** PopN reports an empty queue only if every stored item belongs to a Push that has not returned. */
  lemma EmptyMeansDrained(run: seq<Config>, size: int64, i: nat)
    requires Run(run, size) && i < |run| - 1 && run[i].c.AtLength? && run[i + 1].c == Returned([])
    ensures Inv(run[i].r, run[i].c)
    ensures |Queue(run[i].r.sh.m)| == if Active(run[i].r).PAdd? then 1 else 0
  {
    Safety(run, size, i);
    assert MovesAt(run, i);
  }

  // ---------------------------------------------------------------- what one PopN takes

  /** Inside a PopN that read a length, up to its return. */
  predicate InCall(c: Consumer) { !c.Away? && !c.AtLength? }

  /** Of a PopN that found head at h and settled on k items: how far it is, and what it holds. */
  ghost predicate Taking(m: Mem, c: Consumer, h: nat, k: int) {
    && (Sized(c) ==> c.n == k && m.head == h)
    && (c.StoreHead? ==> c.n == k && c.h == h == m.head)
    && (c.Leave? || c.Returned? ==>
          0 <= k && m.head == h + k && h + k <= |m.pushed| && c.got == m.pushed[h..h + k])
  }

  lemma TakingBegins(s: Shared, p: Producer, c: Consumer, s': Shared, c': Consumer)
    requires Core(s, p, c) && CStep(s, c, s', c') && c.AtLength?
    ensures Taking(s'.m, c', s.m.head, Min(c.want, s.length))
  {
  }

  lemma TakingPop(s: Shared, p: Producer, c: Consumer, s': Shared, c': Consumer, h: nat, k: int)
    requires Core(s, p, c) && CStep(s, c, s', c') && InCall(c) && Taking(s.m, c, h, k)
    ensures Taking(s'.m, c', h, k)
  {
    if c.Move? { assert s'.m.head == s.m.head && c'.n == c.n; }
  }

  lemma TakingPush(s: Shared, p: Producer, s': Shared, p': Producer, c: Consumer, h: nat, k: int)
    requires PStep(s, p, s', p') && Taking(s.m, c, h, k)
    ensures Taking(s'.m, c, h, k)
  {
    assert s.m.pushed <= s'.m.pushed && s'.m.head == s.m.head;
  }

  /** Any step of the buffer, the consumer staying inside its call, keeps the account of the call. */
  lemma TakingKeeps(r: Ring, c: Consumer, r': Ring, c': Consumer, h: nat, k: int)
    requires Inv(r, c) && Next(r, c, r', c') && InCall(c) && InCall(c') && Taking(r.sh.m, c, h, k)
    ensures Taking(r'.sh.m, c', h, k)
  {
    if CStep(r.sh, c, r'.sh, c') {
      TakingPop(r.sh, Active(r), c, r'.sh, c', h, k);
    } else if p: nat :| Advance(r, r', p) {
      var q :| PStep(r.sh, r.prods[p], r'.sh, q);
      TakingPush(r.sh, r.prods[p], r'.sh, q, c, h, k);
    }
  }

  /** One call of PopN(want): it reads the length at state i and is inside the call from then up to state j. */
  ghost predicate OneCall(run: seq<Config>, i: nat, j: nat) {
    i < j < |run| && run[i].c.AtLength? && forall n: nat :: i < n <= j ==> InCall(run[n].c)
  }

  /** Throughout one PopN(want): it takes min(want, the length it read) items, the oldest not yet popped, in order. */
  lemma {:induction false} PopNTakes(run: seq<Config>, size: int64, i: nat, j: nat)
    requires Run(run, size) && OneCall(run, i, j)
    ensures Taking(run[j].r.sh.m, run[j].c, run[i].r.sh.m.head, Min(run[i].c.want, run[i].r.sh.length))
    decreases j
  {
    Safety(run, size, j - 1);
    assert MovesAt(run, j - 1);
    var a, b := run[j - 1], run[j];
    if j == i + 1 {
      TakingBegins(a.r.sh, Active(a.r), a.c, b.r.sh, b.c);
    } else {
      PopNTakes(run, size, i, j - 1);
      TakingKeeps(a.r, a.c, b.r, b.c, run[i].r.sh.m.head, Min(run[i].c.want, run[i].r.sh.length));
    }
  }

  /** What PopN(want) returns: exactly that, and head has moved past exactly that. */
  lemma PopNReturns(run: seq<Config>, size: int64, i: nat, j: nat)
    requires Run(run, size) && OneCall(run, i, j) && run[j].c.Returned?
    ensures var m, h, k := run[j].r.sh.m, run[i].r.sh.m.head, Min(run[i].c.want, run[i].r.sh.length);
            && 0 <= k && m.head == h + k <= |m.pushed|
            && run[j].c.got == m.pushed[h..h + k] && |run[j].c.got| == k
  {
    Safety(run, size, i);
    PopNTakes(run, size, i, j);
  }

  // ---------------------------------------------------------------- handshake

  /** Growth never overlaps the critical section, and a producer's write never meets the batch's slots. */
  lemma NoSlotRace(r: Ring, c: Consumer)
    requires Inv(r, c)
    ensures Swapping(Active(r)) ==> !Critical(c)
    ensures Active(r).PWrite? && c.Move? ==>
              && Active(r).b == c.b == r.sh.m.content
              && forall k: nat {:trigger BatchIndex(c.h, c.n, Cap(r.sh.m), k)} ::
                   k < c.n ==> BatchIndex(c.h, c.n, Cap(r.sh.m), k) != Slot(Active(r).t, Cap(r.sh.m))
  {
    var p, cap := Active(r), Cap(r.sh.m);
    if p.PWrite? && c.Move? {
      forall k: nat {:trigger BatchIndex(c.h, c.n, cap, k)} | k < c.n
        ensures BatchIndex(c.h, c.n, cap, k) != Slot(p.t, cap)
      {
        WrappedIndex(c.h, k, cap);
        SlotsDiffer(c.h + k, p.t, cap);
      }
    }
  }

  /** grow and the consumer never wait for each other's flag at once. */
  lemma NoMutualWait(run: seq<Config>, size: int64, i: nat)
    requires Run(run, size) && i < |run|
    ensures var r, c := run[i].r, run[i].c; !(Active(r).PWait? && r.sh.popping && c.Spin? && r.sh.growing)
  {
    Safety(run, size, i);
  }

  /** Consumer steps left, at most, before `popping` is clear while `growing` stays set. */
  function ClearsIn(c: Consumer): int {
    match c
    case Check(_) => 1
    case LoadBuf(n) => 2 * n + 7
    case LoadHead(n, _) => 2 * n + 6
    case Move(n, _, _, wrapped, got, cleared) => (n - |got|) + (n - cleared) + (if wrapped then 0 else 1) + 3
    case Sub(_, _, _) => 2
    case StoreHead(_, _, _) => 1
    case _ => 0
  }

  /** A grow waiting on `popping` is released: the consumer can step, and each of its steps nears the release. */
  lemma GrowIsReleased(r: Ring, c: Consumer)
    requires Inv(r, c) && Active(r).PWait? && r.sh.popping
    ensures exists s', c' :: CStep(r.sh, c, s', c')
    ensures forall s', c' :: CStep(r.sh, c, s', c') ==> !s'.popping || 0 <= ClearsIn(c') < ClearsIn(c)
  {
    if c.Move? { MoveStepExists(r.sh, Active(r), c); } else { StraightStep(r.sh, c); }
    forall s', c' | CStep(r.sh, c, s', c') ensures !s'.popping || 0 <= ClearsIn(c') < ClearsIn(c) {
      NearsRelease(r.sh, Active(r), c, s', c');
    }
  }

  lemma NearsRelease(s: Shared, p: Producer, c: Consumer, s': Shared, c': Consumer)
    requires Core(s, p, c) && s.growing && s.popping && CStep(s, c, s', c')
    ensures !s'.popping || 0 <= ClearsIn(c') < ClearsIn(c)
  {
  }

  lemma MoveStepExists(s: Shared, p: Producer, c: Consumer)
    requires Core(s, p, c) && c.Move?
    ensures exists s', c' :: CStep(s, c, s', c')
  {
    var cap := Cap(s.m);
    if |c.got| < Pass(c, cap) {
      BatchSlot(s.m, c, |c.got|);
      var i := BatchIndex(c.h, c.n, cap, |c.got|);
      assert CStep(s, c, s, Move(c.n, c.b, c.h, c.wrapped, c.got + [s.m.bufs[c.b][i]], c.cleared));
    } else if c.cleared < Pass(c, cap) {
      BatchSlot(s.m, c, c.cleared);
      var i := BatchIndex(c.h, c.n, cap, c.cleared);
      assert CStep(s, c, s.(m := SetSlot(s.m, c.b, i, s.m.zero)), Move(c.n, c.b, c.h, c.wrapped, c.got, c.cleared + 1));
    } else if !c.wrapped && Pass(c, cap) < c.n {
      assert CStep(s, c, s, Move(c.n, c.b, c.h, true, c.got, c.cleared));
    } else {
      assert CStep(s, c, s, Sub(c.n, c.h, c.got));
    }
  }

  lemma StraightStep(s: Shared, c: Consumer)
    requires PoppingSet(c) && !c.Move?
    ensures exists s', c' :: CStep(s, c, s', c')
  {
    match c
    case Check(n) => assert CStep(s, c, s, if s.growing then Lower(n) else LoadBuf(n));
    case Lower(n) => assert CStep(s, c, s.(popping := false), Spin(n));
    case LoadBuf(n) => assert CStep(s, c, s, LoadHead(n, s.m.content));
    case LoadHead(n, b) => assert CStep(s, c, s, Move(n, b, s.m.head, false, [], 0));
    case Sub(n, h, got) => assert CStep(s, c, s.(length := s.length - n), StoreHead(n, h, got));
    case StoreHead(n, h, got) =>
      assert CStep(s, c, s.(m := s.m.(head := h + n, popped := s.m.popped + got)), Leave(got));
    case Leave(got) => assert CStep(s, c, s.(popping := false), Returned(got));
    case _ =>
  }

  /** Producer steps left, at most, before `growing` is clear while `popping` stays clear. */
  function GrowsFor(p: Producer, cap: nat): int {
    match p
    case PWait(_, _, _) => cap + 4
    case PRoom(_, _, _) => cap + 3
    case PCopy(_, _, t, _, _, i) => t - i + 2
    case PLower(_, _, _) => 1
    case _ => 0
  }

  /** A consumer waiting on `growing` is released: the grower can step, and each of its steps nears the release. */
  lemma ConsumerIsReleased(r: Ring, c: Consumer)
    requires Inv(r, c) && c.Spin? && r.sh.growing
    ensures exists s', p' :: PStep(r.sh, Active(r), s', p')
    ensures forall s', p' :: PStep(r.sh, Active(r), s', p') ==>
              !s'.growing || 0 <= GrowsFor(p', Cap(r.sh.m)) < GrowsFor(Active(r), Cap(r.sh.m))
  {
    var s, p := r.sh, Active(r);
    var m := s.m;
    match p
    case PWait(x, b, t) => assert PStep(s, p, s, PRoom(x, b, t));
    case PRoom(x, b, t) =>
      if t - m.head <= Cap(m) - 1 {
        assert PStep(s, p, s, PLower(x, b, t));
      } else {
        var m' := m.(bufs := m.bufs + [seq(2 * Cap(m), _ => m.zero)]);
        assert PStep(s, p, s.(m := m'), PCopy(x, b, t, |m.bufs|, m.head, m.head));
      }
    case PCopy(x, b, t, nb, h, i) =>
      if i < t {
        var m' := SetSlot(m, nb, Slot(i, |m.bufs[nb]|), m.bufs[b][Slot(i, |m.bufs[b]|)]).(copied := m.copied + 1);
        assert PStep(s, p, s.(m := m'), PCopy(x, b, t, nb, h, i + 1));
      } else {
        assert PStep(s, p, s.(m := m.(content := nb)), PLower(x, nb, t));
      }
    case PLower(x, b, t) => assert PStep(s, p, s.(growing := false), PWrite(x, b, t));
    case _ =>
  }

  // ---------------------------------------------------------------- counting and cost

  /** tail - head is `length` plus what each side has moved but not yet counted; a batch size never exceeds it. */
  lemma CountingConserved(run: seq<Config>, size: int64, i: nat)
    requires Run(run, size) && i < |run|
    ensures var r, c := run[i].r, run[i].c;
            && r.sh.m.tail - r.sh.m.head ==
                 r.sh.length + (if Active(r).PAdd? then 1 else 0) + (if c.StoreHead? then c.n else 0)
            && r.sh.length >= 0 && (Sized(c) ==> c.n <= r.sh.length)
  {
    Safety(run, size, i);
  }

  function Occupancy(k: Config): int { k.r.sh.m.tail - k.r.sh.m.head }

  /** Slots copied by a growth still in progress. */
  function InCopy(p: Producer): int { if p.PCopy? then p.i - p.h else 0 }

  /** In every state of a run: capacity, and slots copied by all growths, are linear in what was pushed. */
  lemma CostOfRun(run: seq<Config>, size: int64, i: nat)
    requires Run(run, size) && i < |run|
    ensures Inv(run[i].r, run[i].c)
    ensures var m := run[i].r.sh.m;
            && m.cap0 == RoundUpPow2(size)
            && m.copied == Cap(m) - RoundUpPow2(size) + InCopy(Active(run[i].r))
            && (m.pushed != [] ==> m.copied < 2 * |m.pushed|)
    ensures exists j: nat :: j <= i && Cap(run[i].r.sh.m) <= Max(RoundUpPow2(size), 2 * Occupancy(run[j]))
  {
    Safety(run, size, i);
    PeakIsReached(run, size, i);
  }

  /** `peak` is an occupancy some earlier state really had. */
  lemma {:induction false} PeakIsReached(run: seq<Config>, size: int64, i: nat)
    requires Run(run, size) && i < |run|
    ensures run[i].r.sh.m.cap0 == RoundUpPow2(size)
    ensures exists j: nat :: j <= i && Occupancy(run[j]) == run[i].r.sh.m.peak
  {
    if i > 0 {
      PeakIsReached(run, size, i - 1);
      var j: nat :| j <= i - 1 && Occupancy(run[j]) == run[i - 1].r.sh.m.peak;
      var a, b := run[i - 1], run[i];
      assert MovesAt(run, i - 1);
      PeakStep(a.r, a.c, b.r, b.c);
    }
  }

  lemma PeakStep(r: Ring, c: Consumer, r': Ring, c': Consumer)
    requires Next(r, c, r', c')
    ensures r'.sh.m.peak == r.sh.m.peak || r'.sh.m.peak == r'.sh.m.tail - r'.sh.m.head
    ensures r'.sh.m.cap0 == r.sh.m.cap0
  {
    if CStep(r.sh, c, r'.sh, c') {
      PopHistory(r.sh, c, r'.sh, c');
    } else if p: nat :| Advance(r, r', p) {
      var q :| PStep(r.sh, r.prods[p], r'.sh, q);
      PushHistory(r.sh, r.prods[p], r'.sh, q);
    }
  }

  lemma PopHistory(s: Shared, c: Consumer, s': Shared, c': Consumer)
    requires CStep(s, c, s', c')
    ensures s'.m.content == s.m.content && s'.m.peak == s.m.peak && s'.m.cap0 == s.m.cap0
  {
  }

  lemma PushHistory(s: Shared, p: Producer, s': Shared, p': Producer)
    requires PStep(s, p, s', p')
    ensures s'.m.peak == s.m.peak || s'.m.peak == s'.m.tail - s'.m.head
    ensures s'.m.cap0 == s.m.cap0
  {
  }

  /** A Push turns to growth if and only if the head it reads shows the array full; otherwise it goes on to write. */
  lemma GrowsIffFull(run: seq<Config>, size: int64, i: nat)
    requires Run(run, size) && i < |run| - 1 && Active(run[i].r).PHead? && Active(run[i + 1].r) != Active(run[i].r)
    ensures Inv(run[i].r, run[i].c)
    ensures var m, p := run[i].r.sh.m, Active(run[i + 1].r);
            if m.tail - m.head == Cap(m) then p.PRaise? else p.PWrite?
  {
    Safety(run, size, i);
    assert MovesAt(run, i);
    var a, b := run[i], run[i + 1];
    var p: nat :| ProducerStep(a.r, b.r, p);
    HeadChoice(a.r, a.c, b.r, p);
  }

  lemma HeadChoice(r: Ring, c: Consumer, r': Ring, p: nat)
    requires Inv(r, c) && ProducerStep(r, r', p) && Active(r).PHead?
    ensures if r.sh.m.tail - r.sh.m.head == Cap(r.sh.m) then Active(r').PRaise? else Active(r').PWrite?
  {
    var q :| PStep(r.sh, r.prods[p], r'.sh, q) && r' == r.(sh := r'.sh, prods := r.prods[p := q]);
    assert Active(r) == r.prods[p] && Active(r') == q;
  }

  /** The published array is replaced only when exactly full, by one of twice the capacity. */
  lemma DoublesWhenFull(r: Ring, c: Consumer, r': Ring, c': Consumer)
    requires Inv(r, c) && Next(r, c, r', c') && r'.sh.m.content != r.sh.m.content
    ensures Cursors(r'.sh.m) && r.sh.m.tail - r.sh.m.head == Cap(r.sh.m) && Cap(r'.sh.m) == 2 * Cap(r.sh.m)
    ensures Queue(r'.sh.m) == Queue(r.sh.m)
  {
    if CStep(r.sh, c, r'.sh, c') { PopHistory(r.sh, c, r'.sh, c'); }
    var p: nat :| c' == c && ProducerStep(r, r', p);
    var q :| PStep(r.sh, r.prods[p], r'.sh, q);
    SwapIsDoubling(r.sh, r.prods[p], c, r'.sh, q);
  }

  lemma SwapIsDoubling(s: Shared, p: Producer, c: Consumer, s': Shared, p': Producer)
    requires Core(s, p, c) && PStep(s, p, s', p') && s'.m.content != s.m.content
    ensures Cursors(s'.m) && s.m.tail - s.m.head == Cap(s.m) && Cap(s'.m) == 2 * Cap(s.m)
    ensures Queue(s'.m) == Queue(s.m)
  {
    PStepKeeps(s, p, c, s', p');
  }
}
