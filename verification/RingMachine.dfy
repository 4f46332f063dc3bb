/**
 The ring buffer under concurrency (ringbuffer.go): every atomic load, store and add, every lock
 region boundary and every slot access is one step. Producers serialise on the mutex; the consumer
 never takes it. Growth swaps the backing array under the `growing`/`popping` handshake.
 */
module RingMachine {
  import opened Wrappers
  import opened Bits

  /** The element type of the queue. */
  type Item(==, 0, !new)

  /**
   The cursors and backing arrays. The fields from `pushed` on are history: no step reads them.
   */
  datatype Mem = Mem(
    bufs: seq<seq<Item>>,  // every backing array ever allocated
    content: nat,          // the published one
    head: nat,
    tail: nat,
    zero: Item,
    pushed: seq<Item>,     // items in the order their tail store made them part of the queue
    popped: seq<Item>,     // items in the order head passed them
    cap0: nat,             // capacity at creation
    copied: nat,           // slots copied by all growths
    peak: nat)             // largest occupancy so far

  /** Memory shared by all goroutines. */
  datatype Shared = Shared(m: Mem, length: int, growing: bool, popping: bool)

  /** Where the one consumer is inside PopN. Pop is the same path with a request of one item. */
  datatype Consumer =
    | Away
    | AtLength(want: nat)
    | Raise(n: nat)                   // popping.Store(true)
    | Check(n: nat)                   // growing.Load()
    | Lower(n: nat)                   // popping.Store(false), standing down
    | Spin(n: nat)                    // waiting for growing to clear
    | LoadBuf(n: nat)
    | LoadHead(n: nat, b: nat)
    | Move(n: nat, b: nat, h: nat, wrapped: bool, got: seq<Item>, cleared: nat)
    | Sub(n: nat, h: nat, got: seq<Item>)
    | StoreHead(n: nat, h: nat, got: seq<Item>)
    | Leave(got: seq<Item>)
    | Returned(got: seq<Item>)        // the empty batch stands for a false result

  /** Where one producer is inside Push. */
  datatype Producer =
    | PLock(x: Item)
    | PBuf(x: Item)
    | PTail(x: Item, b: nat)
    | PHead(x: Item, b: nat, t: nat)
    | PRaise(x: Item, b: nat, t: nat)   // growing.Store(true)
    | PWait(x: Item, b: nat, t: nat)    // waiting for popping to clear
    | PRoom(x: Item, b: nat, t: nat)    // reloads head, allocates if still full
    | PCopy(x: Item, b: nat, t: nat, nb: nat, h: nat, i: nat)
    | PLower(x: Item, b: nat, t: nat)   // growing.Store(false)
    | PWrite(x: Item, b: nat, t: nat)
    | PStore(x: Item, b: nat, t: nat)   // tail.Store
    | PAdd                              // length.Add(1)
    | PUnlock

  function Cap(m: Mem): nat
    requires m.content < |m.bufs|
  {
    |m.bufs[m.content]|
  }

  /** Items of a batch that sit before the end of the array. */
  function First(h: nat, n: nat, cap: nat): nat
    requires cap > 0
  {
    Min(n, cap - Slot(h, cap))
  }

  /** The array index PopN touches for the `k`-th item of its batch. */
  function BatchIndex(h: nat, n: nat, cap: nat, k: nat): int
    requires cap > 0
  {
    if k < First(h, n, cap) then Slot(h, cap) + k else k - First(h, n, cap)
  }

  function SetSlot(m: Mem, b: nat, i: nat, x: Item): Mem
    requires b < |m.bufs| && i < |m.bufs[b]|
  {
    m.(bufs := m.bufs[b := m.bufs[b][i := x]])
  }

  /** How many items of the batch the current copy-then-clear pass covers. */
  function Pass(c: Consumer, cap: nat): nat
    requires c.Move? && cap > 0
  {
    if c.wrapped then c.n else First(c.h, c.n, cap)
  }

  /** PopN copies then clears the run up to the end of the array, then the run that wrapped. */
  ghost predicate MoveStep(m: Mem, c: Consumer, m': Mem, c': Consumer)
    requires c.Move?
  {
    && c.b < |m.bufs| && |m.bufs[c.b]| > 0
    && var cap := |m.bufs[c.b]|;
       if |c.got| < Pass(c, cap) then
         var i := BatchIndex(c.h, c.n, cap, |c.got|);
         0 <= i < cap && m' == m && c' == Move(c.n, c.b, c.h, c.wrapped, c.got + [m.bufs[c.b][i]], c.cleared)
       else if c.cleared < Pass(c, cap) then
         var i := BatchIndex(c.h, c.n, cap, c.cleared);
         0 <= i < cap && m' == SetSlot(m, c.b, i, m.zero) && c' == Move(c.n, c.b, c.h, c.wrapped, c.got, c.cleared + 1)
       else
         && m' == m
         && c' == if !c.wrapped && Pass(c, cap) < c.n then Move(c.n, c.b, c.h, true, c.got, c.cleared)
                  else Sub(c.n, c.h, c.got)
  }

  ghost predicate CStep(s: Shared, c: Consumer, s': Shared, c': Consumer) {
    match c
    case Away => false
    case Returned(_) => false
    case AtLength(want) =>
      // a negative length would make the batch allocation panic: no step
      s.length >= 0 && s' == s && c' == if s.length == 0 then Returned([]) else Raise(Min(want, s.length))
    case Raise(n) => s' == s.(popping := true) && c' == Check(n)
    case Check(n) => s' == s && c' == if s.growing then Lower(n) else LoadBuf(n)
    case Lower(n) => s' == s.(popping := false) && c' == Spin(n)
    case Spin(n) => s' == s && c' == if s.growing then Spin(n) else Raise(n)
    case LoadBuf(n) => s' == s && c' == LoadHead(n, s.m.content)
    case LoadHead(n, b) => s' == s && c' == Move(n, b, s.m.head, false, [], 0)
    case Move(_, _, _, _, _, _) => s' == s.(m := s'.m) && MoveStep(s.m, c, s'.m, c')
    case Sub(n, h, got) => s' == s.(length := s.length - n) && c' == StoreHead(n, h, got)
    case StoreHead(n, h, got) =>
      s' == s.(m := s.m.(head := h + n, popped := s.m.popped + got)) && c' == Leave(got)
    case Leave(got) => s' == s.(popping := false) && c' == Returned(got)
  }

  /** Steps of grow that touch the arrays. */
  ghost predicate GrowStep(m: Mem, p: Producer, m': Mem, p': Producer)
    requires p.PRoom? || p.PCopy?
  {
    && p.b < |m.bufs| && |m.bufs[p.b]| > 0
    && if p.PRoom? then
         if p.t - m.head <= |m.bufs[p.b]| - 1 then m' == m && p' == PLower(p.x, p.b, p.t)
         else
           && m' == m.(bufs := m.bufs + [seq(2 * |m.bufs[p.b]|, _ => m.zero)])
           && p' == PCopy(p.x, p.b, p.t, |m.bufs|, m.head, m.head)
       else if p.i < p.t then
         && p.nb < |m.bufs| && |m.bufs[p.nb]| > 0
         && p' == PCopy(p.x, p.b, p.t, p.nb, p.h, p.i + 1)
         && var x := m.bufs[p.b][Slot(p.i, |m.bufs[p.b]|)];
            m' == SetSlot(m, p.nb, Slot(p.i, |m.bufs[p.nb]|), x).(copied := m.copied + 1)
       else m' == m.(content := p.nb) && p' == PLower(p.x, p.nb, p.t)
  }

  /** A step of the producer that holds the mutex, up to but not including the unlock. */
  ghost predicate PStep(s: Shared, p: Producer, s': Shared, p': Producer) {
    match p
    case PLock(_) => false
    case PUnlock => false
    case PBuf(x) => s' == s && p' == PTail(x, s.m.content)
    case PTail(x, b) => s' == s && p' == PHead(x, b, s.m.tail)
    case PHead(x, b, t) =>
      && b < |s.m.bufs|
      && s' == s && p' == if t - s.m.head > |s.m.bufs[b]| - 1 then PRaise(x, b, t) else PWrite(x, b, t)
    case PRaise(x, b, t) => s' == s.(growing := true) && p' == PWait(x, b, t)
    case PWait(x, b, t) => s' == s && p' == if s.popping then PWait(x, b, t) else PRoom(x, b, t)
    case PRoom(_, _, _) => s' == s.(m := s'.m) && GrowStep(s.m, p, s'.m, p')
    case PCopy(_, _, _, _, _, _) => s' == s.(m := s'.m) && GrowStep(s.m, p, s'.m, p')
    case PLower(x, b, t) => s' == s.(growing := false) && p' == PWrite(x, b, t)
    case PWrite(x, b, t) =>
      && b < |s.m.bufs| && |s.m.bufs[b]| > 0
      && s' == s.(m := SetSlot(s.m, b, Slot(t, |s.m.bufs[b]|), x)) && p' == PStore(x, b, t)
    case PStore(x, b, t) =>
      && s' == s.(m := s.m.(tail := t + 1, pushed := s.m.pushed + [x], peak := Max(s.m.peak, t + 1 - s.m.head)))
      && p' == PAdd
    case PAdd => s' == s.(length := s.length + 1) && p' == PUnlock
  }

  /** The buffer as its producers see it: shared memory, the mutex, and each pending Push. */
  datatype Ring = Ring(sh: Shared, holder: Option<nat>, prods: map<nat, Producer>)

  /** Push(x) is called by a goroutine not already inside Push. */
  ghost predicate BeginPush(r: Ring, r': Ring, p: nat, x: Item) {
    p !in r.prods && r' == r.(prods := r.prods[p := PLock(x)])
  }

  ghost predicate Acquire(r: Ring, r': Ring, p: nat) {
    && p in r.prods && r.prods[p].PLock? && r.holder.None?
    && r' == r.(holder := Some(p), prods := r.prods[p := PBuf(r.prods[p].x)])
  }

  /** One step by a producer inside the lock. The mutex is enforced by who may hold `holder`, not here. */
  ghost predicate Advance(r: Ring, r': Ring, p: nat) {
    && p in r.prods
    && exists q :: PStep(r.sh, r.prods[p], r'.sh, q) && r' == r.(sh := r'.sh, prods := r.prods[p := q])
  }

  /** Unlock and return from Push. */
  ghost predicate EndPush(r: Ring, r': Ring, p: nat) {
    p in r.prods && r.prods[p].PUnlock? && r' == r.(holder := None, prods := r.prods - {p})
  }

  ghost predicate ProducerStep(r: Ring, r': Ring, p: nat) {
    Acquire(r, r', p) || Advance(r, r', p) || EndPush(r, r', p)
  }

  /** The consumer calls PopN(want) with a positive request, or walks away with what it got. */
  ghost predicate BetweenPops(c: Consumer, c': Consumer) {
    (c.Away? || c.Returned?) && ((c'.AtLength? && c'.want > 0) || c'.Away?)
  }

  ghost predicate Next(r: Ring, c: Consumer, r': Ring, c': Consumer) {
    || (c' == c && exists p: nat, x :: BeginPush(r, r', p, x))
    || (c' == c && exists p: nat :: ProducerStep(r, r', p))
    || (r' == r && BetweenPops(c, c'))
    || (CStep(r.sh, c, r'.sh, c') && r' == r.(sh := r'.sh))
  }

  ghost predicate Init(r: Ring, c: Consumer, size: int64) {
    && r.holder.None? && r.prods == map[] && c.Away?
    && var cap, zero := RoundUpPow2(size), r.sh.m.zero;
       r.sh == Shared(Mem([seq(cap, _ => zero)], 0, 0, 0, zero, [], [], cap, 0, 0), 0, false, false)
  }

  // ---------------------------------------------------------------- invariant

  predicate Critical(c: Consumer) {
    c.LoadBuf? || c.LoadHead? || c.Move? || c.Sub? || c.StoreHead? || c.Leave?
  }

  predicate PoppingSet(c: Consumer) { c.Check? || c.Lower? || Critical(c) }

  /** grow past its wait, until it lowers its flag. */
  predicate Swapping(p: Producer) { p.PRoom? || p.PCopy? || p.PLower? }

  predicate GrowingSet(p: Producer) { p.PWait? || Swapping(p) }

  /** First cursor whose slot the consumer has not yet cleared. */
  function Lo(m: Mem, c: Consumer): nat {
    m.head + if c.Move? then c.cleared else if c.Sub? || c.StoreHead? then c.n else 0
  }

  /** First cursor whose slot no producer has written. */
  function Hi(m: Mem, p: Producer): nat {
    m.tail + if p.PStore? then 1 else 0
  }

  ghost predicate Cursors(m: Mem) {
    && m.content < |m.bufs|
    && IsPow2(Cap(m)) && Cap(m) > 0
    && m.head <= m.tail <= m.head + Cap(m)
    && |m.pushed| == m.tail
    && m.popped == m.pushed[..m.head]
  }

  /** Cursors lo up to hi find the pushed items in their slots. */
  ghost predicate Holds(buf: seq<Item>, pushed: seq<Item>, lo: nat, hi: nat) {
    |buf| > 0 && hi <= |pushed| &&
    forall i: nat {:trigger pushed[i]} {:trigger Slot(i, |buf|)} :: lo <= i < hi ==> buf[Slot(i, |buf|)] == pushed[i]
  }

  /** Cursors lo up to hi find the zero value in their slots. */
  ghost predicate Blank(buf: seq<Item>, zero: Item, lo: nat, hi: nat) {
    |buf| > 0 &&
    forall i: nat {:trigger Slot(i, |buf|)} :: lo <= i < hi ==> buf[Slot(i, |buf|)] == zero
  }

  /** The published array holds exactly the items not yet cleared, and zero values elsewhere. */
  ghost predicate Window(m: Mem, lo: nat, hi: nat)
    requires Cursors(m)
  {
    && Holds(m.bufs[m.content], m.pushed, lo, m.tail)
    && Blank(m.bufs[m.content], m.zero, hi, lo + Cap(m))
  }

  /** tail - head, less the adds and subtractions in flight, is `length`. */
  ghost predicate Counted(s: Shared, p: Producer, c: Consumer) {
    && s.length == s.m.tail - s.m.head - (if p.PAdd? then 1 else 0) - (if c.StoreHead? then c.n else 0)
    && s.length >= 0
  }

  ghost predicate Flags(s: Shared, p: Producer, c: Consumer) {
    && (s.popping <==> PoppingSet(c))
    && (s.growing <==> GrowingSet(p))
    && !(Swapping(p) && Critical(c))
  }

  /** Between reading `length` and subtracting, the batch size is within what is queued. */
  predicate Sized(c: Consumer) {
    c.Raise? || c.Check? || c.Lower? || c.Spin? || c.LoadBuf? || c.LoadHead? || c.Move? || c.Sub?
  }

  ghost predicate BatchOk(m: Mem, c: Consumer)
    requires Cursors(m)
  {
    && (c.LoadHead? ==> c.b == m.content)
    && (c.Move? ==>
          && c.b == m.content && c.h == m.head
          && c.cleared <= |c.got| <= c.n <= m.tail - c.h
          && (if c.wrapped then First(c.h, c.n, Cap(m)) <= |c.got| else |c.got| <= First(c.h, c.n, Cap(m)))
          && c.got == m.pushed[c.h..c.h + |c.got|])
    && (c.Sub? || c.StoreHead? ==>
          1 <= c.n && c.h == m.head && c.n <= m.tail - c.h && c.got == m.pushed[c.h..c.h + c.n])
  }

  ghost predicate ConsumerOk(s: Shared, c: Consumer)
    requires Cursors(s.m)
  {
    && (c.AtLength? ==> c.want > 0)
    && (Sized(c) ==> 1 <= c.n <= s.length)
    && BatchOk(s.m, c)
  }

  /** The half-built array of a growth in progress. */
  ghost predicate Copying(m: Mem, p: Producer)
    requires Cursors(m) && p.PCopy?
  {
    && p.h == m.head && p.t - p.h == Cap(m)
    && p.nb < |m.bufs| && p.nb != m.content && |m.bufs[p.nb]| == 2 * Cap(m)
    && p.h <= p.i <= p.t
    && Holds(m.bufs[p.nb], m.pushed, p.h, p.i)
    && Blank(m.bufs[p.nb], m.zero, p.i, p.h + 2 * Cap(m))
  }

  predicate KnowsBuf(p: Producer) {
    p.PTail? || p.PHead? || p.PRaise? || p.PWait? || p.PRoom? || p.PCopy? || p.PLower? || p.PWrite? || p.PStore?
  }

  ghost predicate ProducerOk(m: Mem, p: Producer)
    requires Cursors(m)
  {
    && (KnowsBuf(p) ==> p.b == m.content)
    && (KnowsBuf(p) && !p.PTail? ==> p.t == m.tail)
    && (p.PCopy? ==> Copying(m, p))
    && (p.PLower? || p.PWrite? || p.PStore? ==> p.t - m.head < Cap(m))
    && (p.PStore? ==> m.bufs[p.b][Slot(p.t, Cap(m))] == p.x)
  }

  /** Capacity and copying cost so far. */
  ghost predicate Cost(m: Mem, p: Producer)
    requires Cursors(m)
  {
    && 2 <= m.cap0 <= Cap(m) <= Max(m.cap0, 2 * m.peak)
    && m.tail - m.head <= m.peak <= |m.pushed|
    && m.copied == Cap(m) - m.cap0 + (if p.PCopy? then p.i - p.h else 0)
  }

  /** What holds of shared memory, the mutex holder's position and the consumer's position. */
  ghost predicate Core(s: Shared, p: Producer, c: Consumer) {
    && Cursors(s.m)
    && Counted(s, p, c)
    && Flags(s, p, c)
    && ConsumerOk(s, c)
    && ProducerOk(s.m, p)
    && Window(s.m, Lo(s.m, c), Hi(s.m, p))
    && Cost(s.m, p)
  }

  // ---------------------------------------------------------------- array lemmas

  /** Writing the slot of cursor k disturbs no other cursor of the same lap. */
  lemma WriteHolds(buf: seq<Item>, pushed: seq<Item>, lo: nat, hi: nat, k: nat, x: Item)
    requires Holds(buf, pushed, lo, hi) && IsPow2(|buf|)
    requires (k < lo && hi <= k + |buf|) || (hi <= k < lo + |buf|)
    ensures Holds(buf[Slot(k, |buf|) := x], pushed, lo, hi)
  {
    WindowInjective(if k < lo then k else lo, |buf|);
  }

  lemma WriteBlank(buf: seq<Item>, zero: Item, lo: nat, hi: nat, k: nat, x: Item)
    requires Blank(buf, zero, lo, hi) && IsPow2(|buf|)
    requires (k < lo && hi <= k + |buf|) || (hi <= k < lo + |buf|)
    ensures Blank(buf[Slot(k, |buf|) := x], zero, lo, hi)
  {
    WindowInjective(if k < lo then k else lo, |buf|);
  }

  /** A cursor and the one a full lap later share a slot. */
  lemma SamePhase(i: nat, cap: nat)
    requires IsPow2(cap) && cap > 0
    ensures Slot(i + cap, cap) == Slot(i, cap)
  {
    SlotIsRemainder(i, cap);
    SlotIsRemainder(i + cap, cap);
    DivMod(i, cap);
    MulNext(cap, i / cap);
    RemainderUnique(i + cap, cap, i / cap + 1, i % cap);
  }

  /** Clearing the oldest live cursor k moves the window up by one. */
  lemma ClearOldest(buf: seq<Item>, pushed: seq<Item>, zero: Item, k: nat, tail: nat, hi: nat)
    requires Holds(buf, pushed, k, tail) && Blank(buf, zero, hi, k + |buf|) && IsPow2(|buf|)
    requires k < tail <= hi <= k + |buf|
    ensures var buf' := buf[Slot(k, |buf|) := zero];
            Holds(buf', pushed, k + 1, tail) && Blank(buf', zero, hi, k + 1 + |buf|)
  {
    WriteHolds(buf, pushed, k + 1, tail, k, zero);
    WriteBlank(buf, zero, hi, k + |buf|, k, zero);
    SamePhase(k, |buf|);
  }

  // ---------------------------------------------------------------- consumer steps

  lemma BatchSlot(m: Mem, c: Consumer, k: nat)
    requires Cursors(m) && c.Move? && BatchOk(m, c) && k < Pass(c, Cap(m))
    ensures k < c.n && BatchIndex(c.h, c.n, Cap(m), k) == Slot(c.h + k, Cap(m))
  {
    WrappedIndex(c.h, k, Cap(m));
  }

  lemma ReadKeeps(s: Shared, p: Producer, c: Consumer, s': Shared, c': Consumer)
    requires Core(s, p, c) && CStep(s, c, s', c') && c.Move? && |c.got| < Pass(c, Cap(s.m))
    ensures Core(s', p, c')
  {
    var k := |c.got|;
    BatchSlot(s.m, c, k);
    assert s.m.bufs[s.m.content][Slot(c.h + k, Cap(s.m))] == s.m.pushed[c.h + k];
    assert c'.got == s.m.pushed[c.h..c.h + k + 1];
    assert s'.m == s.m && Lo(s'.m, c') == Lo(s.m, c);
  }

  lemma ClearKeeps(s: Shared, p: Producer, c: Consumer, s': Shared, c': Consumer)
    requires Core(s, p, c) && CStep(s, c, s', c') && c.Move? && c.cleared < Pass(c, Cap(s.m)) <= |c.got|
    ensures Core(s', p, c')
  {
    var k := Lo(s.m, c);
    BatchSlot(s.m, c, c.cleared);
    ClearOldest(s.m.bufs[s.m.content], s.m.pushed, s.m.zero, k, s.m.tail, Hi(s.m, p));
    assert s'.m == SetSlot(s.m, s.m.content, Slot(k, Cap(s.m)), s.m.zero);
    assert Lo(s'.m, c') == k + 1 && Cap(s'.m) == Cap(s.m) && Hi(s'.m, p) == Hi(s.m, p);
    if p.PStore? { SlotsDiffer(k, p.t, Cap(s.m)); }
  }

  lemma PassKeeps(s: Shared, p: Producer, c: Consumer, s': Shared, c': Consumer)
    requires Core(s, p, c) && CStep(s, c, s', c') && c.Move? && Pass(c, Cap(s.m)) <= c.cleared
    ensures Core(s', p, c')
  {
    assert s'.m == s.m && Lo(s'.m, c') == Lo(s.m, c);
  }

  lemma HandshakeKeeps(s: Shared, p: Producer, c: Consumer, s': Shared, c': Consumer)
    requires Core(s, p, c) && CStep(s, c, s', c') && !c.Move? && !c.StoreHead?
    ensures Core(s', p, c')
  {
    assert s'.m == s.m && Lo(s'.m, c') == Lo(s.m, c);
  }

  lemma HeadKeeps(s: Shared, p: Producer, c: Consumer, s': Shared, c': Consumer)
    requires Core(s, p, c) && CStep(s, c, s', c') && c.StoreHead?
    ensures Core(s', p, c')
  {
    assert s'.m.popped == s.m.pushed[..s'.m.head];
  }

  lemma CStepKeeps(s: Shared, p: Producer, c: Consumer, s': Shared, c': Consumer)
    requires Core(s, p, c) && CStep(s, c, s', c')
    ensures Core(s', p, c')
  {
    if c.Move? {
      if |c.got| < Pass(c, Cap(s.m)) {
        ReadKeeps(s, p, c, s', c');
      } else if c.cleared < Pass(c, Cap(s.m)) {
        ClearKeeps(s, p, c, s', c');
      } else {
        PassKeeps(s, p, c, s', c');
      }
    } else if c.StoreHead? {
      HeadKeeps(s, p, c, s', c');
    } else {
      HandshakeKeeps(s, p, c, s', c');
    }
  }

  // ---------------------------------------------------------------- producer steps

  lemma QuietKeeps(s: Shared, p: Producer, c: Consumer, s': Shared, p': Producer)
    requires Core(s, p, c) && PStep(s, p, s', p')
    requires p.PBuf? || p.PTail? || p.PHead? || p.PRaise? || p.PWait? || p.PLower? || p.PAdd?
    ensures Core(s', p', c)
  {
    assert s'.m == s.m && Hi(s'.m, p') == Hi(s.m, p);
  }

  lemma RoomKeeps(s: Shared, p: Producer, c: Consumer, s': Shared, p': Producer)
    requires Core(s, p, c) && PStep(s, p, s', p') && p.PRoom?
    ensures Core(s', p', c)
  {
    assert Hi(s'.m, p') == Hi(s.m, p) && Lo(s'.m, c) == Lo(s.m, c);
    assert s'.m.bufs[s.m.content] == s.m.bufs[s.m.content];
  }

  lemma CopyKeeps(s: Shared, p: Producer, c: Consumer, s': Shared, p': Producer)
    requires Core(s, p, c) && PStep(s, p, s', p') && p.PCopy? && p.i < p.t
    ensures Core(s', p', c)
  {
    var nb, cap := s.m.bufs[p.nb], Cap(s.m);
    Doubled(cap);
    assert s.m.bufs[s.m.content][Slot(p.i, cap)] == s.m.pushed[p.i];
    WriteHolds(nb, s.m.pushed, p.h, p.i, p.i, s.m.pushed[p.i]);
    WriteBlank(nb, s.m.zero, p.i + 1, p.h + 2 * cap, p.i, s.m.pushed[p.i]);
    assert s'.m.bufs[p.nb] == nb[Slot(p.i, 2 * cap) := s.m.pushed[p.i]];
    assert s'.m.bufs[s.m.content] == s.m.bufs[s.m.content];
    assert Hi(s'.m, p') == Hi(s.m, p) && Lo(s'.m, c) == Lo(s.m, c);
  }

  lemma PublishKeeps(s: Shared, p: Producer, c: Consumer, s': Shared, p': Producer)
    requires Core(s, p, c) && PStep(s, p, s', p') && p.PCopy? && p.i >= p.t
    ensures Core(s', p', c)
  {
    Doubled(Cap(s.m));
    assert Hi(s'.m, p') == p.t && Lo(s'.m, c) == p.h;
  }

  lemma WriteKeeps(s: Shared, p: Producer, c: Consumer, s': Shared, p': Producer)
    requires Core(s, p, c) && PStep(s, p, s', p') && p.PWrite?
    ensures Core(s', p', c)
  {
    var buf, lo := s.m.bufs[s.m.content], Lo(s.m, c);
    WriteHolds(buf, s.m.pushed, lo, p.t, p.t, p.x);
    WriteBlank(buf, s.m.zero, p.t + 1, lo + Cap(s.m), p.t, p.x);
    assert s'.m.bufs[s.m.content] == buf[Slot(p.t, Cap(s.m)) := p.x];
    assert Hi(s'.m, p') == p.t + 1 && Lo(s'.m, c) == lo && Cap(s'.m) == Cap(s.m);
  }

  lemma StoreKeeps(s: Shared, p: Producer, c: Consumer, s': Shared, p': Producer)
    requires Core(s, p, c) && PStep(s, p, s', p') && p.PStore?
    ensures Core(s', p', c)
  {
    assert Hi(s'.m, p') == Hi(s.m, p) && Lo(s'.m, c) == Lo(s.m, c);
    assert forall i :: 0 <= i < p.t ==> s'.m.pushed[i] == s.m.pushed[i];
  }

  lemma PStepKeeps(s: Shared, p: Producer, c: Consumer, s': Shared, p': Producer)
    requires Core(s, p, c) && PStep(s, p, s', p')
    ensures Core(s', p', c)
  {
    match p
    case PRoom(_, _, _) => RoomKeeps(s, p, c, s', p');
    case PCopy(_, _, _, _, _, _) =>
      if p.i < p.t { CopyKeeps(s, p, c, s', p'); } else { PublishKeeps(s, p, c, s', p'); }
    case PWrite(_, _, _) => WriteKeeps(s, p, c, s', p');
    case PStore(_, _, _) => StoreKeeps(s, p, c, s', p');
    case _ => QuietKeeps(s, p, c, s', p');
  }
}
