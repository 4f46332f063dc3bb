/** A reachable inbox with two live processor goroutines: the park window overlaps the next processor's start. */
module InboxLimits {
  import opened Wrappers
  import opened Bits
  import opened RingMachine
  import opened RingTheorems
  import opened InboxMachine

  ghost predicate Reachable(a: Inbox, size: int64) {
    exists run, labels :: InboxRun(run, labels, size) && run[|labels|] == a
  }

  lemma Begin(a: Inbox, size: int64)
    requires InboxInit(a, size)
    ensures Reachable(a, size)
  {
    var labels: seq<Label> := [];
    assert InboxRun([a], labels, size) && [a][|labels|] == a;
  }

  lemma Extend(a: Inbox, a': Inbox, l: Label, size: int64)
    requires Reachable(a, size) && Step(a, a', l)
    ensures Reachable(a', size)
  {
    var run, labels :| InboxRun(run, labels, size) && run[|labels|] == a;
    var run', labels' := run + [a'], labels + [l];
    forall i {:trigger labels'[i]} | 0 <= i < |labels'| ensures Step(run'[i], run'[i + 1], labels'[i]) {
      if i < |labels| { assert labels'[i] == labels[i]; }
    }
    assert InboxRun(run', labels', size) && run'[|labels'|] == a';
  }

  // ---------------------------------------------------------------- one Send with room in the array

  /** One step of the only pending Push. */
  lemma Push(a: Inbox, size: int64, id: nat, p: Producer, s: Shared, q: Producer) returns (a': Inbox)
    requires Reachable(a, size) && a.ring.prods == map[id := p] && PStep(a.ring.sh, p, s, q)
    ensures Reachable(a', size) && a' == a.(ring := a.ring.(sh := s, prods := map[id := q]))
  {
    a' := a.(ring := a.ring.(sh := s, prods := a.ring.prods[id := q]));
    assert Advance(a.ring, a'.ring, id);
    Extend(a, a', LPush(id), size);
  }

  /** Memory in which the next Push needs no growth. */
  predicate Roomy(m: Mem) {
    m.content < |m.bufs| && Cap(m) > 0 && m.head <= m.tail < m.head + Cap(m)
  }

  /** Shared memory after a Push without growth. */
  function Pushed(s: Shared, x: Item): Shared
    requires Roomy(s.m)
  {
    var m := SetSlot(s.m, s.m.content, Slot(s.m.tail, Cap(s.m)), x);
    s.(m := m.(tail := m.tail + 1, pushed := m.pushed + [x], peak := Max(m.peak, m.tail + 1 - m.head)),
       length := s.length + 1)
  }

  lemma SendReturns(a: Inbox, size: int64, id: nat, x: Item) returns (a': Inbox)
    requires Reachable(a, size) && a.ring.holder.None? && a.ring.prods == map[] && id !in a.scheds && Roomy(a.ring.sh.m)
    ensures Reachable(a', size)
    ensures a' == a.(ring := Ring(Pushed(a.ring.sh, x), None, map[]), scheds := a.scheds + {id})
  {
    var s, m := a.ring.sh, a.ring.sh.m;
    var b, t := m.content, m.tail;
    var a1 := a.(ring := a.ring.(prods := map[id := PLock(x)]));
    assert a.ring.prods[id := PLock(x)] == map[id := PLock(x)];
    Extend(a, a1, LSend(id, x), size);
    var a2 := a1.(ring := Ring(s, Some(id), map[id := PBuf(x)]));
    assert a1.ring.prods[id := PBuf(x)] == map[id := PBuf(x)];
    Extend(a1, a2, LPush(id), size);
    var a3 := Push(a2, size, id, PBuf(x), s, PTail(x, b));
    var a4 := Push(a3, size, id, PTail(x, b), s, PHead(x, b, t));
    var a5 := Push(a4, size, id, PHead(x, b, t), s, PWrite(x, b, t));
    a' := SendStores(a5, size, id, x, b, t);
  }

  lemma SendStores(a: Inbox, size: int64, id: nat, x: Item, b: nat, t: nat) returns (a': Inbox)
    requires Reachable(a, size) && a.ring.prods == map[id := PWrite(x, b, t)] && Roomy(a.ring.sh.m)
    requires b == a.ring.sh.m.content && t == a.ring.sh.m.tail
    ensures Reachable(a', size)
    ensures a' == a.(ring := Ring(Pushed(a.ring.sh, x), None, map[]), scheds := a.scheds + {id})
  {
    var s := a.ring.sh;
    var s1 := s.(m := SetSlot(s.m, b, Slot(t, Cap(s.m)), x));
    var a1 := Push(a, size, id, PWrite(x, b, t), s1, PStore(x, b, t));
    var m := s1.m;
    var s2 := s1.(m := m.(tail := t + 1, pushed := m.pushed + [x], peak := Max(m.peak, t + 1 - m.head)));
    var a2 := Push(a1, size, id, PStore(x, b, t), s2, PAdd);
    var a3 := Push(a2, size, id, PAdd, s2.(length := s2.length + 1), PUnlock);
    a' := SendUnlocks(a3, size, id);
    assert s2.(length := s2.length + 1) == Pushed(s, x);
  }

  lemma SendUnlocks(a: Inbox, size: int64, id: nat) returns (a': Inbox)
    requires Reachable(a, size) && a.ring.prods == map[id := PUnlock]
    ensures Reachable(a', size)
    ensures a' == a.(ring := Ring(a.ring.sh, None, map[]), scheds := a.scheds + {id})
  {
    a' := a.(ring := a.ring.(holder := None, prods := a.ring.prods - {id}), scheds := a.scheds + {id});
    assert a.ring.prods - {id} == map[];
    Extend(a, a', LPush(id), size);
  }

  // ---------------------------------------------------------------- the first processor takes the only item

  lemma Pop(a: Inbox, size: int64, c: Consumer, s: Shared, c': Consumer) returns (a': Inbox)
    requires Reachable(a, size) && a.procs == map[0 := Popping(c)] && CStep(a.ring.sh, c, s, c')
    ensures Reachable(a', size) && a' == a.(ring := a.ring.(sh := s), procs := map[0 := Popping(c')])
  {
    a' := a.(ring := a.ring.(sh := s), procs := a.procs[0 := Popping(c')]);
    Extend(a, a', LPop(0, c'), size);
  }

  lemma Proc(a: Inbox, size: int64, a': Inbox)
    requires Reachable(a, size) && ProcStep(a, a', 0)
    ensures Reachable(a', size)
  {
    Extend(a, a', LProc(0), size);
  }

  /** One item at the front of the array, and nobody at the handshake. */
  predicate OneItem(s: Shared) {
    && s.m.content < |s.m.bufs| && Cap(s.m) >= 2 && s.m.head == 0 && s.m.tail == 1
    && s.length == 1 && !s.growing && !s.popping
  }

  predicate Drained(s: Shared) {
    && s.m.content < |s.m.bufs| && Cap(s.m) >= 2 && s.m.head == 1 == s.m.tail
    && s.length == 0 && !s.growing && !s.popping
  }

  lemma TakesOne(a: Inbox, size: int64) returns (a': Inbox)
    requires Reachable(a, size) && a.procs == map[0 := Top] && a.status == Running && a.throughput > 0
    requires OneItem(a.ring.sh)
    ensures Reachable(a', size) && Drained(a'.ring.sh)
    ensures a'.ring == a.ring.(sh := a'.ring.sh) && a'.procs == map[0 := Top]
    ensures a'.status == Running && a'.scheds == a.scheds && a'.throughput == a.throughput
  {
    var s := a.ring.sh;
    var b := s.m.content;
    var a1 := a.(procs := map[0 := Popping(AtLength(a.throughput))]);
    assert a.procs[0 := Popping(AtLength(a.throughput))] == a1.procs;
    Proc(a, size, a1);
    var a2 := Pop(a1, size, AtLength(a.throughput), s, Raise(1));
    var up := s.(popping := true);
    var a3 := Pop(a2, size, Raise(1), up, Check(1));
    var a4 := Pop(a3, size, Check(1), up, LoadBuf(1));
    var a5 := Pop(a4, size, LoadBuf(1), up, LoadHead(1, b));
    var a6 := Pop(a5, size, LoadHead(1, b), up, Move(1, b, 0, false, [], 0));
    var a7, got := MovesOne(a6, size, b);
    a' := Finishes(a7, size, got);
  }

  lemma MovesOne(a: Inbox, size: int64, b: nat) returns (a': Inbox, got: seq<Item>)
    requires Reachable(a, size) && a.procs == map[0 := Popping(Move(1, b, 0, false, [], 0))]
    requires b == a.ring.sh.m.content && OneItem(a.ring.sh.(popping := false))
    ensures Reachable(a', size) && OneItem(a'.ring.sh.(popping := false)) && |got| == 1
    ensures a' == a.(ring := a.ring.(sh := a'.ring.sh), procs := map[0 := Popping(Sub(1, 0, got))])
  {
    var s := a.ring.sh;
    var cap := Cap(s.m);
    assert Slot(0, cap) == 0 && First(0, 1, cap) == 1 && BatchIndex(0, 1, cap, 0) == 0;
    got := [s.m.bufs[b][0]];
    var a1 := Pop(a, size, Move(1, b, 0, false, [], 0), s, Move(1, b, 0, false, got, 0));
    var s1 := s.(m := SetSlot(s.m, b, 0, s.m.zero));
    var a2 := Pop(a1, size, Move(1, b, 0, false, got, 0), s1, Move(1, b, 0, false, got, 1));
    assert |s1.m.bufs[b]| == cap;
    a' := Pop(a2, size, Move(1, b, 0, false, got, 1), s1, Sub(1, 0, got));
  }

  /** The rest of PopN, Invoke, and back to the top of the loop. */
  lemma Finishes(a: Inbox, size: int64, got: seq<Item>) returns (a': Inbox)
    requires Reachable(a, size) && a.procs == map[0 := Popping(Sub(1, 0, got))] && |got| == 1 && a.status == Running
    requires OneItem(a.ring.sh.(popping := false))
    ensures Reachable(a', size) && Drained(a'.ring.sh)
    ensures a'.ring == a.ring.(sh := a'.ring.sh) && a'.procs == map[0 := Top]
    ensures a'.status == Running && a'.scheds == a.scheds && a'.throughput == a.throughput
  {
    var s := a.ring.sh;
    var s1 := s.(length := s.length - 1);
    var a1 := Pop(a, size, Sub(1, 0, got), s1, StoreHead(1, 0, got));
    var s2 := s1.(m := s1.m.(head := 1, popped := s1.m.popped + got));
    var a2 := Pop(a1, size, StoreHead(1, 0, got), s2, Leave(got));
    var a3 := Pop(a2, size, Leave(got), s2.(popping := false), RingMachine.Returned(got));
    var a4 := a3.(procs := a3.procs[0 := Invoking], delivered := a3.delivered + [got], afterStop := a3.afterStop + 0);
    Proc(a3, size, a4);
    a' := a4.(procs := a4.procs[0 := Top]);
    Proc(a4, size, a');
    assert a'.procs == map[0 := Top];
  }

  /** An empty buffer: the processor parks, and is about to look again. */
  lemma Parks(a: Inbox, size: int64) returns (a': Inbox)
    requires Reachable(a, size) && a.procs == map[0 := Top] && a.status == Running && a.ring.sh.length == 0
    ensures Reachable(a', size) && a' == a.(status := Idle, procs := map[0 := Rechecking])
  {
    var a1 := a.(procs := map[0 := Popping(AtLength(a.throughput))]);
    assert a.procs[0 := Popping(AtLength(a.throughput))] == a1.procs;
    Proc(a, size, a1);
    var a2 := Pop(a1, size, AtLength(a.throughput), a.ring.sh, RingMachine.Returned([]));
    var a3 := a2.(procs := a2.procs[0 := Parking]);
    Proc(a2, size, a3);
    a' := a3.(status := Idle, procs := a3.procs[0 := Rechecking]);
    Proc(a3, size, a');
    assert a'.procs == map[0 := Rechecking];
  }

  lemma Schedules(a: Inbox, size: int64, id: nat, q: nat) returns (a': Inbox)
    requires Reachable(a, size) && a.scheds == {id} && a.status == Idle && q !in a.procs
    ensures Reachable(a', size) && a' == a.(scheds := {}, status := Running, procs := a.procs[q := Top])
  {
    a' := a.(scheds := a.scheds - {id}, status := Running, procs := a.procs[q := Top]);
    assert a.scheds - {id} == {};
    Extend(a, a', LSchedule(id, q), size);
  }

  /**
   Two processor goroutines alive at once, for every size, throughput and pair of messages: the first has parked and
   is about to look at the buffer again, and a second Send has already started the next one.
   */
  lemma TwoAlive(size: int64, throughput: nat, x: Item, y: Item)
    requires throughput > 0
    ensures exists a :: Reachable(a, size) && a.procs == map[0 := Rechecking, 1 := Top] && a.throughput == throughput
  {
    var cap := RoundUpPow2(size);
    var m := Mem([seq(cap, _ => x)], 0, 0, 0, x, [], [], cap, 0, 0);
    var a0 := Inbox(Ring(Shared(m, 0, false, false), None, map[]), {}, map[], Idle, throughput, [], 0);
    Begin(a0, size);
    var a1 := SendReturns(a0, size, 0, x);
    assert OneItem(a1.ring.sh);
    assert a1.scheds == {0};
    var a2 := Schedules(a1, size, 0, 0);
    assert a2.procs == map[0 := Top];
    var a3 := TakesOne(a2, size);
    var a4 := Parks(a3, size);
    var a5 := SendReturns(a4, size, 0, y);
    assert a5.scheds == {0};
    var a6 := Schedules(a5, size, 0, 1);
    assert a6.procs == map[0 := Rechecking, 1 := Top];
  }
}
