/**
 The inbox makes progress: while a sender or a processor is left some step is enabled, steps other than new Sends run
 out, and an inbox that is not stopped ends with everything delivered.
 */
module InboxProgress {
  import opened Wrappers
  import opened Sums
  import opened Bits
  import opened RingMachine
  import opened RingTheorems
  import opened InboxMachine

  /** Steps with no new Send and no Stop. */
  predicate Internal(l: Label) { !l.LSend? && !l.LStop? }

  /** A step that is not another turn of a spin loop. */
  ghost predicate Proceeds(a: Inbox, a': Inbox) {
    a' != a && exists l :: Internal(l) && Step(a, a', l)
  }

  ghost predicate CanProceed(a: Inbox) { exists a' :: Proceeds(a, a') }

  predicate Alive(a: Inbox) { SenderPending(a) || a.procs != map[] }

  /** A processor inside PopN is somewhere in it. */
  ghost predicate Busy(a: Inbox) {
    forall q :: q in a.procs && a.procs[q].Popping? ==> !a.procs[q].c.Away?
  }

  lemma BusyKeeps(a: Inbox, a': Inbox, l: Label)
    requires Busy(a) && Step(a, a', l)
    ensures Busy(a')
  {
  }

  lemma {:induction false} BusyOfRun(run: seq<Inbox>, labels: seq<Label>, size: int64, i: nat)
    requires InboxRun(run, labels, size) && i < |run|
    ensures Busy(run[i])
  {
    if i > 0 {
      BusyOfRun(run, labels, size, i - 1);
      var l := labels[i - 1];
      BusyKeeps(run[i - 1], run[i], l);
    }
  }

  // ---------------------------------------------------------------- somebody can always step

  lemma Takes(a: Inbox, a': Inbox, l: Label)
    requires Internal(l) && Step(a, a', l) && a' != a
    ensures CanProceed(a)
  {
    assert Proceeds(a, a');
  }

  lemma ConsumerCanStep(s: Shared, p: Producer, c: Consumer) returns (s': Shared, c': Consumer)
    requires Core(s, p, c) && !c.Away? && !c.Returned? && !(c.Spin? && s.growing)
    ensures CStep(s, c, s', c') && c' != c
  {
    if c.Move? {
      MoveStepExists(s, p, c);
      s', c' :| CStep(s, c, s', c');
    } else {
      s', c' := StraightOn(s, c);
    }
  }

  lemma StraightOn(s: Shared, c: Consumer) returns (s': Shared, c': Consumer)
    requires !c.Away? && !c.Returned? && !c.Move? && !(c.Spin? && s.growing) && s.length >= 0
    ensures CStep(s, c, s', c') && c' != c
  {
    s' := s;
    match c
    case AtLength(want) => c' := if s.length == 0 then RingMachine.Returned([]) else Raise(Min(want, s.length));
    case Raise(n) => s', c' := s.(popping := true), Check(n);
    case Check(n) => c' := if s.growing then Lower(n) else LoadBuf(n);
    case Lower(n) => s', c' := s.(popping := false), Spin(n);
    case Spin(n) => c' := Raise(n);
    case LoadBuf(n) => c' := LoadHead(n, s.m.content);
    case LoadHead(n, b) => c' := Move(n, b, s.m.head, false, [], 0);
    case Sub(n, h, got) => s', c' := s.(length := s.length - n), StoreHead(n, h, got);
    case StoreHead(n, h, got) => s', c' := s.(m := s.m.(head := h + n, popped := s.m.popped + got)), Leave(got);
    case Leave(got) => s', c' := s.(popping := false), RingMachine.Returned(got);
  }

  /** The processor inside PopN steps, unless it waits for a growth. */
  lemma PopperCanStep(a: Inbox, q: nat)
    requires InboxInv(a) && Busy(a) && q in a.procs && a.procs[q].Popping? && !a.procs[q].c.Returned?
    requires !(a.procs[q].c.Spin? && a.ring.sh.growing)
    ensures CanProceed(a)
  {
    var c := a.procs[q].c;
    ConsumerIs(a.procs, a.status, q);
    var s', c' := ConsumerCanStep(a.ring.sh, Active(a.ring), c);
    var a' := a.(ring := a.ring.(sh := s'), procs := a.procs[q := Popping(c')]);
    assert a'.procs[q] != a.procs[q];
    Takes(a, a', LPop(q, c'));
  }

  lemma ProcCanStep(a: Inbox, q: nat)
    requires q in a.procs && !(a.procs[q].Popping? && !a.procs[q].c.Returned?)
    ensures CanProceed(a)
  {
    var p := a.procs[q];
    var a' := match p
      case Top =>
        a.(procs := a.procs[q := if a.status == Stopped then Parking else Popping(AtLength(a.throughput))])
      case Popping(c) =>
        if c.got == [] then a.(procs := a.procs[q := Parking])
        else a.(procs := a.procs[q := Invoking], delivered := a.delivered + [c.got],
                afterStop := a.afterStop + if a.status == Stopped then 1 else 0)
      case Invoking => a.(procs := a.procs[q := Top])
      case Parking =>
        if a.status == Running then a.(status := Idle, procs := a.procs[q := Rechecking])
        else a.(procs := a.procs - {q})
      case Rechecking =>
        if a.ring.sh.length == 0 then a.(procs := a.procs - {q}) else a.(procs := a.procs[q := Reclaiming])
      case Reclaiming =>
        if a.status == Idle then a.(status := Running, procs := a.procs[q := Top]) else a.(procs := a.procs - {q});
    assert q in a'.procs ==> a'.procs[q] != p;
    Takes(a, a', LProc(q));
  }

  lemma ProducerOn(s: Shared, p: Producer, c: Consumer) returns (s': Shared, p': Producer)
    requires Core(s, p, c) && !p.PLock? && !p.PUnlock? && !(p.PWait? && s.popping)
    ensures PStep(s, p, s', p') && p' != p
  {
    var m := s.m;
    s' := s;
    match p
    case PBuf(x) => p' := PTail(x, m.content);
    case PTail(x, b) => p' := PHead(x, b, m.tail);
    case PHead(x, b, t) => p' := if t - m.head > |m.bufs[b]| - 1 then PRaise(x, b, t) else PWrite(x, b, t);
    case PRaise(x, b, t) => s', p' := s.(growing := true), PWait(x, b, t);
    case PWait(x, b, t) => p' := PRoom(x, b, t);
    case PRoom(x, b, t) =>
      if t - m.head <= Cap(m) - 1 {
        p' := PLower(x, b, t);
      } else {
        s' := s.(m := m.(bufs := m.bufs + [seq(2 * Cap(m), _ => m.zero)]));
        p' := PCopy(x, b, t, |m.bufs|, m.head, m.head);
      }
    case PCopy(x, b, t, nb, h, i) =>
      if i < t {
        var y := m.bufs[b][Slot(i, |m.bufs[b]|)];
        s' := s.(m := SetSlot(m, nb, Slot(i, |m.bufs[nb]|), y).(copied := m.copied + 1));
        p' := PCopy(x, b, t, nb, h, i + 1);
      } else {
        s', p' := s.(m := m.(content := nb)), PLower(x, nb, t);
      }
    case PLower(x, b, t) => s', p' := s.(growing := false), PWrite(x, b, t);
    case PWrite(x, b, t) => s', p' := s.(m := SetSlot(m, b, Slot(t, |m.bufs[b]|), x)), PStore(x, b, t);
    case PStore(x, b, t) =>
      s' := s.(m := m.(tail := t + 1, pushed := m.pushed + [x], peak := Max(m.peak, t + 1 - m.head)));
      p' := PAdd;
    case PAdd => s', p' := s.(length := s.length + 1), PUnlock;
  }

  /** The mutex holder steps, or it waits for the processor inside PopN, which steps. */
  lemma HolderCanStep(a: Inbox, p: nat)
    requires InboxInv(a) && Busy(a) && a.ring.holder == Some(p)
    ensures CanProceed(a)
  {
    var x, c := a.ring.prods[p], ConsumerOf(a.procs);
    assert Active(a.ring) == x;
    if x.PUnlock? {
      var a' := a.(ring := a.ring.(holder := None, prods := a.ring.prods - {p}), scheds := a.scheds + {p});
      Takes(a, a', LPush(p));
    } else if x.PWait? && a.ring.sh.popping {
      var q :| q in a.procs && a.procs[q].Popping?;
      ConsumerIs(a.procs, a.status, q);
      PopperCanStep(a, q);
    } else {
      var s', y := ProducerOn(a.ring.sh, x, c);
      var a' := a.(ring := a.ring.(sh := s', prods := a.ring.prods[p := y]));
      assert Advance(a.ring, a'.ring, p) && a'.ring.prods[p] != x;
      Takes(a, a', LPush(p));
    }
  }

  lemma {:induction false} FreshNat(used: set<nat>) returns (n: nat)
    ensures forall u :: u in used ==> u < n
  {
    n := 0;
    if used != {} {
      var u: nat :| u in used;
      n := FreshNat(used - {u});
      if n <= u { n := u + 1; }
      assert forall v :: v in used ==> v == u || v in used - {u};
    }
  }

  lemma SenderCanStep(a: Inbox)
    requires InboxInv(a) && Busy(a) && SenderPending(a)
    ensures CanProceed(a)
  {
    if a.ring.holder.Some? {
      HolderCanStep(a, a.ring.holder.value);
    } else if p :| p in a.ring.prods {
      var a' := a.(ring := a.ring.(holder := Some(p), prods := a.ring.prods[p := PBuf(a.ring.prods[p].x)]));
      Takes(a, a', LPush(p));
    } else {
      var id :| id in a.scheds;
      var q := FreshNat(a.procs.Keys);
      var a' := if a.status == Idle then a.(scheds := a.scheds - {id}, status := Running, procs := a.procs[q := Top])
                else a.(scheds := a.scheds - {id});
      assert id !in a'.scheds;
      Takes(a, a', LSchedule(id, q));
    }
  }

  lemma AliveCanStep(a: Inbox)
    requires InboxInv(a) && Busy(a) && Alive(a)
    ensures CanProceed(a)
  {
    if SenderPending(a) {
      SenderCanStep(a);
    } else {
      var q :| q in a.procs;
      assert Active(a.ring) == PUnlock;
      if a.procs[q].Popping? && !a.procs[q].c.Returned? { PopperCanStep(a, q); } else { ProcCanStep(a, q); }
    }
  }

  /**
   Never stuck, in any interleaving, mid-growth and mid-park included: while a sender or processor is left somebody can
   step, other than by spinning; and an inbox that is not stopped with a message not yet delivered has one left.
   */
  lemma InboxNeverStuck(run: seq<Inbox>, labels: seq<Label>, size: int64, i: nat)
    requires InboxRun(run, labels, size) && i < |run|
    ensures Alive(run[i]) ==> CanProceed(run[i])
    ensures run[i].status != Stopped && Flatten(run[i].delivered) != run[i].ring.sh.m.pushed ==> CanProceed(run[i])
  {
    InboxSafety(run, labels, size, i);
    BusyOfRun(run, labels, size, i);
    if Alive(run[i]) {
      AliveCanStep(run[i]);
    } else if run[i].status != Stopped {
      NothingStranded(run, labels, size, i);
    }
  }

  // ---------------------------------------------------------------- the rank

  /** How far a Push has still to go, the copying of a growth aside. */
  function PushRank(p: Producer): nat {
    match p
    case PLock(_) => 14
    case PBuf(_) => 13
    case PTail(_, _) => 12
    case PHead(_, _, _) => 11
    case PRaise(_, _, _) => 10
    case PWait(_, _, _) => 9
    case PRoom(_, _, _) => 8
    case PCopy(_, _, _, _, _, _) => 7
    case PLower(_, _, _) => 6
    case PWrite(_, _, _) => 5
    case PStore(_, _, _) => 4
    case PAdd => 3
    case PUnlock => 2
  }

  /** How far PopN has still to go, up to the subtraction that makes the queue shorter. */
  function PopRank(c: Consumer, growing: bool): nat {
    match c
    case Lower(n) => 2 * n + 14
    case Spin(n) => 2 * n + 12
    case Raise(n) => 2 * n + if growing then 16 else 11
    case Check(n) => 2 * n + if growing then 15 else 10
    case LoadBuf(n) => 2 * n + 8
    case LoadHead(n, _) => 2 * n + 7
    case Move(n, _, _, wrapped, got, cleared) =>
      Max(0, n - |got|) + Max(0, n - cleared) + (if wrapped then 0 else 1) + 3
    case _ => 2
  }

  /** How far a processor has still to go before it takes an item or exits, with `len` messages counted. */
  function ProcRank(p: Proc, len: nat, growing: bool, stopped: bool): nat {
    match p
    case Reclaiming => 2 * len + 34
    case Top => 2 * len + 33
    case Rechecking => 2 * len + if len > 0 then 35 else 29
    case Parking => 2 * len + if len > 0 && !stopped then 36 else 30
    case Invoking => 2 * len + 37
    case Popping(c) =>
      match c
      case StoreHead(_, _, _) => 2 * len + 40
      case Leave(_) => 2 * len + 39
      case Returned(got) => 2 * len + if got != [] || (len > 0 && !stopped) then 38 else 31
      case AtLength(_) => 2 * len + 32
      case _ => PopRank(c, growing)
  }

  ghost function PushRanks(prods: map<nat, Producer>): map<nat, nat> { map p | p in prods :: PushRank(prods[p]) }

  ghost function ProcRanks(procs: map<nat, Proc>, len: nat, growing: bool, stopped: bool): map<nat, nat> {
    map q | q in procs :: ProcRank(procs[q], len, growing, stopped)
  }

  function Length(a: Inbox): nat { Max(0, a.ring.sh.length) }

  /** The four parts of the rank, the first counting most. */
  ghost function Senders(a: Inbox): nat { Sum(PushRanks(a.ring.prods)) + |a.scheds| }

  function CopyLeft(a: Inbox): nat {
    var p := Active(a.ring);
    if p.PCopy? then Max(0, p.t - p.i) else 0
  }

  ghost function Processors(a: Inbox): nat {
    Sum(ProcRanks(a.procs, Length(a), a.ring.sh.growing, a.status == Stopped))
  }

  ghost predicate Lower4(a': Inbox, a: Inbox) {
    || Senders(a') < Senders(a)
    || (Senders(a') == Senders(a) &&
        (|| CopyLeft(a') < CopyLeft(a)
         || (CopyLeft(a') == CopyLeft(a) &&
             (Length(a') < Length(a) || (Length(a') == Length(a) && Processors(a') < Processors(a))))))
  }

  // ---------------------------------------------------------------- every step lowers it

  lemma PushPut(a: Inbox, a': Inbox, p: nat)
    requires p in a.ring.prods && p in a'.ring.prods && a'.ring.prods == a.ring.prods[p := a'.ring.prods[p]]
    requires a'.scheds == a.scheds
    ensures Senders(a') == Senders(a) - PushRank(a.ring.prods[p]) + PushRank(a'.ring.prods[p])
  {
    SumPut(PushRanks(a.ring.prods), p, PushRank(a'.ring.prods[p]));
    assert PushRanks(a'.ring.prods) == PushRanks(a.ring.prods)[p := PushRank(a'.ring.prods[p])];
  }

  lemma PStepRank(s: Shared, p: Producer, s': Shared, p': Producer)
    requires PStep(s, p, s', p') && !(s' == s && p' == p)
    ensures PushRank(p') < PushRank(p) || (p.PCopy? && p'.PCopy? && p.i < p.t && p'.t == p.t && p'.i == p.i + 1)
  {
  }

  lemma AdvanceLowers(a: Inbox, a': Inbox, p: nat)
    requires Mutex(a.ring) && Advance(a.ring, a'.ring, p) && a' == a.(ring := a'.ring) && a' != a
    ensures Lower4(a', a)
  {
    var q :| PStep(a.ring.sh, a.ring.prods[p], a'.ring.sh, q)
          && a'.ring == a.ring.(sh := a'.ring.sh, prods := a.ring.prods[p := q]);
    assert q == a.ring.prods[p] ==> a'.ring.prods == a.ring.prods;
    PStepRank(a.ring.sh, a.ring.prods[p], a'.ring.sh, q);
    PushPut(a, a', p);
    assert Active(a.ring) == a.ring.prods[p] && Active(a'.ring) == q;
  }

  lemma EndLowers(a: Inbox, a': Inbox, p: nat)
    requires EndPush(a.ring, a'.ring, p) && a' == a.(ring := a'.ring, scheds := a.scheds + {p})
    ensures Lower4(a', a)
  {
    SumAt(PushRanks(a.ring.prods), p);
    assert PushRanks(a'.ring.prods) == PushRanks(a.ring.prods) - {p};
  }

  lemma SendLowers(a: Inbox, a': Inbox, id: nat)
    requires Mutex(a.ring) && SendStep(a, a', id) && a' != a
    ensures Lower4(a', a)
  {
    if EndPush(a.ring, a'.ring, id) && a' == a.(ring := a'.ring, scheds := a.scheds + {id}) {
      EndLowers(a, a', id);
    } else if Acquire(a.ring, a'.ring, id) {
      PushPut(a, a', id);
    } else {
      AdvanceLowers(a, a', id);
    }
  }

  lemma ScheduleLowers(a: Inbox, a': Inbox, id: nat, q: nat)
    requires Schedule(a, a', id, q)
    ensures Lower4(a', a)
  {
    assert a.scheds == a'.scheds + {id};
  }

  /** A step that leaves senders, the ring and the stop alone and moves one processor down. */
  lemma ProcPut(a: Inbox, a': Inbox, q: nat)
    requires q in a.procs && q in a'.procs && a'.procs == a.procs[q := a'.procs[q]]
    requires Length(a') == Length(a) && a'.ring.sh.growing == a.ring.sh.growing
    requires (a'.status == Stopped) == (a.status == Stopped)
    requires var len, g, stopped := Length(a), a.ring.sh.growing, a.status == Stopped;
             ProcRank(a'.procs[q], len, g, stopped) < ProcRank(a.procs[q], len, g, stopped)
    ensures Processors(a') < Processors(a)
  {
    var len, g, stopped := Length(a), a.ring.sh.growing, a.status == Stopped;
    var m, v := ProcRanks(a.procs, len, g, stopped), ProcRank(a'.procs[q], len, g, stopped);
    SumPut(m, q, v);
    assert ProcRanks(a'.procs, len, g, stopped) == m[q := v];
  }

  lemma ProcExit(a: Inbox, a': Inbox, q: nat)
    requires q in a.procs && a' == a.(procs := a.procs - {q})
    ensures Processors(a') < Processors(a)
  {
    var len, g, stopped := Length(a), a.ring.sh.growing, a.status == Stopped;
    var m := ProcRanks(a.procs, len, g, stopped);
    SumDrop(m, q);
    assert ProcRanks(a'.procs, len, g, stopped) == m - {q};
  }

  lemma ProcLowers(a: Inbox, a': Inbox, q: nat)
    requires ProcStep(a, a', q) && a.ring.sh.length >= 0
    ensures Lower4(a', a)
  {
    if q in a'.procs { ProcPut(a, a', q); } else { ProcExit(a, a', q); }
  }

  lemma MoveRank(m: Mem, c: Consumer, m': Mem, c': Consumer, growing: bool)
    requires c.Move? && MoveStep(m, c, m', c')
    ensures (c'.Move? || c'.Sub?) && PopRank(c', growing) < PopRank(c, growing)
  {
  }

  lemma CStepRank(s: Shared, c: Consumer, s': Shared, c': Consumer, stopped: bool)
    requires CStep(s, c, s', c') && !c.Sub? && !(c.Spin? && s.growing)
    ensures s'.length == s.length && s'.growing == s.growing
    ensures var len := Max(0, s.length);
            ProcRank(Popping(c'), len, s.growing, stopped) < ProcRank(Popping(c), len, s.growing, stopped)
  {
    if c.Move? { MoveRank(s.m, c, s'.m, c', s.growing); }
  }

  lemma PopLowers(a: Inbox, a': Inbox, q: nat, c': Consumer)
    requires InboxInv(a) && PopStep(a, a', q, c') && a' != a
    ensures Lower4(a', a)
  {
    var s, c := a.ring.sh, a.procs[q].c;
    assert Active(a'.ring) == Active(a.ring);
    ConsumerIs(a.procs, a.status, q);
    if c.Sub? {
      assert 1 <= c.n <= s.length;
    } else {
      assert c' == c ==> a'.procs == a.procs;
      CStepRank(s, c, a'.ring.sh, c', a.status == Stopped);
      ProcPut(a, a', q);
    }
  }

  /** Every step that is neither a new Send, a Stop nor a turn of a spin loop lowers the rank. */
  lemma InboxLowers(a: Inbox, a': Inbox, l: Label)
    requires InboxInv(a) && Step(a, a', l) && Internal(l) && a' != a
    ensures Lower4(a', a)
  {
    match l
    case LPush(id) => SendLowers(a, a', id);
    case LSchedule(id, q) => ScheduleLowers(a, a', id, q);
    case LProc(q) => ProcLowers(a, a', q);
    case LPop(q, c) => PopLowers(a, a', q, c);
  }

  // ---------------------------------------------------------------- everything gets delivered

  lemma OneMore(run: seq<Inbox>, labels: seq<Label>, size: int64, a: Inbox, l: Label)
    requires InboxRun(run, labels, size) && Step(run[|labels|], a, l)
    ensures InboxRun(run + [a], labels + [l], size)
  {
    var run', labels' := run + [a], labels + [l];
    forall i {:trigger labels'[i]} | 0 <= i < |labels'| ensures Step(run'[i], run'[i + 1], labels'[i]) {
      if i < |labels| { assert labels'[i] == labels[i]; }
    }
  }

  /**
   From every reachable inbox the Sends under way finish and the inbox comes to rest, by internal steps alone; if it is
   not stopped, everything ever pushed has then been handed to Invoke. As every such step lowers the rank, every run of
   them that goes on as long as it can ends there.
   */
  lemma {:induction false} EverythingDelivered(run: seq<Inbox>, labels: seq<Label>, size: int64)
    returns (run': seq<Inbox>, labels': seq<Label>)
    requires InboxRun(run, labels, size)
    ensures InboxRun(run', labels', size) && run <= run' && labels <= labels'
    ensures forall j :: |labels| <= j < |labels'| ==> Internal(labels'[j])
    ensures var a := run'[|labels'|];
            !Alive(a) && (a.status != Stopped ==> Flatten(a.delivered) == a.ring.sh.m.pushed && a.ring.sh.length == 0)
    decreases Senders(run[|labels|]), CopyLeft(run[|labels|]), Length(run[|labels|]), Processors(run[|labels|])
  {
    var a := run[|labels|];
    InboxNeverStuck(run, labels, size, |labels|);
    if Alive(a) {
      var a' :| Proceeds(a, a');
      var l :| Internal(l) && Step(a, a', l);
      InboxSafety(run, labels, size, |labels|);
      InboxLowers(a, a', l);
      OneMore(run, labels, size, a', l);
      run', labels' := EverythingDelivered(run + [a'], labels + [l], size);
      assert labels'[|labels|] == l;
    } else {
      run', labels' := run, labels;
      if a.status != Stopped { NothingStranded(run, labels, size, |labels|); }
    }
  }
}
