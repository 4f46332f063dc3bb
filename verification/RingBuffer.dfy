/**
 The ring buffer of ringbuffer.go as an object over its backing array, used by one goroutine at a time:
 the loops and index arithmetic of Push, grow, Pop and PopN. RingMachine covers the interleavings.
 */
module RingBuffer {
  import opened Wrappers
  import opened Bits
  import opened RingMachine

  // ---------------------------------------------------------------- values

  /** What the methods read and write. */
  datatype Cells = Cells(items: seq<Item>, head: nat, tail: nat, length: int, zero: Item)

  predicate Sane(b: Cells) {
    |b.items| > 0 && b.length == b.tail - b.head && 0 <= b.length <= |b.items|
  }

  /** Pop (ringbuffer.go:114). The result is a batch of one, or empty for false. */
  function PopOne(b: Cells): (r: (seq<Item>, Cells))
    requires Sane(b)
    ensures Sane(r.1) && |r.1.items| == |b.items|
  {
    if b.length == 0 then ([], b)
    else
      var s := Slot(b.head, |b.items|);
      ([b.items[s]], b.(items := b.items[s := b.zero], length := b.length - 1, head := b.head + 1))
  }

  function ClearRange(items: seq<Item>, lo: nat, hi: nat, zero: Item): (r: seq<Item>)
    ensures |r| == |items|
  {
    seq(|items|, i requires 0 <= i < |items| => if lo <= i < hi then zero else items[i])
  }

  /** The k items from cursor h on: a contiguous run, then the run that wrapped. */
  function Taken(items: seq<Item>, h: nat, k: nat): (r: seq<Item>)
    requires 0 < k <= |items|
  {
    var start := Slot(h, |items|);
    var first := First(h, k, |items|);
    items[start..start + first] + items[..k - first]
  }

  /** The array with those k slots cleared. */
  function Cleared(items: seq<Item>, h: nat, k: nat, zero: Item): (r: seq<Item>)
    requires 0 < k <= |items|
    ensures |r| == |items|
  {
    var start := Slot(h, |items|);
    var first := First(h, k, |items|);
    ClearRange(ClearRange(items, start, start + first, zero), 0, k - first, zero)
  }

  /** PopN (ringbuffer.go:144). */
  function PopMany(b: Cells, n: int): (r: (seq<Item>, Cells))
    requires Sane(b)
    ensures Sane(r.1) && |r.1.items| == |b.items|
  {
    if n <= 0 || b.length == 0 then ([], b)
    else
      var k := Min(n, b.length);
      (Taken(b.items, b.head, k),
       b.(items := Cleared(b.items, b.head, k, b.zero), length := b.length - k, head := b.head + k))
  }

  /** k Pops in a row. */
  function Pops(b: Cells, k: nat): (r: (seq<Item>, Cells))
    requires Sane(b)
    ensures Sane(r.1) && |r.1.items| == |b.items|
  {
    if k == 0 then ([], b)
    else
      var p := Pops(b, k - 1);
      var q := PopOne(p.1);
      (p.0 + q.0, q.1)
  }

  /** After k Pops: the batch so far and the two cleared runs, wherever the window wraps. */
  lemma {:induction false} PopsRuns(b: Cells, k: nat)
    requires Sane(b) && IsPow2(|b.items|) && 1 <= k <= b.length
    ensures Pops(b, k) == PopMany(b, k)
  {
    if k == 1 {
      FirstPop(b);
    } else {
      PopsRuns(b, k - 1);
      OneMorePop(b, k);
    }
  }

  lemma OneMorePop(b: Cells, k: nat)
    requires Sane(b) && IsPow2(|b.items|) && 2 <= k <= b.length
    ensures var p := PopMany(b, k - 1);
            var q := PopOne(p.1);
            PopMany(b, k) == (p.0 + q.0, q.1)
  {
    BatchGrows(b.items, b.head, k);
    ClearedGrows(b.items, b.head, k, b.zero);
    var c, s := PopMany(b, k - 1).1, Slot(b.head + k - 1, |b.items|);
    assert c.items == Cleared(b.items, b.head, k - 1, b.zero) && c.head == b.head + k - 1;
    assert PopOne(c).0 == [b.items[s]];
  }

  lemma FirstPop(b: Cells)
    requires Sane(b) && 1 <= b.length
    ensures Pops(b, 1) == PopMany(b, 1)
  {
    var start := Slot(b.head, |b.items|);
    assert Pops(b, 0) == ([], b);
    assert [] + PopOne(b).0 == PopOne(b).0;
    FirstRun(b.items, b.head, b.zero);
  }

  lemma FirstRun(items: seq<Item>, h: nat, zero: Item)
    requires |items| > 0
    ensures Taken(items, h, 1) == [items[Slot(h, |items|)]]
    ensures Cleared(items, h, 1, zero) == items[Slot(h, |items|) := zero]
  {
  }

  /** The k-th item of the batch is the one at the k-th cursor. */
  lemma BatchGrows(items: seq<Item>, h: nat, k: nat)
    requires IsPow2(|items|) && 2 <= k <= |items|
    ensures Taken(items, h, k) == Taken(items, h, k - 1) + [items[Slot(h + k - 1, |items|)]]
  {
    var cap, start := |items|, Slot(h, |items|);
    WrappedIndex(h, k - 1, cap);
    if k <= cap - start {
      assert items[start..start + k] == items[start..start + (k - 1)] + [items[start + (k - 1)]];
    } else {
      var rest := k - (cap - start);
      assert items[..rest] == items[..rest - 1] + [items[rest - 1]];
    }
  }

  /** The slot the k-th Pop reads has not been cleared by the k - 1 before it, and is cleared next. */
  lemma ClearedGrows(items: seq<Item>, h: nat, k: nat, zero: Item)
    requires IsPow2(|items|) && 2 <= k <= |items|
    ensures var s := Slot(h + k - 1, |items|);
            && Cleared(items, h, k - 1, zero)[s] == items[s]
            && Cleared(items, h, k, zero) == Cleared(items, h, k - 1, zero)[s := zero]
  {
    WrappedIndex(h, k - 1, |items|);
  }

  /** The cells hold the pushed items in the live window and zero values everywhere else. */
  ghost predicate Filled(b: Cells, pushed: seq<Item>) {
    && Sane(b) && IsPow2(|b.items|)
    && Holds(b.items, pushed, b.head, b.tail) && Blank(b.items, b.zero, b.tail, b.head + |b.items|)
  }

  lemma {:induction false} PopsFilled(b: Cells, pushed: seq<Item>, k: nat)
    requires Filled(b, pushed) && k <= b.length
    ensures var r := Pops(b, k);
            Filled(r.1, pushed) && r.0 == pushed[b.head..b.head + k] && r.1.head == b.head + k && r.1.tail == b.tail
  {
    if k > 0 {
      PopsFilled(b, pushed, k - 1);
      PopOneFilled(Pops(b, k - 1).1, pushed);
    }
  }

  lemma PopOneFilled(b: Cells, pushed: seq<Item>)
    requires Filled(b, pushed) && b.length > 0
    ensures var r := PopOne(b);
            Filled(r.1, pushed) && r.0 == [pushed[b.head]] && r.1.head == b.head + 1 && r.1.tail == b.tail
  {
    ClearOldest(b.items, pushed, b.zero, b.head, b.tail, b.tail);
    assert b.items[Slot(b.head, |b.items|)] == pushed[b.head];
  }

  /** PopN(n) is min(n, queued) Pops, in result, cursors, length and cleared slots, and nothing for n not positive. */
  lemma PopNIsPops(b: Cells, n: int)
    requires Sane(b) && IsPow2(|b.items|)
    ensures PopMany(b, n) == Pops(b, if n <= 0 then 0 else Min(n, b.length))
  {
    if n > 0 && b.length > 0 { PopsRuns(b, Min(n, b.length)); }
  }

  lemma PushFilled(b: Cells, pushed: seq<Item>, x: Item)
    requires Filled(b, pushed) && b.length < |b.items| && |pushed| == b.tail
    ensures var items' := b.items[Slot(b.tail, |b.items|) := x];
            Filled(b.(items := items', tail := b.tail + 1, length := b.length + 1), pushed + [x])
  {
    WriteHolds(b.items, pushed, b.head, b.tail, b.tail, x);
    WriteBlank(b.items, b.zero, b.tail + 1, b.head + |b.items|, b.tail, x);
    assert forall i :: 0 <= i < b.tail ==> (pushed + [x])[i] == pushed[i];
  }

  lemma PopManyFilled(b: Cells, pushed: seq<Item>, n: int)
    requires Filled(b, pushed) && n > 0 && b.length > 0
    ensures var k, r := Min(n, b.length), PopMany(b, n);
            && Filled(r.1, pushed) && |r.0| == k && r.1.head == b.head + k && r.1.tail == b.tail
            && pushed[b.head..b.tail] == r.0 + pushed[r.1.head..r.1.tail]
  {
    PopNIsPops(b, n);
    PopsFilled(b, pushed, Min(n, b.length));
  }

  // ---------------------------------------------------------------- the object

  class RingBuffer {
    var items: array<Item>
    var head: nat
    var tail: nat
    var length: int
    const zero: Item
    ghost var pushed: seq<Item>  // every item ever pushed

    ghost predicate Valid()
      reads this, items
    {
      items.Length >= 2 && |pushed| == tail && Filled(Cells(items[..], head, tail, length, zero), pushed)
    }

    ghost function Abs(): (b: Cells)
      reads this, items
      requires Valid()
      ensures Sane(b) && IsPow2(|b.items|)
    {
      Cells(items[..], head, tail, length, zero)
    }

    ghost function Contents(): seq<Item>
      reads this, items
      requires Valid()
    {
      pushed[head..tail]
    }

    /** New (ringbuffer.go:79). */
    constructor (size: int64, zero: Item)
      ensures Valid() && fresh(items) && Contents() == [] && items.Length == RoundUpPow2(size) && this.zero == zero
    {
      var n := RoundUpPow2(size);
      this.zero := zero;
      items := new Item[n](_ => zero);
      head, tail, length, pushed := 0, 0, 0, [];
      new;
      assert items[..] == seq(n, _ => zero);
    }

    /** grow (ringbuffer.go:199): nothing if there is room after all, else twice the array, live items in order. */
    method Grow()
      requires Valid()
      modifies this`items
      ensures Valid()
      ensures if tail - head == old(items.Length) then fresh(items) && items.Length == 2 * old(items.Length)
              else items == old(items)
    {
      var cap := items.Length;
      if tail - head <= cap - 1 { return; }
      Doubled(cap);
      var bigger := new Item[2 * cap](_ => zero);
      assert bigger[..] == seq(2 * cap, _ => zero);
      var source, i := items, head;
      ghost var cells := items[..];
      assert Holds(cells, pushed, head, tail);
      while i < tail
        invariant head <= i <= tail && source[..] == cells
        invariant Holds(bigger[..], pushed, head, i)
        invariant Blank(bigger[..], zero, i, head + 2 * cap)
      {
        ghost var was := bigger[..];
        var x := source[Slot(i, cap)];
        assert x == cells[Slot(i, cap)] == pushed[i];
        WriteHolds(was, pushed, head, i, i, x);
        WriteBlank(was, zero, i + 1, head + 2 * cap, i, x);
        bigger[Slot(i, 2 * cap)] := x;
        assert bigger[..] == was[Slot(i, 2 * cap) := x];
        i := i + 1;
      }
      items := bigger;
    }

    /** Push (ringbuffer.go:93). */
    method Push(x: Item) returns (ok: bool)
      requires Valid()
      modifies this`items, this`tail, this`length, this`pushed, items
      ensures Valid() && ok && Contents() == old(Contents()) + [x]
      ensures items.Length == if old(tail - head) == old(items.Length) then 2 * old(items.Length) else old(items.Length)
      ensures items == old(items) || fresh(items)
    {
      if tail - head > items.Length - 1 { Grow(); }
      var s := Slot(tail, items.Length);
      ghost var was := Abs();
      PushFilled(was, pushed, x);
      items[s] := x;
      assert items[..] == was.items[s := x];
      pushed := pushed + [x];
      tail := tail + 1;
      length := length + 1;
      ok := true;
    }

    /** Pop (ringbuffer.go:114). */
    method Pop() returns (x: Item, ok: bool)
      requires Valid()
      modifies this`head, this`length, items
      ensures Valid() && ok == (old(Contents()) != [])
      ensures (if ok then [x] else [], Abs()) == PopOne(old(Abs()))
      ensures if ok then old(Contents()) == [x] + Contents() else Contents() == old(Contents()) && x == zero
    {
      if length == 0 { return zero, false; }
      var s := Slot(head, items.Length);
      ghost var was := Abs();
      PopOneFilled(was, pushed);
      x := items[s];
      items[s] := zero;
      assert items[..] == was.items[s := zero];
      length := length - 1;
      head := head + 1;
      ok := true;
    }

    /** Len (ringbuffer.go:183). */
    method Len() returns (n: int)
      requires Valid()
      ensures n == |Contents()|
    {
      n := length;
    }

    /** Copies and clears one contiguous run of slots into out from position at on. */
    method Drain(lo: nat, hi: nat, out: array<Item>, at: nat)
      requires lo <= hi <= items.Length && at + (hi - lo) <= out.Length && out != items
      modifies items, out
      ensures out[..at] == old(out[..at]) && out[at..at + (hi - lo)] == old(items[lo..hi])
      ensures items[..] == ClearRange(old(items[..]), lo, hi, zero)
    {
      for i := lo to hi
        invariant forall j :: 0 <= j < out.Length ==>
          out[j] == if at <= j < at + (i - lo) then old(items[..])[lo + (j - at)] else old(out[..])[j]
        invariant forall j :: 0 <= j < items.Length ==> items[j] == old(items[..])[j]
      {
        out[at + (i - lo)] := items[i];
      }
      for i := lo to hi
        invariant forall j :: 0 <= j < items.Length ==> items[j] == if lo <= j < i then zero else old(items[..])[j]
        invariant forall j :: 0 <= j < out.Length ==>
          out[j] == if at <= j < at + (hi - lo) then old(items[..])[lo + (j - at)] else old(out[..])[j]
      {
        items[i] := zero;
      }
    }

    /** Both runs of a batch of k, the one up to the end of the array and the one that wrapped. */
    method TakeRuns(k: nat) returns (batch: seq<Item>)
      requires 0 < k <= items.Length
      modifies items
      ensures batch == Taken(old(items[..]), head, k)
      ensures items[..] == Cleared(old(items[..]), head, k, zero)
    {
      ghost var was := items[..];
      var out := new Item[k](_ => zero);
      var start := Slot(head, items.Length);
      var first := First(head, k, items.Length);
      Drain(start, start + first, out, 0);
      ghost var mid := items[..];
      if k - first > 0 {
        assert mid[..k - first] == was[..k - first];
        Drain(0, k - first, out, first);
      } else {
        assert mid == ClearRange(mid, 0, 0, zero);
      }
      batch := out[..];
      assert batch == out[..first] + out[first..k];
    }

    /** PopN (ringbuffer.go:144). */
    method PopN(n: int) returns (batch: seq<Item>, ok: bool)
      requires Valid()
      modifies this`head, this`length, items
      ensures Valid() && ok == (n > 0 && old(Contents()) != [])
      ensures (batch, Abs()) == PopMany(old(Abs()), n)
      ensures old(Contents()) == batch + Contents() && |batch| == if ok then Min(n, |old(Contents())|) else 0
    {
      if n <= 0 { return [], false; }
      if length == 0 { return [], false; }
      ghost var was := Abs();
      PopManyFilled(was, pushed, n);
      var k := Min(n, length);
      batch := TakeRuns(k);
      length := length - k;
      head := head + k;
      ok := true;
      assert Cells(items[..], head, tail, length, zero) == PopMany(was, n).1;
    }
  }
}
