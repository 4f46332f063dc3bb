/**
 Sends, misses and event fan-out (engine.go:312-346, eventstream.go): sendMessage, sendMiss and broadcast call
 each other over a registry that other goroutines change between any two lookups, and over a table of subscribers
 that they change whenever the lock is free.
 */
module DeadLetters {
  import opened Wrappers
  import opened Pids

  datatype Message = Ordinary(m: int) | DeadLetterEvent(target: Pid, message: Message, sender: Pid)

  /** One Send: where to, what, and from whom. */
  datatype Post = Post(to: Pid, msg: Message, sender: Pid)

  /** The same message to each address in turn, from nobody. */
  function Posts(pids: seq<Pid>, msg: Message): (r: seq<Post>)
    ensures |r| == |pids|
  {
    seq(|pids|, i requires 0 <= i < |pids| => Post(pids[i], msg, Nil))
  }

  ghost predicate Addresses(subs: map<Id, Pid>, ids: seq<Id>, pids: seq<Pid>) {
    |pids| == |ids| && forall i :: 0 <= i < |ids| ==> ids[i] in subs && pids[i] == subs[ids[i]]
  }

  /** Did the lookup at tick t find this post's address live? */
  predicate Lands(live: (nat, Id) -> bool, t: nat, p: Post) { p.to.Pid? && live(t, p.to.id) }

  /** The posts that their own lookup, post i at ticks[i], found live, in order. */
  function Hits(live: (nat, Id) -> bool, ticks: seq<nat>, posts: seq<Post>): seq<Post>
    requires |ticks| == |posts|
  {
    if posts == [] then []
    else
      var n := |posts| - 1;
      Hits(live, ticks[..n], posts[..n]) + if Lands(live, ticks[n], posts[n]) then [posts[n]] else []
  }

  /** The others, but for those to the dead-letter actor, about which the engine keeps silent. */
  function Misses(live: (nat, Id) -> bool, ticks: seq<nat>, posts: seq<Post>, deadletter: Pid): seq<Post>
    requires |ticks| == |posts|
  {
    if posts == [] then []
    else
      var n := |posts| - 1;
      Misses(live, ticks[..n], posts[..n], deadletter) +
      if Lands(live, ticks[n], posts[n]) || (deadletter.Pid? && posts[n].to == deadletter) then [] else [posts[n]]
  }

  lemma {:induction false} OneMorePost(live: (nat, Id) -> bool, ticks: seq<nat>, posts: seq<Post>, deadletter: Pid,
                                       t: nat, p: Post)
    requires |ticks| == |posts|
    ensures Hits(live, ticks + [t], posts + [p]) == Hits(live, ticks, posts) + if Lands(live, t, p) then [p] else []
    ensures Misses(live, ticks + [t], posts + [p], deadletter) ==
              Misses(live, ticks, posts, deadletter) +
              if Lands(live, t, p) || (deadletter.Pid? && p.to == deadletter) then [] else [p]
  {
    assert (ticks + [t])[..|posts|] == ticks && (posts + [p])[..|posts|] == posts;
  }

  /** n ticks from t on, one after the other. */
  function Consecutive(t: nat, n: nat): (r: seq<nat>)
    ensures |r| == n
  {
    seq(n, i => t + i)
  }

  /** Later posts are looked up later, all of them from t0 up to t1. */
  ghost predicate InTurn(ticks: seq<nat>, t0: nat, t1: nat) {
    && (forall i :: 0 <= i < |ticks| ==> t0 <= ticks[i] < t1)
    && forall i, j :: 0 <= i < j < |ticks| ==> ticks[i] < ticks[j]
  }

  /** The ids in ticks were looked up once each, at their own tick, and these were all the lookups from t0 up to t. */
  ghost predicate Lookups(ticks: map<Id, nat>, t0: nat, t: nat) {
    && t == t0 + |ticks.Keys|
    && (forall k :: k in ticks ==> t0 <= ticks[k] < t)
    && forall j, k :: j in ticks && k in ticks && ticks[j] == ticks[k] ==> j == k
  }

  /** sends is msg to each of the kept subscribers, once. */
  ghost predicate SentOnce(before: map<Id, Pid>, kept: set<Id>, msg: Message, sends: seq<Post>) {
    exists ids, pids :: Lists(ids, kept) && Addresses(before, ids, pids) && sends == Posts(pids, msg)
  }

  /**
   What one broadcast of msg does to the stream: every subscriber is looked up once, from t0 on; exactly those found
   live by that lookup are kept, and each of them is sent msg exactly once.
   */
  ghost predicate FanOut(live: (nat, Id) -> bool, t0: nat, before: map<Id, Pid>, kept: set<Id>, msg: Message,
                         sends: seq<Post>) {
    && (exists ticks :: Decided(live, t0, before, kept, ticks))
    && SentOnce(before, kept, msg, sends)
  }

  function Restrict(subs: map<Id, Pid>, kept: set<Id>): map<Id, Pid> { map k | k in subs && k in kept :: subs[k] }

  /** Every subscriber's own lookup decided whether it is kept. */
  ghost predicate Decided(live: (nat, Id) -> bool, t0: nat, before: map<Id, Pid>, kept: set<Id>, ticks: map<Id, nat>) {
    && ticks.Keys == before.Keys && Lookups(ticks, t0, t0 + |before.Keys|)
    && kept <= before.Keys && forall k :: k in before ==> (k in kept <==> live(ticks[k], k))
  }

  /** The subscribers not in todo have been looked up: those found live are kept and listed, the others are gone. */
  ghost predicate Sifted(live: (nat, Id) -> bool, before: map<Id, Pid>, subs: map<Id, Pid>, todo: set<Id>,
                         ids: seq<Id>, pids: seq<Pid>, ticks: map<Id, nat>) {
    && (forall k :: k in subs ==> k in before && subs[k] == before[k])
    && (forall k :: k in todo ==> k in subs && k !in ticks)
    && (forall k :: k in before && k !in todo ==> k in ticks && (k in subs <==> live(ticks[k], k)))
    && (forall k :: k in ticks ==> k in before)
    && Lists(ids, subs.Keys - todo) && Addresses(before, ids, pids)
  }

  lemma {:induction false} SiftOne(live: (nat, Id) -> bool, t: nat, before: map<Id, Pid>, subs: map<Id, Pid>,
                                   todo: set<Id>, ids: seq<Id>, pids: seq<Pid>, ticks: map<Id, nat>, id: Id)
    requires Sifted(live, before, subs, todo, ids, pids, ticks) && id in todo
    ensures var ticks' := ticks[id := t];
            if live(t, id) then Sifted(live, before, subs, todo - {id}, ids + [id], pids + [subs[id]], ticks')
            else Sifted(live, before, subs - {id}, todo - {id}, ids, pids, ticks')
  {
    if live(t, id) {
      ListsOneMore(ids, subs.Keys - todo, id);
      assert subs.Keys - (todo - {id}) == subs.Keys - todo + {id};
    } else {
      assert (subs - {id}).Keys - (todo - {id}) == subs.Keys - todo;
    }
  }

  lemma {:induction false} OneMoreLookup(ticks: map<Id, nat>, t0: nat, t: nat, id: Id)
    requires Lookups(ticks, t0, t) && id !in ticks
    ensures Lookups(ticks[id := t], t0, t + 1)
  {
    assert ticks[id := t].Keys == ticks.Keys + {id};
  }

  /** The loop is done: the lookups decided who is kept, and the list is what to send to. */
  lemma {:induction false} SiftedAll(live: (nat, Id) -> bool, t0: nat, t: nat, before: map<Id, Pid>, subs: map<Id, Pid>,
                  ids: seq<Id>, pids: seq<Pid>, ticks: map<Id, nat>, msg: Message)
    requires Sifted(live, before, subs, {}, ids, pids, ticks) && Lookups(ticks, t0, t)
    ensures FanOut(live, t0, before, subs.Keys, msg, Posts(pids, msg)) && t == t0 + |before.Keys|
  {
    assert subs.Keys - {} == subs.Keys && ticks.Keys == before.Keys;
    assert Decided(live, t0, before, subs.Keys, ticks);
    assert SentOnce(before, subs.Keys, msg, Posts(pids, msg));
  }

  lemma {:induction false} SiftedRest(live: (nat, Id) -> bool, before: map<Id, Pid>, subs: map<Id, Pid>,
                                      ids: seq<Id>, pids: seq<Pid>, ticks: map<Id, nat>)
    requires Sifted(live, before, subs, {}, ids, pids, ticks)
    ensures subs == Restrict(before, subs.Keys)
  {
  }

  // ---------------------------------------------------------------- what other goroutines do to the table

  /** A Subscribe or Unsubscribe (or a prune) by another goroutine. */
  datatype Change = Joins(p: Pid) | Leaves(p: Pid)

  function Apply(subs: map<Id, Pid>, c: Change): map<Id, Pid> {
    if c.p.Nil? then subs
    else match c
         case Joins(p) => subs[p.id := p]
         case Leaves(p) => subs - {p.id}
  }

  function Meddled(subs: map<Id, Pid>, cs: seq<Change>): map<Id, Pid> {
    if cs == [] then subs else Apply(Meddled(subs, cs[..|cs| - 1]), cs[|cs| - 1])
  }

  /** The table after what others did at each tick from t + 1 to t'. */
  function Drift(others: nat -> seq<Change>, subs: map<Id, Pid>, t: nat, t': nat): map<Id, Pid> {
    if t' <= t then subs else Meddled(Drift(others, subs, t, t' - 1), others(t'))
  }

  lemma {:induction false} DriftOne(others: nat -> seq<Change>, subs: map<Id, Pid>, t: nat, t': nat)
    requires t <= t'
    ensures Drift(others, subs, t, t' + 1) == Meddled(Drift(others, subs, t, t'), others(t' + 1))
  {
  }

  /** Subscribers are keyed by their own ID. */
  ghost predicate Keyed(subs: map<Id, Pid>) {
    forall k :: k in subs ==> subs[k].Pid? && subs[k].id == k
  }

  /** Whoever is subscribed was before, or joined at a tick from t + 1 to t'. */
  ghost predicate Since(others: nat -> seq<Change>, t: nat, t': nat, before: map<Id, Pid>, subs: map<Id, Pid>) {
    t <= t' && forall k :: k in subs ==> (k in before && subs[k] == before[k]) || Joined(others, t, t', subs[k])
  }

  ghost predicate Joined(others: nat -> seq<Change>, t: nat, t': nat, p: Pid) {
    exists u: nat :: t < u <= t' && Joins(p) in others(u)
  }

  lemma {:induction false} MeddledFrom(subs: map<Id, Pid>, cs: seq<Change>)
    ensures Keyed(subs) ==> Keyed(Meddled(subs, cs))
    ensures forall k :: k in Meddled(subs, cs) ==>
              (k in subs && Meddled(subs, cs)[k] == subs[k]) || Joins(Meddled(subs, cs)[k]) in cs
  {
    if cs != [] {
      var init, c := cs[..|cs| - 1], cs[|cs| - 1];
      MeddledFrom(subs, init);
      assert forall d :: d in init ==> d in cs;
      assert c in cs;
    }
  }

  lemma {:induction false} SinceMeddled(others: nat -> seq<Change>, t: nat, t': nat, before: map<Id, Pid>,
                                        subs: map<Id, Pid>)
    requires Since(others, t, t', before, subs)
    ensures Since(others, t, t' + 1, before, Meddled(subs, others(t' + 1)))
  {
    MeddledFrom(subs, others(t' + 1));
    JoinedWider(others, t, t', t, t' + 1);
  }

  lemma {:induction false} JoinedWider(others: nat -> seq<Change>, t: nat, t': nat, u: nat, u': nat)
    requires u <= t && t' <= u'
    ensures forall p :: Joined(others, t, t', p) ==> Joined(others, u, u', p)
  {
  }

  lemma {:induction false} SinceTwice(others: nat -> seq<Change>, t: nat, t': nat, t'': nat, a: map<Id, Pid>,
                                      b: map<Id, Pid>, c: map<Id, Pid>)
    requires Since(others, t, t', a, b) && Since(others, t', t'', b, c)
    ensures Since(others, t, t'', a, c)
  {
    JoinedWider(others, t, t', t, t'');
    JoinedWider(others, t', t'', t, t'');
  }

  /** The table after a broadcast that began at tick t0: those kept, and what others did while the sends went out. */
  function LeftOver(others: nat -> seq<Change>, t0: nat, t1: nat, before: map<Id, Pid>, kept: set<Id>): map<Id, Pid> {
    Drift(others, Restrict(before, kept), t0 + |before.Keys|, t1)
  }

  // ---------------------------------------------------------------- sends one after the other

  /** What the engine writes while it sends. */
  datatype Tape = Tape(clock: nat, subs: map<Id, Pid>, missed: seq<Post>, sends: seq<Post>, eventSends: seq<Post>,
                       delivered: seq<Post>, eventDelivered: seq<Post>)

  /** What is the same for all sends: the registry, the other goroutines, and the dead-letter actor. */
  datatype World = World(live: (nat, Id) -> bool, others: nat -> seq<Change>, deadletter: Pid)

  /** From b to a, msg was sent to pid, by a lookup at the tick of b. */
  ghost predicate SentTo(w: World, b: Tape, a: Tape, pid: Pid, msg: Message) {
    var p := Post(pid, msg, Nil);
    var hit := if Lands(w.live, b.clock, p) then [p] else [];
    && Since(w.others, b.clock, a.clock, b.subs, a.subs) && a.clock > b.clock
    && if msg.DeadLetterEvent? then
         && a.clock == b.clock + 1 && a.subs == Meddled(b.subs, w.others(a.clock))
         && a.missed == b.missed && a.sends == b.sends && a.delivered == b.delivered
         && a.eventSends == b.eventSends + [p] && a.eventDelivered == b.eventDelivered + hit
       else
         && a.sends == b.sends + [p] && a.delivered == b.delivered + hit
         && a.missed == b.missed + if hit != [] || (w.deadletter.Pid? && pid == w.deadletter) then [] else [p]
  }

  /** A DeadLetterEvent sent to each of pids, one tick each. */
  ghost predicate SentEvents(w: World, b: Tape, a: Tape, pids: seq<Pid>, msg: Message, ticks: seq<nat>)
    requires |ticks| == |pids|
  {
    && a.clock == b.clock + |pids| && a.subs == Drift(w.others, b.subs, b.clock, a.clock)
    && a.missed == b.missed && a.sends == b.sends && a.delivered == b.delivered
    && a.eventSends == b.eventSends + Posts(pids, msg) && ticks == Consecutive(b.clock, |pids|)
    && a.eventDelivered == b.eventDelivered + Hits(w.live, ticks, Posts(pids, msg))
  }

  /** Any other message sent to each of pids; each miss brings a fan-out of its own. */
  ghost predicate SentOrdinary(w: World, b: Tape, a: Tape, pids: seq<Pid>, msg: Message, ticks: seq<nat>)
    requires |ticks| == |pids|
  {
    && a.sends == b.sends + Posts(pids, msg)
    && a.delivered == b.delivered + Hits(w.live, ticks, Posts(pids, msg))
    && a.missed == b.missed + Misses(w.live, ticks, Posts(pids, msg), w.deadletter)
  }

  /** From b to a, msg was sent to each of pids in turn, by lookups at ticks. */
  ghost predicate SentToAll(w: World, b: Tape, a: Tape, pids: seq<Pid>, msg: Message, ticks: seq<nat>) {
    && Since(w.others, b.clock, a.clock, b.subs, a.subs)
    && |ticks| == |pids| && InTurn(ticks, b.clock, a.clock)
    && if msg.DeadLetterEvent? then SentEvents(w, b, a, pids, msg, ticks) else SentOrdinary(w, b, a, pids, msg, ticks)
  }

  lemma {:induction false} EventsOneMore(w: World, b: Tape, m: Tape, a: Tape, pids: seq<Pid>, pid: Pid, msg: Message,
                                         ticks: seq<nat>)
    requires |ticks| == |pids| && msg.DeadLetterEvent? && SentEvents(w, b, m, pids, msg, ticks)
    requires SentTo(w, m, a, pid, msg)
    ensures SentEvents(w, b, a, pids + [pid], msg, ticks + [m.clock])
  {
    var p := Post(pid, msg, Nil);
    assert Posts(pids + [pid], msg) == Posts(pids, msg) + [p];
    OneMorePost(w.live, ticks, Posts(pids, msg), w.deadletter, m.clock, p);
    DriftOne(w.others, b.subs, b.clock, m.clock);
    assert Consecutive(b.clock, |pids| + 1) == Consecutive(b.clock, |pids|) + [m.clock];
  }

  lemma {:induction false} OrdinaryOneMore(w: World, b: Tape, m: Tape, a: Tape, pids: seq<Pid>, pid: Pid, msg: Message,
                                           ticks: seq<nat>)
    requires |ticks| == |pids| && !msg.DeadLetterEvent? && SentOrdinary(w, b, m, pids, msg, ticks)
    requires SentTo(w, m, a, pid, msg)
    ensures SentOrdinary(w, b, a, pids + [pid], msg, ticks + [m.clock])
  {
    var p := Post(pid, msg, Nil);
    assert Posts(pids + [pid], msg) == Posts(pids, msg) + [p];
    OneMorePost(w.live, ticks, Posts(pids, msg), w.deadletter, m.clock, p);
  }

  lemma {:induction false} SentToOneMore(w: World, b: Tape, m: Tape, a: Tape, pids: seq<Pid>, pid: Pid, msg: Message,
                                         ticks: seq<nat>)
    requires SentToAll(w, b, m, pids, msg, ticks) && SentTo(w, m, a, pid, msg)
    ensures SentToAll(w, b, a, pids + [pid], msg, ticks + [m.clock])
  {
    SinceTwice(w.others, b.clock, m.clock, a.clock, b.subs, m.subs, a.subs);
    if msg.DeadLetterEvent? {
      EventsOneMore(w, b, m, a, pids, pid, msg, ticks);
    } else {
      OrdinaryOneMore(w, b, m, a, pids, pid, msg, ticks);
    }
  }

  class Engine {
    const deadletter: Pid
    const live: (nat, Id) -> bool       // what a registry lookup at a given tick finds
    const others: nat -> seq<Change>    // what others do to subs at a given tick, the lock being free
    var clock: nat                  // registry lookups so far
    var subs: map<Id, Pid>
    // history
    var delivered: seq<Post>        // envelopes pushed into inboxes, DeadLetterEvents aside
    var eventDelivered: seq<Post>   // DeadLetterEvents pushed into inboxes
    var missed: seq<Post>           // misses that must be announced
    var announced: seq<Message>     // DeadLetterEvents handed to BroadcastEvent
    var eventSends: seq<Post>       // Sends of DeadLetterEvents
    var sends: seq<Post>            // all other Sends

    constructor (deadletter: Pid, live: (nat, Id) -> bool, others: nat -> seq<Change>)
      ensures Valid() && subs == map[] && missed == []
      ensures this.deadletter == deadletter && this.live == live && this.others == others
    {
      this.deadletter, this.live, this.others := deadletter, live, others;
      clock, subs, delivered, eventDelivered := 0, map[], [], [];
      missed, announced, eventSends, sends := [], [], [], [];
    }

    /** Subscribers are keyed by their own ID, and every miss that must be announced was, once. */
    ghost predicate Valid()
      reads this
    {
      && Keyed(subs)
      && |announced| == |missed|
      && forall i :: 0 <= i < |missed| ==>
           announced[i] == DeadLetterEvent(missed[i].to, missed[i].msg, missed[i].sender)
    }

    ghost function TapeOf(): Tape
      reads this
    {
      Tape(clock, subs, missed, sends, eventSends, delivered, eventDelivered)
    }

    ghost function Around(): World { World(live, others, deadletter) }

    /** The two guards of sendMiss. */
    predicate Silent(to: Pid, msg: Message) {
      (deadletter.Pid? && to.Equals(deadletter)) || msg.DeadLetterEvent?
    }

    /** eventstream.go:22. */
    method Subscribe(p: Pid)
      requires Valid()
      modifies this`subs
      ensures Valid() && subs == Apply(old(subs), Joins(p))
      ensures p.Pid? ==> p.id in subs && subs[p.id] == p && subs.Keys == old(subs).Keys + {p.id}
      ensures forall k :: k in old(subs) && !(p.Pid? && k == p.id) ==> k in subs && subs[k] == old(subs)[k]
    {
      if p.Nil? { return; }
      subs := subs[p.id := p];
    }

    /** eventstream.go:31. */
    method Unsubscribe(p: Pid)
      requires Valid()
      modifies this`subs
      ensures Valid() && subs == Apply(old(subs), Leaves(p))
      ensures p.Pid? ==> subs.Keys == old(subs).Keys - {p.id}
      ensures forall k :: k in old(subs) && !(p.Pid? && k == p.id) ==> k in subs && subs[k] == old(subs)[k]
    {
      if p.Nil? { return; }
      subs := subs - {p.id};
    }

    /** registry.get: nil never resolves; anything else is what the registry holds at this tick. */
    method Get(p: Pid) returns (found: bool)
      modifies this`clock
      ensures found == (p.Pid? && live(old(clock), p.id)) && clock == old(clock) + 1
    {
      found := p.Pid? && live(clock, p.id);
      clock := clock + 1;
    }

    /** The locked half of broadcast (eventstream.go:49-58): prune the missing, list the live, in any order. */
    method Snapshot() returns (ids: seq<Id>, pids: seq<Pid>, ghost ticks: map<Id, nat>)
      requires Valid()
      modifies this`clock, this`subs
      ensures Valid() && Lookups(ticks, old(clock), clock) && Sifted(live, old(subs), subs, {}, ids, pids, ticks)
    {
      ids, pids, ticks := [], [], map[];
      var todo := subs.Keys;
      while todo != {}
        invariant Lookups(ticks, old(clock), clock) && Sifted(live, old(subs), subs, todo, ids, pids, ticks)
        decreases |todo|
      {
        var id :| id in todo;
        var pid := subs[id];
        SiftOne(live, clock, old(subs), subs, todo, ids, pids, ticks, id);
        OneMoreLookup(ticks, old(clock), clock, id);
        ticks := ticks[id := clock];
        var found := Get(pid);
        todo := todo - {id};
        if found {
          ids, pids := ids + [id], pids + [pid];
        } else {
          subs := subs - {id};
        }
      }
    }

    /** Other goroutines take the lock in turn. */
    method Interfere()
      requires Valid()
      modifies this`subs
      ensures Valid() && subs == Meddled(old(subs), others(clock))
    {
      MeddledFrom(subs, others(clock));
      subs := Meddled(subs, others(clock));
    }

    /**
     The miss was announced once, and that announcement, made at tick t0 to the table `before`, fanned out once: the
     event reached exactly the subscribers that the lookup of their own send found live.
     */
    twostate predicate Announces(p: Post, t0: nat, before: map<Id, Pid>)
      reads this
    {
      && missed == old(missed) + [p] && delivered == old(delivered)
      && old(eventSends) <= eventSends
      && clock == t0 + |before.Keys| + |eventSends| - |old(eventSends)|
      && exists kept ::
           && FanOut(live, t0, before, kept, DeadLetterEvent(p.to, p.msg, p.sender), eventSends[|old(eventSends)|..])
           && subs == LeftOver(others, t0, clock, before, kept)
           && Reached(t0 + |before.Keys|)
    }

    /** The events sent, one lookup each from tick t on, were pushed exactly where that lookup found someone. */
    twostate predicate Reached(t: nat)
      reads this
    {
      && old(eventSends) <= eventSends
      && var posts := eventSends[|old(eventSends)|..];
         eventDelivered == old(eventDelivered) + Hits(live, Consecutive(t, |posts|), posts)
    }

    /** The lookup of sendMessage, and what others do before the engine goes on. */
    method Route(to: Pid, msg: Message, sender: Pid) returns (found: bool)
      requires Valid()
      modifies this`sends, this`eventSends, this`clock, this`subs
      ensures Valid() && found == (to.Pid? && live(old(clock), to.id))
      ensures clock == old(clock) + 1 && subs == Meddled(old(subs), others(clock))
      ensures Since(others, old(clock), clock, old(subs), subs)
      ensures var p := Post(to, msg, sender);
              if msg.DeadLetterEvent? then sends == old(sends) && eventSends == old(eventSends) + [p]
              else sends == old(sends) + [p] && eventSends == old(eventSends)
    {
      if msg.DeadLetterEvent? {
        eventSends := eventSends + [Post(to, msg, sender)];
      } else {
        sends := sends + [Post(to, msg, sender)];
      }
      found := Get(to);
      SinceMeddled(others, old(clock), old(clock), old(subs), old(subs));
      Interfere();
    }

    /** engine.go:312. */
    method SendMessage(to: Pid, msg: Message, sender: Pid) returns (found: bool)
      requires Valid()
      modifies this
      ensures Valid() && found == (to.Pid? && live(old(clock), to.id))
      ensures Since(others, old(clock), clock, old(subs), subs) && old(missed) <= missed
      ensures found || Silent(to, msg) ==>
                clock == old(clock) + 1 && subs == Meddled(old(subs), others(clock)) && missed == old(missed)
      ensures msg.DeadLetterEvent? ==> sends == old(sends) && eventSends == old(eventSends) + [Post(to, msg, sender)]
      ensures !msg.DeadLetterEvent? ==> sends == old(sends) + [Post(to, msg, sender)]
      ensures !msg.DeadLetterEvent? && (found || Silent(to, msg)) ==> eventSends == old(eventSends)
      ensures !found && !Silent(to, msg) ==>
                Announces(Post(to, msg, sender), old(clock) + 1, Meddled(old(subs), others(old(clock) + 1)))
      ensures var hit := if found then [Post(to, msg, sender)] else [];
              && delivered == old(delivered) + (if msg.DeadLetterEvent? then [] else hit)
              && (found || Silent(to, msg) ==>
                    eventDelivered == old(eventDelivered) + if msg.DeadLetterEvent? then hit else [])
      decreases if msg.DeadLetterEvent? then 0 else 1, 2
    {
      found := Route(to, msg, sender);
      if found {
        Deliver(Post(to, msg, sender));
        return;
      }
      ghost var t, table := clock, subs;
      SendMiss(to, msg, sender);
      SinceTwice(others, old(clock), t, clock, old(subs), table, subs);
    }

    /** deliver: the envelope goes into the inbox (engine.go:324-326). */
    method Deliver(p: Post)
      requires Valid()
      modifies this`delivered, this`eventDelivered
      ensures Valid()
      ensures if p.msg.DeadLetterEvent? then
                delivered == old(delivered) && eventDelivered == old(eventDelivered) + [p]
              else delivered == old(delivered) + [p] && eventDelivered == old(eventDelivered)
    {
      if p.msg.DeadLetterEvent? {
        eventDelivered := eventDelivered + [p];
      } else {
        delivered := delivered + [p];
      }
    }

    /** engine.go:334. */
    method SendMiss(to: Pid, msg: Message, sender: Pid)
      requires Valid()
      modifies this
      ensures Valid() && sends == old(sends) && Since(others, old(clock), clock, old(subs), subs)
      ensures Silent(to, msg) ==>
                && clock == old(clock) && subs == old(subs) && missed == old(missed)
                && eventSends == old(eventSends) && delivered == old(delivered) && eventDelivered == old(eventDelivered)
      ensures !Silent(to, msg) ==> Announces(Post(to, msg, sender), old(clock), old(subs))
      decreases if msg.DeadLetterEvent? then 0 else 1, 1
    {
      if deadletter.Pid? && to.Equals(deadletter) { return; }
      if msg.DeadLetterEvent? { return; }
      missed := missed + [Post(to, msg, sender)];
      announced := announced + [DeadLetterEvent(to, msg, sender)];
      ghost var ticks;
      var kept;
      kept, ticks := Broadcast(DeadLetterEvent(to, msg, sender));
    }

    /**
     eventstream.go:48, from the moment it has the lock: kept are the subscribers found live, and ticks the lookups of
     the sends to them.
     */
    method Broadcast(msg: Message) returns (kept: set<Id>, ghost ticks: seq<nat>)
      requires Valid()
      modifies this
      ensures Valid() && Since(others, old(clock), clock, Restrict(old(subs), kept), subs)
      ensures InTurn(ticks, old(clock), clock)
      ensures msg.DeadLetterEvent? ==>
                && missed == old(missed) && sends == old(sends) && delivered == old(delivered)
                && old(eventSends) <= eventSends
                && clock == old(clock) + |old(subs).Keys| + |eventSends| - |old(eventSends)|
                && FanOut(live, old(clock), old(subs), kept, msg, eventSends[|old(eventSends)|..])
                && subs == LeftOver(others, old(clock), clock, old(subs), kept)
                && Reached(old(clock) + |old(subs).Keys|)
      ensures !msg.DeadLetterEvent? ==>
                && old(sends) <= sends && |ticks| == |sends| - |old(sends)|
                && FanOut(live, old(clock), old(subs), kept, msg, sends[|old(sends)|..])
                && delivered == old(delivered) + Hits(live, ticks, sends[|old(sends)|..])
                && missed == old(missed) + Misses(live, ticks, sends[|old(sends)|..], deadletter)
      decreases if msg.DeadLetterEvent? then 0 else 1, 5
    {
      var pids;
      pids, kept := Address(msg);
      ghost var table, t := subs, clock;
      ticks := SendAll(pids, msg);
      SinceTwice(others, old(clock), t, clock, table, table, subs);
      if msg.DeadLetterEvent? {
        assert eventSends[|old(eventSends)|..] == Posts(pids, msg);
      } else {
        assert sends[|old(sends)|..] == Posts(pids, msg);
      }
    }

    /** The locked half as the sends need it: whom to send to. */
    method Address(ghost msg: Message) returns (pids: seq<Pid>, kept: set<Id>)
      requires Valid()
      modifies this`clock, this`subs
      ensures Valid() && clock == old(clock) + |old(subs).Keys| && subs == Restrict(old(subs), kept)
      ensures FanOut(live, old(clock), old(subs), kept, msg, Posts(pids, msg))
    {
      ghost var ticks;
      var ids;
      ids, pids, ticks := Snapshot();
      kept := subs.Keys;
      SiftedAll(live, old(clock), clock, old(subs), subs, ids, pids, ticks, msg);
      SiftedRest(live, old(subs), subs, ids, pids, ticks);
    }

    /** Engine.Send, as the loop of a broadcast uses it. */
    method SendOne(pid: Pid, msg: Message)
      requires Valid()
      modifies this
      ensures Valid() && SentTo(Around(), old(TapeOf()), TapeOf(), pid, msg)
      decreases if msg.DeadLetterEvent? then 0 else 1, 3
    {
      var found := SendMessage(pid, msg, Nil);
    }

    /** The unlocked half of broadcast (eventstream.go:60-62): ticks are the lookups of the sends. */
    method SendAll(pids: seq<Pid>, msg: Message) returns (ghost ticks: seq<nat>)
      requires Valid()
      modifies this
      ensures Valid() && SentToAll(Around(), old(TapeOf()), TapeOf(), pids, msg, ticks)
      decreases if msg.DeadLetterEvent? then 0 else 1, 4
    {
      ticks := [];
      for i := 0 to |pids|
        invariant Valid() && SentToAll(Around(), old(TapeOf()), TapeOf(), pids[..i], msg, ticks)
      {
        ghost var m := TapeOf();
        SendOne(pids[i], msg);
        SentToOneMore(Around(), old(TapeOf()), m, TapeOf(), pids[..i], pids[i], msg, ticks);
        ticks := ticks + [m.clock];
        assert pids[..i + 1] == pids[..i] + [pids[i]];
      }
      assert pids[..|pids|] == pids;
    }
  }
}
