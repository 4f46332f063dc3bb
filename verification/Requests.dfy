/**
 Request and Response (engine.go:160, response.go): any number of requests, replies that come early, late, twice
 or never, and a timer that may fire at any moment. The reply address is poisoned by nobody but await.
 */
module Requests {
  import opened Wrappers

  datatype Outcome = Reply(m: int) | TimedOut

  /** Where await is. */
  datatype Pc = Selecting | Poisoning | Closed

  datatype Req = Req(
    chan: Option<int>,        // replyCh, capacity one
    alive: bool,              // the throwaway actor still handles messages
    outcome: Option<Outcome>, // Response.result or Response.err
    pc: Pc,
    arrived: seq<int>)        // history: replies the throwaway actor handled, in order

  datatype World = World(reqs: map<nat, Req>, reg: set<nat>, others: set<nat>)

  datatype Label =
    | LRequest(r: nat)
    | LReply(r: nat, m: int)
    | LTake(r: nat)
    | LTimeout(r: nat)
    | LTeardown(r: nat)
    | LClose(r: nat)
    | LOthers(ids: set<nat>)  // unrelated actors come and go

  ghost predicate Step(w: World, w': World, l: Label) {
    match l
    case LOthers(ids) =>
      ids !! w.reqs.Keys && w' == w.(others := ids, reg := (w.reg - w.others) + ids)
    case LRequest(r) =>
      r !in w.reqs && r !in w.reg && r !in w.others &&
      w' == w.(reqs := w.reqs[r := Req(None, true, None, Selecting, [])], reg := w.reg + {r})
    case LReply(r, m) =>
      r in w.reqs && w.reqs[r].alive &&
      var q := w.reqs[r];
      w' == w.(reqs := w.reqs[r := q.(arrived := q.arrived + [m], chan := if q.chan.None? then Some(m) else q.chan)])
    case LTake(r) =>
      r in w.reqs && w.reqs[r].pc.Selecting? && w.reqs[r].chan.Some? &&
      var q := w.reqs[r];
      w' == w.(reqs := w.reqs[r := q.(outcome := Some(Reply(q.chan.value)), chan := None, pc := Poisoning)])
    case LTimeout(r) =>
      r in w.reqs && w.reqs[r].pc.Selecting? &&
      w' == w.(reqs := w.reqs[r := w.reqs[r].(outcome := Some(TimedOut), pc := Poisoning)])
    case LTeardown(r) =>
      r in w.reqs && w.reqs[r].pc.Poisoning? && w.reqs[r].alive &&
      w' == w.(reqs := w.reqs[r := w.reqs[r].(alive := false)], reg := w.reg - {r})
    case LClose(r) =>
      r in w.reqs && w.reqs[r].pc.Poisoning? && !w.reqs[r].alive &&
      w' == w.(reqs := w.reqs[r := w.reqs[r].(pc := Closed)])
  }

  /** The channel and the outcome can only ever hold the first reply. */
  ghost predicate ReqOk(q: Req) {
    && (q.pc.Selecting? <==> q.outcome.None?)
    && (q.pc.Selecting? ==> q.alive)
    && (q.pc.Selecting? ==> q.chan == if q.arrived == [] then None else Some(q.arrived[0]))
    && (q.outcome.Some? && q.outcome.value.Reply? ==> q.arrived != [] && q.outcome.value.m == q.arrived[0])
    && (q.pc.Closed? ==> !q.alive)
  }

  ghost predicate Inv(w: World) {
    && w.others !! w.reqs.Keys
    && w.reg == w.others + (set r | r in w.reqs && w.reqs[r].alive)
    && forall r :: r in w.reqs ==> ReqOk(w.reqs[r])
  }

  lemma StepKeeps(w: World, w': World, l: Label)
    requires Inv(w) && Step(w, w', l)
    ensures Inv(w')
  {
    if l.LOthers? {
    } else {
      assert w'.reg == w'.others + (set r | r in w'.reqs && w'.reqs[r].alive);
    }
  }

  ghost predicate Run(run: seq<World>, labels: seq<Label>) {
    && |run| == |labels| + 1 && run[0].reqs == map[] && run[0].reg == run[0].others
    && forall i {:trigger labels[i]} :: 0 <= i < |labels| ==> Step(run[i], run[i + 1], labels[i])
  }

  lemma {:induction false} Safety(run: seq<World>, labels: seq<Label>, i: nat)
    requires Run(run, labels) && i < |run|
    ensures Inv(run[i])
  {
    if i > 0 {
      Safety(run, labels, i - 1);
      var l := labels[i - 1];
      StepKeeps(run[i - 1], run[i], l);
    }
  }

  lemma OutcomeStays(w: World, w': World, l: Label, r: nat)
    requires Inv(w) && Step(w, w', l) && r in w.reqs && w.reqs[r].outcome.Some?
    ensures r in w'.reqs && w'.reqs[r].outcome == w.reqs[r].outcome
  {
    assert ReqOk(w.reqs[r]);
  }

  /** A Response resolves once, to the first reply its address handled or to the timeout, and never changes. */
  lemma {:induction false} ResolvesOnce(run: seq<World>, labels: seq<Label>, i: nat, j: nat, r: nat)
    requires Run(run, labels) && i <= j < |run| && r in run[i].reqs && run[i].reqs[r].outcome.Some?
    ensures r in run[j].reqs && run[j].reqs[r].outcome == run[i].reqs[r].outcome
    ensures run[i].reqs[r].outcome.value.Reply? ==>
              run[i].reqs[r].arrived != [] && run[i].reqs[r].outcome == Some(Reply(run[i].reqs[r].arrived[0]))
    decreases j
  {
    Safety(run, labels, i);
    assert ReqOk(run[i].reqs[r]);
    if i < j {
      ResolvesOnce(run, labels, i, j - 1, r);
      Safety(run, labels, j - 1);
      var l := labels[j - 1];
      OutcomeStays(run[j - 1], run[j], l, r);
    }
  }

  /** When every Response is closed, each has its outcome and no reply address is left behind. */
  lemma NothingLeaks(run: seq<World>, labels: seq<Label>, i: nat)
    requires Run(run, labels) && i < |run|
    requires forall r :: r in run[i].reqs ==> run[i].reqs[r].pc.Closed?
    ensures run[i].reg == run[i].others
    ensures forall r :: r in run[i].reqs ==> run[i].reqs[r].outcome.Some?
  {
    Safety(run, labels, i);
    forall r | r in run[i].reqs ensures !run[i].reqs[r].alive { assert ReqOk(run[i].reqs[r]); }
  }

  // ---------------------------------------------------------------- the state, told from what happened

  /** The replies r's address handled, in order. */
  function Replies(labels: seq<Label>, r: nat): seq<int> {
    if labels == [] then []
    else
      var l := labels[|labels| - 1];
      Replies(labels[..|labels| - 1], r) + if l.LReply? && l.r == r then [l.m] else []
  }

  /** The outcome the first of take and timeout gave: the first reply handled before it, or the timeout. */
  function Verdict(labels: seq<Label>, r: nat): Option<Outcome> {
    if labels == [] then None
    else
      var init, l := labels[..|labels| - 1], labels[|labels| - 1];
      if Verdict(init, r).Some? then Verdict(init, r)
      else if l == LTimeout(r) then Some(TimedOut)
      else if l == LTake(r) && Replies(init, r) != [] then Some(Reply(Replies(init, r)[0]))
      else None
  }

  /** The record of request r that these labels call for. */
  ghost predicate Tells(labels: seq<Label>, w: World, r: nat) {
    && (r in w.reqs <==> LRequest(r) in labels)
    && (r !in w.reqs ==> Replies(labels, r) == [] && Verdict(labels, r).None?)
    && (r in w.reqs ==>
          var q := w.reqs[r];
          && q.arrived == Replies(labels, r)
          && q.outcome == Verdict(labels, r)
          && (q.alive <==> LTeardown(r) !in labels)
          && (q.pc.Closed? <==> LClose(r) in labels))
    && (r !in w.reqs ==> LTeardown(r) !in labels && LClose(r) !in labels)
  }

  lemma TellsStep(labels: seq<Label>, l: Label, w: World, w': World, r: nat)
    requires Inv(w) && Step(w, w', l) && Tells(labels, w, r)
    ensures Tells(labels + [l], w', r)
  {
    var labels' := labels + [l];
    assert labels'[..|labels|] == labels;
    assert forall k :: k in labels' <==> k in labels || k == l;
    if r in w.reqs { assert ReqOk(w.reqs[r]); }
  }

  /**
   Every run is told by its labels: a request is resolved by the first take or timeout and to what that calls for, its
   address lives until the teardown, and its Response is open until the close.
   */
  lemma {:induction false} ToldByLabels(run: seq<World>, labels: seq<Label>, i: nat, r: nat)
    requires Run(run, labels) && i < |run|
    ensures Tells(labels[..i], run[i], r)
  {
    if i > 0 {
      ToldByLabels(run, labels, i - 1, r);
      Safety(run, labels, i - 1);
      var l := labels[i - 1];
      TellsStep(labels[..i - 1], l, run[i - 1], run[i], r);
      assert labels[..i] == labels[..i - 1] + [l];
    }
  }

  lemma {:induction false} VerdictOf(labels: seq<Label>, r: nat)
    ensures Verdict(labels, r) == Some(TimedOut) ==> LTimeout(r) in labels
    ensures Verdict(labels, r).Some? && Verdict(labels, r).value.Reply? ==>
              LTake(r) in labels && Replies(labels, r) != [] && Verdict(labels, r).value.m == Replies(labels, r)[0]
  {
    if labels != [] {
      var init := labels[..|labels| - 1];
      VerdictOf(init, r);
      assert labels == init + [labels[|labels| - 1]];
    }
  }

  /** A timeout is reported only if one fired; without one, a resolved Response holds the first reply handled. */
  lemma TimedOutOnlyByTimeout(run: seq<World>, labels: seq<Label>, i: nat, r: nat)
    requires Run(run, labels) && i < |run| && r in run[i].reqs && run[i].reqs[r].outcome.Some?
    ensures run[i].reqs[r].outcome == Some(TimedOut) ==> LTimeout(r) in labels[..i]
    ensures LTimeout(r) !in labels[..i] ==>
              run[i].reqs[r].arrived != [] && run[i].reqs[r].outcome == Some(Reply(run[i].reqs[r].arrived[0]))
  {
    ToldByLabels(run, labels, i, r);
    VerdictOf(labels[..i], r);
    var out := run[i].reqs[r].outcome;
    assert out == Some(TimedOut) || out == Some(Reply(out.value.m));
  }

  /** await never hangs: an open request has a step of its own, and each of them brings it nearer its close. */
  function OpenFor(q: Req): nat {
    (if q.pc.Selecting? then 2 else if q.pc.Poisoning? then 1 else 0) + if q.alive then 1 else 0
  }

  predicate Own(l: Label, r: nat) { l == LTake(r) || l == LTimeout(r) || l == LTeardown(r) || l == LClose(r) }

  lemma RequestNeverStuck(run: seq<World>, labels: seq<Label>, i: nat, r: nat)
    requires Run(run, labels) && i < |run| && r in run[i].reqs && !run[i].reqs[r].pc.Closed?
    ensures exists l, w' :: Own(l, r) && Step(run[i], w', l)
    ensures forall l, w' :: Own(l, r) && Step(run[i], w', l) ==> OpenFor(w'.reqs[r]) < OpenFor(run[i].reqs[r])
  {
    Safety(run, labels, i);
    var w := run[i];
    var q := w.reqs[r];
    assert ReqOk(q);
    if q.pc.Selecting? {
      var w' := w.(reqs := w.reqs[r := q.(outcome := Some(TimedOut), pc := Poisoning)]);
      assert Own(LTimeout(r), r) && Step(w, w', LTimeout(r));
    } else if q.alive {
      var w' := w.(reqs := w.reqs[r := q.(alive := false)], reg := w.reg - {r});
      assert Own(LTeardown(r), r) && Step(w, w', LTeardown(r));
    } else {
      var w' := w.(reqs := w.reqs[r := q.(pc := Closed)]);
      assert Own(LClose(r), r) && Step(w, w', LClose(r));
    }
  }
}
