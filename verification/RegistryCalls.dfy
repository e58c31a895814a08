/**
 What a call that runs to its end has done, read off its schedule: a poll asks for, or
 skips, every receipt that was live when it began; a charged quote reaches its adapter;
 a submission is charged by how its header derived; an observed receipt is watched.
 */
module RegistryCalls {
  import opened Prelude
  import opened RegistryModel
  import opened RegistryProtocol
  import opened RegistrySafety
  import WatchSet

  // --- Steps of one call in a schedule ---

  function Before(limits: Limits, ls: seq<Label>, t: nat): State
    requires t <= |ls|
  {
    Reached(limits, ls[..t])
  }

  /** Label `t` is a step of call `id`, taken at `pc`. */
  predicate StepsAt(limits: Limits, ls: seq<Label>, id: nat, t: nat, pc: Pc) {
    t < |ls| && ls[t].Advance? && ls[t].id == id && Ready(Before(limits, ls, t), id) && Before(limits, ls, t).calls[id].pc == pc
  }

  /** The receipt a poll is at, before label `t`. */
  predicate Current(limits: Limits, ls: seq<Label>, id: nat, t: nat, ref: Ref) {
    && t <= |ls| && id < |Before(limits, ls, t).calls|
    && Before(limits, ls, t).calls[id].rest != [] && Before(limits, ls, t).calls[id].rest[0] == ref
  }

  predicate NeverCancelled(ls: seq<Label>, id: nat) {
    forall t :: 0 <= t < |ls| ==> ls[t] != Cancel(id)
  }

  function CallOf(limits: Limits, ls: seq<Label>, id: nat): Call
    requires id < |Reached(limits, ls).calls|
  {
    Reached(limits, ls).calls[id]
  }

  /** The last label moves the call as `NextCall` says, or leaves it as it was. */
  lemma LastStep(limits: Limits, ls: seq<Label>, id: nat)
    requires ls != [] && NeverCancelled(ls, id) && id < |Reached(limits, ls[..|ls| - 1]).calls|
    ensures var n := |ls| - 1; var s, s' := Reached(limits, ls[..n]), Reached(limits, ls);
      && id < |s'.calls| && ls[..n][..n] == ls[..n]
      && if ls[n].Advance? && ls[n].id == id && Ready(s, id)
         then s' == Move(limits, s, id, ls[n].answer) && s'.calls[id] == NextCall(limits, s, s.calls[id], ls[n].answer)
              && StepsAt(limits, ls, id, n, s.calls[id].pc)
         else s'.calls[id] == s.calls[id]
  {
    hide Move, NextCall, Dropped, Registered;
    var n := |ls| - 1;
    assert ls[n] != Cancel(id);
    LabelMoves(limits, Reached(limits, ls[..n]), id, ls[n]);
  }

  lemma LabelMoves(limits: Limits, s: State, id: nat, l: Label)
    requires id < |s.calls| && l != Cancel(id)
    ensures var s' := Apply(limits, s, l);
      && id < |s'.calls|
      && if l.Advance? && l.id == id && Ready(s, id)
         then s' == Move(limits, s, id, l.answer) && s'.calls[id] == NextCall(limits, s, s.calls[id], l.answer)
         else s'.calls[id] == s.calls[id]
  {
    hide NextCall, NextSlots, NextLedger, NextCharges, NextWatch;
  }

  /** What was so of a shorter schedule still is. */
  lemma Earlier(limits: Limits, ls: seq<Label>, t: nat)
    requires ls != [] && t < |ls|
    ensures Before(limits, ls, t) == Before(limits, ls[..|ls| - 1], t)
  {
    assert ls[..|ls| - 1][..t] == ls[..t];
  }

  // --- A poll asks for every live receipt ---

  /** At `t` the poll came to `ref`, whose venue resolved to `slot` then. */
  predicate ResolvedAt(limits: Limits, ls: seq<Label>, id: nat, t: nat, ref: Ref, slot: SlotId) {
    && StepsAt(limits, ls, id, t, Next) && Current(limits, ls, id, t, ref)
    && Resolve(Before(limits, ls, t).adapters, ref.venue) == Ok(slot)
  }

  /** At `t` the poll came to `ref`, and its venue did not resolve. */
  predicate SkippedAt(limits: Limits, ls: seq<Label>, id: nat, t: nat, ref: Ref) {
    && StepsAt(limits, ls, id, t, Next) && Current(limits, ls, id, t, ref)
    && Resolve(Before(limits, ls, t).adapters, ref.venue).Err?
  }

  /** Resolved at `t`, `ref` was asked about at that slot at `u`, and answered `a`. */
  predicate AskedAt(limits: Limits, ls: seq<Label>, id: nat, t: nat, u: nat, ref: Ref, slot: SlotId, a: Answer) {
    && t < u < |ls| && ResolvedAt(limits, ls, id, t, ref, slot)
    && StepsAt(limits, ls, id, u, Ask(slot)) && ls[u].answer == a && Current(limits, ls, id, u, ref)
  }

  /** At `v` the polled status was folded into the watch set as it stood. */
  predicate RecordedAt(limits: Limits, ls: seq<Label>, id: nat, v: nat, ref: Ref, status: Status) {
    && StepsAt(limits, ls, id, v, Record(status)) && Current(limits, ls, id, v, ref)
    && Before(limits, ls, v + 1).watch
       == WatchSet.RecordOne(limits, Before(limits, ls, v).watch, ref, status, Before(limits, ls, v).now)
  }

  /** The poll is done with `ref`: skipped for want of a venue, asked in vain, or asked and recorded. */
  ghost predicate Visited(limits: Limits, ls: seq<Label>, id: nat, ref: Ref) {
    || (exists t: nat :: SkippedAt(limits, ls, id, t, ref))
    || (exists t: nat, u: nat, slot: SlotId, a: Answer :: AskedAt(limits, ls, id, t, u, ref, slot, a) && !a.StatusIs?)
    || (exists t: nat, u: nat, slot: SlotId, status: Status, v: nat ::
          u < v && AskedAt(limits, ls, id, t, u, ref, slot, StatusIs(status)) && RecordedAt(limits, ls, id, v, ref, status))
  }

  /** What the poll has in hand. */
  ghost predicate InHand(limits: Limits, ls: seq<Label>, id: nat, c: Call) {
    match c.pc
    case Next => true
    case Done => c.rest == []
    case Wait(slot) => c.rest != [] && exists t: nat :: ResolvedAt(limits, ls, id, t, c.rest[0], slot)
    case Ask(slot) => c.rest != [] && exists t: nat :: ResolvedAt(limits, ls, id, t, c.rest[0], slot)
    case Record(status) =>
      c.rest != [] && exists t: nat, u: nat, slot: SlotId :: AskedAt(limits, ls, id, t, u, c.rest[0], slot, StatusIs(status))
    case _ => false
  }

  /** `listed` is what the poll began with; it is done with all but the rest. */
  ghost predicate Along(limits: Limits, ls: seq<Label>, id: nat, listed: seq<Ref>, c: Call) {
    && c.kind.Poll? && InHand(limits, ls, id, c)
    && |c.rest| <= |listed| && listed[|listed| - |c.rest|..] == c.rest
    && forall i :: 0 <= i < |listed| - |c.rest| ==> Visited(limits, ls, id, listed[i])
  }

  ghost predicate Progress(limits: Limits, ls: seq<Label>, id: nat, listed: seq<Ref>) {
    id < |Reached(limits, ls).calls| && Along(limits, ls, id, listed, CallOf(limits, ls, id))
  }

  lemma StillResolved(limits: Limits, ls: seq<Label>, id: nat, t: nat, ref: Ref, slot: SlotId)
    requires ls != [] && ResolvedAt(limits, ls[..|ls| - 1], id, t, ref, slot)
    ensures ResolvedAt(limits, ls, id, t, ref, slot)
  {
    Earlier(limits, ls, t);
  }

  lemma StillAsked(limits: Limits, ls: seq<Label>, id: nat, t: nat, u: nat, ref: Ref, slot: SlotId, a: Answer)
    requires ls != [] && AskedAt(limits, ls[..|ls| - 1], id, t, u, ref, slot, a)
    ensures AskedAt(limits, ls, id, t, u, ref, slot, a)
  {
    Earlier(limits, ls, t);
    Earlier(limits, ls, u);
  }

  lemma StillVisited(limits: Limits, ls: seq<Label>, id: nat, ref: Ref)
    requires ls != [] && Visited(limits, ls[..|ls| - 1], id, ref)
    ensures Visited(limits, ls, id, ref)
  {
    var b := ls[..|ls| - 1];
    hide StepsAt, Current;
    if t: nat :| SkippedAt(limits, b, id, t, ref) {
      Earlier(limits, ls, t);
      StillSkipped(limits, ls, id, t, ref);
    } else if t: nat, u: nat, slot: SlotId, a: Answer :| AskedAt(limits, b, id, t, u, ref, slot, a) && !a.StatusIs? {
      StillAsked(limits, ls, id, t, u, ref, slot, a);
    } else {
      var t: nat, u: nat, slot: SlotId, status: Status, v: nat :|
        u < v && AskedAt(limits, b, id, t, u, ref, slot, StatusIs(status)) && RecordedAt(limits, b, id, v, ref, status);
      StillAsked(limits, ls, id, t, u, ref, slot, StatusIs(status));
      StillRecorded(limits, ls, id, v, ref, status);
    }
  }

  lemma StillSkipped(limits: Limits, ls: seq<Label>, id: nat, t: nat, ref: Ref)
    requires ls != [] && SkippedAt(limits, ls[..|ls| - 1], id, t, ref)
    ensures SkippedAt(limits, ls, id, t, ref)
  {
    Earlier(limits, ls, t);
  }

  lemma StillRecorded(limits: Limits, ls: seq<Label>, id: nat, v: nat, ref: Ref, status: Status)
    requires ls != [] && RecordedAt(limits, ls[..|ls| - 1], id, v, ref, status)
    ensures RecordedAt(limits, ls, id, v, ref, status)
  {
    Earlier(limits, ls, v);
    Earlier(limits, ls, v + 1);
  }

  lemma StillInHand(limits: Limits, ls: seq<Label>, id: nat, c: Call)
    requires ls != [] && InHand(limits, ls[..|ls| - 1], id, c)
    ensures InHand(limits, ls, id, c)
  {
    var b := ls[..|ls| - 1];
    hide ResolvedAt, AskedAt;
    if c.pc.Wait? || c.pc.Ask? {
      var t: nat :| ResolvedAt(limits, b, id, t, c.rest[0], c.pc.slot);
      StillResolved(limits, ls, id, t, c.rest[0], c.pc.slot);
    } else if c.pc.Record? {
      var t: nat, u: nat, slot: SlotId :| AskedAt(limits, b, id, t, u, c.rest[0], slot, StatusIs(c.pc.status));
      StillAsked(limits, ls, id, t, u, c.rest[0], slot, StatusIs(c.pc.status));
    }
  }

  /** How a poll moves, once begun. */
  lemma PollMoves(limits: Limits, s: State, c: Call, a: Answer)
    requires c.kind.Poll? && (c.pc.Next? || ((c.pc.Wait? || c.pc.Ask? || c.pc.Record?) && c.rest != []))
    ensures var c' := NextCall(limits, s, c, a);
      && c'.kind == c.kind
      && (c.pc.Next? && c.rest == [] ==> c'.pc.Done? && c'.rest == [])
      && (c.pc.Next? && c.rest != [] && Resolve(s.adapters, c.rest[0].venue).Err? ==> c'.pc.Next? && c'.rest == c.rest[1..])
      && (c.pc.Next? && c.rest != [] && Resolve(s.adapters, c.rest[0].venue).Ok? ==>
            c'.pc == Wait(Resolve(s.adapters, c.rest[0].venue).value) && c'.rest == c.rest)
      && (c.pc.Wait? ==> c'.pc == Ask(c.pc.slot) && c'.rest == c.rest)
      && (c.pc.Ask? && a.StatusIs? ==> c'.pc == Record(a.status) && c'.rest == c.rest)
      && (c.pc.Ask? && !a.StatusIs? ==> c'.pc.Next? && c'.rest == c.rest[1..])
      && (c.pc.Record? ==> c'.pc.Next? && c'.rest == c.rest[1..])
  {
  }

  /** The last label is a step of poll `id`, begun and not done, whose call then was `c`. */
  ghost predicate PollsLast(limits: Limits, ls: seq<Label>, id: nat, c: Call) {
    && ls != [] && var n := |ls| - 1;
    && StepsAt(limits, ls, id, n, c.pc) && Before(limits, ls, n).calls[id] == c
    && c.kind.Poll? && !c.pc.Done? && InHand(limits, ls[..n], id, c)
    && Reached(limits, ls) == Move(limits, Before(limits, ls, n), id, ls[n].answer)
  }

  lemma PollTurns(limits: Limits, ls: seq<Label>, id: nat, c: Call)
    requires PollsLast(limits, ls, id, c)
    ensures ls != [] && ls[|ls| - 1].Advance? && id < |Reached(limits, ls).calls|
    ensures InHand(limits, ls, id, c)
    ensures var s, a, c' := Before(limits, ls, |ls| - 1), ls[|ls| - 1].answer, CallOf(limits, ls, id);
      && c'.kind.Poll?
      && (c.pc.Next? && c.rest == [] ==> c'.pc.Done? && c'.rest == [])
      && (c.pc.Next? && c.rest != [] && Resolve(s.adapters, c.rest[0].venue).Err? ==> c'.pc.Next? && c'.rest == c.rest[1..])
      && (c.pc.Next? && c.rest != [] && Resolve(s.adapters, c.rest[0].venue).Ok? ==>
            c'.pc == Wait(Resolve(s.adapters, c.rest[0].venue).value) && c'.rest == c.rest)
      && (c.pc.Wait? ==> c'.pc == Ask(c.pc.slot) && c'.rest == c.rest)
      && (c.pc.Ask? && a.StatusIs? ==> c'.pc == Record(a.status) && c'.rest == c.rest)
      && (c.pc.Ask? && !a.StatusIs? ==> c'.pc.Next? && c'.rest == c.rest[1..])
      && (c.pc.Record? ==> c'.pc.Next? && c'.rest == c.rest[1..])
  {
    StillInHand(limits, ls, id, c);
    PollMoves(limits, Before(limits, ls, |ls| - 1), c, ls[|ls| - 1].answer);
    hide Reached, NextCall, NextSlots, NextLedger, NextCharges, NextWatch, ResolvedAt, AskedAt;
  }

  /** One step of the poll: it keeps what it has in hand, or is done with the receipt it was at. */
  ghost predicate Advances(limits: Limits, ls: seq<Label>, id: nat, c: Call, c': Call) {
    && c'.kind.Poll? && InHand(limits, ls, id, c')
    && (c'.rest == c.rest || (c.rest != [] && c'.rest == c.rest[1..] && Visited(limits, ls, id, c.rest[0])))
  }

  lemma PollStep(limits: Limits, ls: seq<Label>, id: nat, c: Call)
    requires PollsLast(limits, ls, id, c)
    ensures id < |Reached(limits, ls).calls| && Advances(limits, ls, id, c, CallOf(limits, ls, id))
  {
    PollTurns(limits, ls, id, c);
    hide PollsLast, Reached, Visited, Advances;
    match c.pc
    case Next => PollStepsOn(limits, ls, id, c);
    case Wait(_) => PollEnters(limits, ls, id, c);
    case Ask(_) => PollHears(limits, ls, id, c);
    case Record(_) => PollFolds(limits, ls, id, c);
    case _ =>
  }

  lemma PollEnters(limits: Limits, ls: seq<Label>, id: nat, c: Call)
    requires PollsLast(limits, ls, id, c) && c.pc.Wait?
    ensures id < |Reached(limits, ls).calls| && Advances(limits, ls, id, c, CallOf(limits, ls, id))
  {
    PollTurns(limits, ls, id, c);
    hide PollsLast, Reached, ResolvedAt, AskedAt, Visited;
  }

  lemma PollStepsOn(limits: Limits, ls: seq<Label>, id: nat, c: Call)
    requires PollsLast(limits, ls, id, c) && c.pc.Next?
    ensures id < |Reached(limits, ls).calls| && Advances(limits, ls, id, c, CallOf(limits, ls, id))
  {
    PollTurns(limits, ls, id, c);
    hide PollsLast, Reached, ResolvedAt, AskedAt, Visited, Resolve;
    if c.rest != [] { PollComesTo(limits, ls, id, c); }
  }

  lemma AskTurns(limits: Limits, ls: seq<Label>, id: nat, c: Call)
    requires PollsLast(limits, ls, id, c) && c.pc.Ask?
    ensures ls != [] && ls[|ls| - 1].Advance? && id < |Reached(limits, ls).calls| && c.rest != []
    ensures var a, c' := ls[|ls| - 1].answer, CallOf(limits, ls, id);
      && c'.kind.Poll?
      && (a.StatusIs? ==> c'.pc == Record(a.status) && c'.rest == c.rest)
      && (!a.StatusIs? ==> c'.pc.Next? && c'.rest == c.rest[1..])
  {
    PollTurns(limits, ls, id, c);
    hide PollsLast, Reached, ResolvedAt, AskedAt;
  }

  lemma RecordTurns(limits: Limits, ls: seq<Label>, id: nat, c: Call)
    requires PollsLast(limits, ls, id, c) && c.pc.Record?
    ensures ls != [] && id < |Reached(limits, ls).calls| && c.rest != []
    ensures var c' := CallOf(limits, ls, id); c'.kind.Poll? && c'.pc.Next? && c'.rest == c.rest[1..]
  {
    PollTurns(limits, ls, id, c);
    hide PollsLast, Reached, ResolvedAt, AskedAt;
  }

  lemma PollHears(limits: Limits, ls: seq<Label>, id: nat, c: Call)
    requires PollsLast(limits, ls, id, c) && c.pc.Ask?
    ensures id < |Reached(limits, ls).calls| && Advances(limits, ls, id, c, CallOf(limits, ls, id))
  {
    hide PollsLast, Reached, ResolvedAt, AskedAt, Visited;
    AskTurns(limits, ls, id, c);
    PollAsks(limits, ls, id, c);
  }

  lemma PollFolds(limits: Limits, ls: seq<Label>, id: nat, c: Call)
    requires PollsLast(limits, ls, id, c) && c.pc.Record?
    ensures id < |Reached(limits, ls).calls| && Advances(limits, ls, id, c, CallOf(limits, ls, id))
  {
    RecordTurns(limits, ls, id, c);
    PollRecords(limits, ls, id, c);
    assert InHand(limits, ls[..|ls| - 1], id, c);
    hide PollsLast, Reached, ResolvedAt, AskedAt, RecordedAt, Visited;
    RecordedVisits(limits, ls, id, c, c.pc.status);
  }

  lemma PollComesTo(limits: Limits, ls: seq<Label>, id: nat, c: Call)
    requires PollsLast(limits, ls, id, c) && c.pc.Next? && c.rest != []
    ensures var n := |ls| - 1; var r := Resolve(Before(limits, ls, n).adapters, c.rest[0].venue);
      && (r.Err? ==> Visited(limits, ls, id, c.rest[0]))
      && (r.Ok? ==> exists t: nat :: ResolvedAt(limits, ls, id, t, c.rest[0], r.value))
  {
    hide Reached;
    var n := |ls| - 1;
    var r := Resolve(Before(limits, ls, n).adapters, c.rest[0].venue);
    if r.Ok? {
      assert ResolvedAt(limits, ls, id, n, c.rest[0], r.value);
    } else {
      assert SkippedAt(limits, ls, id, n, c.rest[0]);
    }
  }

  lemma PollAsks(limits: Limits, ls: seq<Label>, id: nat, c: Call)
    requires PollsLast(limits, ls, id, c) && c.pc.Ask?
    ensures var a := ls[|ls| - 1].answer;
      && c.rest != []
      && (!a.StatusIs? ==> Visited(limits, ls, id, c.rest[0]))
      && (a.StatusIs? ==> exists t: nat, u: nat, slot: SlotId :: AskedAt(limits, ls, id, t, u, c.rest[0], slot, a))
  {
    hide Reached;
    var n := |ls| - 1;
    var t: nat :| ResolvedAt(limits, ls[..n], id, t, c.rest[0], c.pc.slot);
    StillResolved(limits, ls, id, t, c.rest[0], c.pc.slot);
    assert AskedAt(limits, ls, id, t, n, c.rest[0], c.pc.slot, ls[n].answer);
  }

  lemma PollRecords(limits: Limits, ls: seq<Label>, id: nat, c: Call)
    requires PollsLast(limits, ls, id, c) && c.pc.Record?
    ensures c.rest != [] && RecordedAt(limits, ls, id, |ls| - 1, c.rest[0], c.pc.status)
  {
    hide NextCall, NextSlots, NextLedger, NextCharges;
    assert ls[..|ls|] == ls;
  }

  lemma RecordedVisits(limits: Limits, ls: seq<Label>, id: nat, c: Call, status: Status)
    requires ls != [] && c.pc == Record(status) && InHand(limits, ls[..|ls| - 1], id, c)
    requires RecordedAt(limits, ls, id, |ls| - 1, c.rest[0], status)
    ensures Visited(limits, ls, id, c.rest[0])
  {
    hide RecordedAt;
    var t: nat, u: nat, slot: SlotId :| AskedAt(limits, ls[..|ls| - 1], id, t, u, c.rest[0], slot, StatusIs(status));
    StillAsked(limits, ls, id, t, u, c.rest[0], slot, StatusIs(status));
  }

  lemma {:induction false} PollProgress(limits: Limits, ls: seq<Label>, id: nat, t: nat)
    requires t < |ls| && StepsAt(limits, ls, id, t, Start) && Before(limits, ls, t).calls[id].kind.Poll?
    requires NeverCancelled(ls, id)
    ensures id < |Before(limits, ls, t + 1).calls|
    ensures Progress(limits, ls, id, CallOf(limits, ls[..t + 1], id).rest)
    decreases |ls|
  {
    var n := |ls| - 1;
    if t == n {
      assert ls[..t + 1] == ls;
      hide NextLedger, NextCharges, NextSlots, NextWatch;
      LastStep(limits, ls, id);
    } else {
      var b := ls[..n];
      Earlier(limits, ls, t);
      Earlier(limits, ls, t + 1);
      assert b[..t + 1] == ls[..t + 1];
      PollProgress(limits, b, id, t);
      LastStep(limits, ls, id);
      ProgressStep(limits, ls, id, CallOf(limits, ls[..t + 1], id).rest);
    }
  }

  lemma PollIsLast(limits: Limits, ls: seq<Label>, id: nat)
    requires ls != [] && var n := |ls| - 1;
      && ls[n].Advance? && ls[n].id == id && Ready(Reached(limits, ls[..n]), id)
      && CallOf(limits, ls[..n], id).kind.Poll? && InHand(limits, ls[..n], id, CallOf(limits, ls[..n], id))
    ensures PollsLast(limits, ls, id, CallOf(limits, ls[..|ls| - 1], id))
  {
    hide Move;
  }

  lemma AlongStill(limits: Limits, ls: seq<Label>, id: nat, listed: seq<Ref>, c: Call)
    requires ls != [] && Along(limits, ls[..|ls| - 1], id, listed, c)
    ensures Along(limits, ls, id, listed, c)
  {
    hide Visited, InHand;
    StillInHand(limits, ls, id, c);
    forall i | 0 <= i < |listed| - |c.rest| ensures Visited(limits, ls, id, listed[i]) {
      StillVisited(limits, ls, id, listed[i]);
    }
  }

  lemma AlongAdvances(limits: Limits, ls: seq<Label>, id: nat, listed: seq<Ref>, c: Call, c': Call)
    requires Along(limits, ls, id, listed, c) && Advances(limits, ls, id, c, c')
    ensures Along(limits, ls, id, listed, c')
  {
    hide Visited, InHand;
    if c'.rest != c.rest {
      var n := |listed| - |c.rest|;
      assert listed[n] == c.rest[0] && listed[n + 1..] == c.rest[1..];
    }
  }

  lemma ProgressStep(limits: Limits, ls: seq<Label>, id: nat, listed: seq<Ref>)
    requires ls != [] && NeverCancelled(ls, id) && Progress(limits, ls[..|ls| - 1], id, listed)
    ensures Progress(limits, ls, id, listed)
  {
    var b := ls[..|ls| - 1];
    var c := CallOf(limits, b, id);
    LastStep(limits, ls, id);
    AlongStill(limits, ls, id, listed, c);
    AlongInHand(limits, b, id, listed, c);
    hide Along, InHand, Reached, Move, NextCall, Ready, StepsAt, Advances;
    if ls[|ls| - 1].Advance? && ls[|ls| - 1].id == id && Ready(Reached(limits, b), id) {
      PollIsLast(limits, ls, id);
      PollStep(limits, ls, id, c);
      AlongAdvances(limits, ls, id, listed, c, CallOf(limits, ls, id));
    }
  }

  lemma AlongInHand(limits: Limits, ls: seq<Label>, id: nat, listed: seq<Ref>, c: Call)
    requires Along(limits, ls, id, listed, c)
    ensures c.kind.Poll? && InHand(limits, ls, id, c)
  {
  }

  /** What a poll sets out to ask for: exactly the receipts whose watch has no deadline or one still
      ahead, each of them once. */
  lemma PollListsTheLive(limits: Limits, ls: seq<Label>, id: nat, t: nat)
    requires StepsAt(limits, ls, id, t, Start) && Before(limits, ls, t).calls[id].kind.Poll?
    ensures id < |Before(limits, ls, t + 1).calls|
    ensures var s, listed := Before(limits, ls, t), Before(limits, ls, t + 1).calls[id].rest;
      && (forall ref :: ref in listed <==> (exists w :: w in s.watch.entries && w.ref == ref && (w.expiresAt == None || s.now < w.expiresAt.value)))
      && forall i, j :: 0 <= i < j < |listed| ==> listed[i] != listed[j]
  {
    var s, a := Before(limits, ls, t), ls[t].answer;
    assert ls[..t + 1][..t] == ls[..t];
    AlwaysSteady(limits, ls[..t]);
    hide Reached, NextLedger, NextCharges, NextSlots;
    assert Before(limits, ls, t + 1) == Move(limits, s, id, a) by { MoveIsNext(limits, ls, t); }
    var kept := WatchSet.Retained(s.watch.entries, s.now);
    assert Before(limits, ls, t + 1).calls[id].rest == RefsOf(kept);
    WatchSet.PruneConsistent(limits, s.watch, s.now);
    hide WatchSet.Retained, NextPc, NextWatch;
    forall w ensures w in kept <==> w in s.watch.entries && (w.expiresAt == None || s.now < w.expiresAt.value) {
      WatchSet.RetainedExactly(s.watch.entries, s.now, w);
    }
    RefsOfEntries(kept);
  }

  lemma RefsOfEntries(entries: seq<WatchSet.Entry>)
    ensures forall ref :: ref in RefsOf(entries) <==> exists w :: w in entries && w.ref == ref
  {
    forall w | w in entries ensures w.ref in RefsOf(entries) {
      var i :| 0 <= i < |entries| && entries[i] == w;
      assert RefsOf(entries)[i] == w.ref;
    }
    forall ref | ref in RefsOf(entries) ensures exists w :: w in entries && w.ref == ref {
      var i :| 0 <= i < |entries| && RefsOf(entries)[i] == ref;
      assert entries[i] in entries;
    }
  }

  lemma MoveIsNext(limits: Limits, ls: seq<Label>, t: nat)
    requires t < |ls| && ls[t].Advance? && Ready(Before(limits, ls, t), ls[t].id)
    ensures Before(limits, ls, t + 1) == Move(limits, Before(limits, ls, t), ls[t].id, ls[t].answer)
  {
    hide Move;
    assert ls[..t + 1][..t] == ls[..t];
  }

  /** A poll that runs to its end, in any schedule, has visited every receipt it set out to ask for: it
      asked the venue at the slot it resolved to then and recorded the status it was given, or was
      refused one, or it skipped the receipt because the venue did not resolve. */
  lemma PollVisitsAll(limits: Limits, ls: seq<Label>, id: nat, t: nat, ref: Ref)
    requires StepsAt(limits, ls, id, t, Start) && Before(limits, ls, t).calls[id].kind.Poll?
    requires NeverCancelled(ls, id) && id < |Reached(limits, ls).calls| && CallOf(limits, ls, id).pc.Done?
    requires id < |Before(limits, ls, t + 1).calls| && ref in Before(limits, ls, t + 1).calls[id].rest
    ensures Visited(limits, ls, id, ref)
  {
    PollProgress(limits, ls, id, t);
  }
}
