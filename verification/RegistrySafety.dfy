/**
 Safety and progress of the registry's locking: slots are exclusive, no reachable
 state is stuck, and the calls in flight finish within a computable number of steps.
 */
module RegistrySafety {
  import opened Prelude
  import opened RegistryModel
  import opened RegistryProtocol
  import WatchSet

  // --- Slots ---

  /** A slot is marked with the call that is inside it, and only then. */
  ghost predicate SlotsFit(slots: seq<Option<nat>>, calls: seq<Call>) {
    && (forall id :: 0 <= id < |calls| && Holds(calls[id].pc).Some? ==>
          Holds(calls[id].pc).value < |slots| && slots[Holds(calls[id].pc).value] == Some(id))
    && (forall x :: 0 <= x < |slots| && slots[x].Some? ==>
          slots[x].value < |calls| && Holds(calls[slots[x].value].pc) == Some(x))
  }

  predicate HasSlot(pc: Pc) { pc.Gate? || pc.Pay? || pc.Wait? || Holds(pc).Some? }

  /** Every slot named by a call or an adapter exists. */
  ghost predicate SlotsExist(s: State) {
    && (forall id :: 0 <= id < |s.calls| && HasSlot(s.calls[id].pc) ==> s.calls[id].pc.slot < |s.slots|)
    && (forall venue :: venue in s.adapters ==> s.adapters[venue].slot < |s.slots|)
  }

  ghost predicate SlotsSafe(s: State) { SlotsFit(s.slots, s.calls) && SlotsExist(s) }

  lemma NextPcSlot(limits: Limits, s: State, c: Call, a: Answer)
    requires HasSlot(c.pc) ==> c.pc.slot < |s.slots|
    requires forall venue :: venue in s.adapters ==> s.adapters[venue].slot < |s.slots|
    ensures var pc := NextPc(limits, s, c, a);
      && (HasSlot(pc) ==> pc.slot < |s.slots|)
      && (Holds(pc).Some? && Holds(c.pc).None? ==> c.pc.Wait? && pc.slot == c.pc.slot)
      && (Holds(pc).Some? && Holds(c.pc).Some? ==> pc.slot == c.pc.slot)
  {
  }

  /** Replacing one call's state keeps the slots fitting, when a slot it enters was free. */
  lemma ReplaceFits(slots: seq<Option<nat>>, calls: seq<Call>, id: nat, c: Call)
    requires id < |calls| && SlotsFit(slots, calls)
    requires var (before, after) := (Holds(calls[id].pc), Holds(c.pc));
      && (after.Some? ==> after.value < |slots|)
      && (before.None? && after.Some? ==> slots[after.value].None?)
      && (before.Some? && after.Some? ==> before == after)
    ensures SlotsFit(NextSlots(slots, id, calls[id].pc, c.pc), calls[id := c])
  {
  }

  lemma AdvanceSlotSafe(limits: Limits, s: State, id: nat, a: Answer)
    requires SlotsSafe(s) && Ready(s, id)
    ensures SlotsSafe(Move(limits, s, id, a))
  {
    hide NextPc, NextLedger, NextCharges, NextWatch, NextRest, SlotsFit;
    NextPcSlot(limits, s, s.calls[id], a);
    ReplaceFits(s.slots, s.calls, id, NextCall(limits, s, s.calls[id], a));
  }

  lemma OtherSlotSafe(s: State, s': State)
    requires SlotsSafe(s)
    requires |s.slots| <= |s'.slots| && s'.slots[..|s.slots|] == s.slots
    requires forall x :: |s.slots| <= x < |s'.slots| ==> s'.slots[x].None?
    requires |s.calls| <= |s'.calls| && s'.calls[..|s.calls|] == s.calls
    requires forall id :: |s.calls| <= id < |s'.calls| ==> s'.calls[id].pc.Start?
    requires forall venue :: venue in s'.adapters ==> s'.adapters[venue].slot < |s'.slots|
    ensures SlotsSafe(s')
  {
  }

  lemma StaysSlotSafe(limits: Limits, s: State, l: Label)
    requires SlotsSafe(s)
    ensures SlotsSafe(Apply(limits, s, l))
  {
    hide Move, Ready, Holds, HasSlot;
    match l
    case Advance(id, a) =>
      if Ready(s, id) {
        hide SlotsSafe;
        AdvanceSlotSafe(limits, s, id, a);
      }
    case Cancel(id) =>
      if id < |s.calls| {
        CancelSlotSafe(s, id);
      }
    case _ => OtherSlotSafe(s, Apply(limits, s, l));
  }

  lemma CancelSlotSafe(s: State, id: nat)
    requires SlotsSafe(s) && id < |s.calls|
    ensures SlotsSafe(Dropped(s, id))
  {
  }

  lemma {:induction false} AlwaysSlotSafe(limits: Limits, ls: seq<Label>)
    ensures SlotsSafe(Reached(limits, ls))
  {
    if ls != [] {
      AlwaysSlotSafe(limits, ls[..|ls| - 1]);
      StaysSlotSafe(limits, Reached(limits, ls[..|ls| - 1]), ls[|ls| - 1]);
    }
  }

  /** Calls to one venue serialise: no two calls are ever inside the same adapter slot. */
  lemma MutualExclusion(limits: Limits, ls: seq<Label>, i: nat, j: nat)
    requires i < j < |Reached(limits, ls).calls|
    ensures var calls := Reached(limits, ls).calls;
      Holds(calls[i].pc).Some? ==> Holds(calls[i].pc) != Holds(calls[j].pc)
  {
    AlwaysSlotSafe(limits, ls);
  }

  /** Deadlock freedom: while any call is unfinished, some call can take a step. */
  lemma SomeCallIsReady(limits: Limits, ls: seq<Label>, id: nat) returns (ready: nat)
    requires id < |Reached(limits, ls).calls| && !Reached(limits, ls).calls[id].pc.Done?
    ensures Ready(Reached(limits, ls), ready)
  {
    AlwaysSlotSafe(limits, ls);
    var s := Reached(limits, ls);
    if Ready(s, id) {
      ready := id;
    } else {
      ready := s.slots[s.calls[id].pc.slot].value;
    }
  }

  // --- Progress ---

  /** The most steps a call can still take. */
  function Rank(limits: Limits, c: Call): nat {
    match c.pc
    case Done => 0
    case Start => if c.kind.Poll? then 2 + 4 * limits.maxEntries else 8
    case Gate(_) => 7
    case Pay(_) => 6
    case Wait(_) => if c.kind.Poll? then 4 * |c.rest| else 5
    case Derive(_) => 4
    case PayDerived(_) => 3
    case PayGarbage(_) => 1
    case Send(_) => 2
    case WatchHeld(_, _) => 1
    case Price(_) => 4
    case Ask(_) => if c.kind.Poll? && c.rest != [] then 4 * |c.rest| - 1 else 4
    case WatchFree(_) => 1
    case Next => 1 + 4 * |c.rest|
    case Record(_) => if c.rest != [] then 4 * |c.rest| - 2 else 2
  }

  function TotalRank(limits: Limits, calls: seq<Call>): nat {
    if calls == [] then 0
    else TotalRank(limits, calls[..|calls| - 1]) + Rank(limits, calls[|calls| - 1])
  }

  lemma {:induction false} TotalRankUpdate(limits: Limits, calls: seq<Call>, id: nat, c: Call)
    requires id < |calls|
    ensures TotalRank(limits, calls[id := c]) == TotalRank(limits, calls) - Rank(limits, calls[id]) + Rank(limits, c)
  {
    hide Rank;
    var n := |calls| - 1;
    if id < n {
      TotalRankUpdate(limits, calls[..n], id, c);
      assert calls[id := c][..n] == calls[..n][id := c];
    } else {
      assert calls[id := c][..n] == calls[..n];
    }
  }

  /** While a poll is at an adapter, or about to record, it has a current receipt. */
  predicate PollFits(c: Call) {
    && (c.pc.Record? || c.pc.Next? ==> c.kind.Poll?)
    && (c.kind.Poll? && (c.pc.Wait? || c.pc.Ask? || c.pc.Record?) ==> c.rest != [])
    && (c.kind.Poll? ==> !c.pc.Gate? && !c.pc.Pay?)
  }

  lemma StepLowersRank(limits: Limits, s: State, c: Call, a: Answer)
    requires PollFits(c) && !c.pc.Done?
    requires |WatchSet.Retained(s.watch.entries, s.now)| <= limits.maxEntries
    ensures PollFits(NextCall(limits, s, c, a))
    ensures Rank(limits, NextCall(limits, s, c, a)) < Rank(limits, c)
  {
  }

  ghost predicate Steady(limits: Limits, s: State) {
    && WatchSet.Consistent(limits, s.watch)
    && forall id :: 0 <= id < |s.calls| ==> PollFits(s.calls[id])
  }

  lemma NextWatchConsistent(limits: Limits, s: State, c: Call)
    requires WatchSet.Consistent(limits, s.watch)
    ensures WatchSet.Consistent(limits, NextWatch(limits, s, c))
  {
    hide WatchSet.Consistent;
    match c.pc
    case Start => WatchSet.PruneConsistent(limits, s.watch, s.now);
    case WatchHeld(_, ref) => WatchSet.WatchConsistent(limits, s.watch, ref, s.now);
    case WatchFree(ref) => WatchSet.WatchConsistent(limits, s.watch, ref, s.now);
    case Record(status) =>
      if c.rest != [] { WatchSet.RecordConsistent(limits, s.watch, c.rest[0], status, s.now); }
    case _ =>
  }

  lemma MoveLowersRank(limits: Limits, s: State, id: nat, a: Answer)
    requires Steady(limits, s) && Ready(s, id)
    ensures Steady(limits, Move(limits, s, id, a))
    ensures TotalRank(limits, Move(limits, s, id, a).calls) < TotalRank(limits, s.calls)
  {
    hide NextCall, NextWatch, NextLedger, NextCharges, NextSlots, Rank, TotalRank, PollFits, WatchSet.Consistent;
    assert |WatchSet.Retained(s.watch.entries, s.now)| <= limits.maxEntries by { SnapshotFits(limits, s); }
    StepLowersRank(limits, s, s.calls[id], a);
    NextWatchConsistent(limits, s, s.calls[id]);
    TotalRankUpdate(limits, s.calls, id, NextCall(limits, s, s.calls[id], a));
  }

  /** What a poll snapshots is within the cap. */
  lemma SnapshotFits(limits: Limits, s: State)
    requires WatchSet.Consistent(limits, s.watch)
    ensures |WatchSet.Retained(s.watch.entries, s.now)| <= limits.maxEntries
  {
    hide WatchSet.Covers;
    WatchSet.PruneConsistent(limits, s.watch, s.now);
  }

  /** A step lowers the total rank; nothing but a new call raises it. */
  lemma ApplyLowersRank(limits: Limits, s: State, l: Label)
    requires Steady(limits, s)
    ensures var s' := Apply(limits, s, l);
      && Steady(limits, s')
      && (!l.Spawn? ==> TotalRank(limits, s'.calls) <= TotalRank(limits, s.calls))
      && (l.Advance? && Ready(s, l.id) ==> TotalRank(limits, s'.calls) < TotalRank(limits, s.calls))
  {
    hide Move, NextPc, NextRest, NextWatch, NextLedger, NextCharges, NextSlots, Rank, WatchSet.Consistent;
    match l
    case Advance(id, a) =>
      if Ready(s, id) {
        MoveLowersRank(limits, s, id, a);
      }
    case Cancel(id) =>
      if id < |s.calls| {
        var c := s.calls[id].(pc := Done);
        assert Rank(limits, c) == 0 by { RankOfDone(limits, c); }
        TotalRankUpdate(limits, s.calls, id, c);
      }
    case _ =>
  }

  lemma RankOfDone(limits: Limits, c: Call)
    requires c.pc.Done?
    ensures Rank(limits, c) == 0
  {
  }

  lemma {:induction false} AlwaysSteady(limits: Limits, ls: seq<Label>)
    ensures Steady(limits, Reached(limits, ls))
  {
    if ls != [] {
      AlwaysSteady(limits, ls[..|ls| - 1]);
      ApplyLowersRank(limits, Reached(limits, ls[..|ls| - 1]), ls[|ls| - 1]);
    }
  }

  /** Call steps taken after the first `from` labels. */
  function Work(limits: Limits, ls: seq<Label>, from: nat): nat {
    if |ls| <= from then 0
    else
      var before, l := ls[..|ls| - 1], ls[|ls| - 1];
      Work(limits, before, from) + if l.Advance? && Ready(Reached(limits, before), l.id) then 1 else 0
  }

  /** Every schedule finishes: once no new call arrives, the steps still taken, however interleaved
      with the clock, cancellations and adapters coming and going, are bounded by the total rank. */
  lemma {:induction false} WorkIsBounded(limits: Limits, ls: seq<Label>, from: nat)
    requires from <= |ls| && forall i :: from <= i < |ls| ==> !ls[i].Spawn?
    ensures Work(limits, ls, from) + TotalRank(limits, Reached(limits, ls).calls)
         <= TotalRank(limits, Reached(limits, ls[..from]).calls)
    decreases |ls|
  {
    if from < |ls| {
      var before := ls[..|ls| - 1];
      assert before[..from] == ls[..from];
      WorkIsBounded(limits, before, from);
      AlwaysSteady(limits, before);
      ApplyLowersRank(limits, Reached(limits, before), ls[|ls| - 1]);
    } else {
      assert ls[..from] == ls;
    }
  }
}
