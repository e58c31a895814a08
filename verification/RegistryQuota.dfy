/**
 The quota under concurrency. The gate and the charge are separate critical
 sections, so calls past the gate but not yet charged can overshoot; the bound on
 the overshoot is exact in how many such calls one caller has at a time.
 */
module RegistryQuota {
  import opened Prelude
  import opened RegistryModel
  import opened RegistryProtocol
  import opened QuotaLedger

  // --- The deques track the charge log ---

  ghost predicate LedgerTracks(limits: Limits, s: State) {
    forall caller :: Tracks(Lookup(s.ledger, caller), Lookup(s.charges, caller), s.now, limits.window)
  }

  lemma AdvanceTracks(limits: Limits, s: State, c: Call, caller: Caller)
    requires LedgerTracks(limits, s)
    ensures Tracks(Lookup(NextLedger(limits, s, c), caller), Lookup(NextCharges(s, c), caller), s.now, limits.window)
  {
    hide Tracks, Pruned, LedgerTracks;
    var history, log := Lookup(s.ledger, caller), Lookup(s.charges, caller);
    var kept := KeptHistory(limits, s, caller);
    KeptTracks(limits, s, caller);
    NextLookup(limits, s, c, caller);
    hide NextLedger, NextCharges, KeptHistory, Lookup;
    ChargeTracks(kept, log, s.now, limits.window);
  }

  lemma KeptTracks(limits: Limits, s: State, caller: Caller)
    requires LedgerTracks(limits, s)
    ensures var log := Lookup(s.charges, caller);
      && Tracks(Lookup(s.ledger, caller), log, s.now, limits.window)
      && Tracks(KeptHistory(limits, s, caller), log, s.now, limits.window)
      && |KeptHistory(limits, s, caller)| == CountWithin(log, s.now, limits.window)
  {
    CallerTracks(limits, s, caller);
    PruneTracks(Lookup(s.ledger, caller), Lookup(s.charges, caller), s.now, limits.window);
  }

  predicate Mine(c: Call, caller: Caller) { HasCaller(c.kind) && c.kind.caller == caller }

  predicate ChargedNow(c: Call, caller: Caller) { Mine(c, caller) && Charges(c.pc) }

  /** A caller's deque and log after one call's step. */
  lemma NextLookup(limits: Limits, s: State, c: Call, caller: Caller)
    ensures Lookup(NextCharges(s, c), caller) == Lookup(s.charges, caller) + (if ChargedNow(c, caller) then [s.now] else [])
    ensures var history := Lookup(NextLedger(limits, s, c), caller);
      history == if ChargedNow(c, caller) then KeptHistory(limits, s, caller) + [s.now]
                 else if Mine(c, caller) && c.pc.Gate? then KeptHistory(limits, s, caller)
                 else Lookup(s.ledger, caller)
  {
  }

  lemma CallerTracks(limits: Limits, s: State, caller: Caller)
    requires LedgerTracks(limits, s)
    ensures Tracks(Lookup(s.ledger, caller), Lookup(s.charges, caller), s.now, limits.window)
  {
  }

  lemma StepTracks(limits: Limits, s: State, l: Label)
    requires LedgerTracks(limits, s)
    ensures LedgerTracks(limits, Apply(limits, s, l))
  {
    hide Tracks, NextCall, NextWatch, NextSlots, NextLedger, NextCharges, Lookup;
    var s' := Apply(limits, s, l);
    forall caller ensures Tracks(Lookup(s'.ledger, caller), Lookup(s'.charges, caller), s'.now, limits.window) {
      if l.Advance? && Enabled(s, l) {
        AdvanceTracks(limits, s, s.calls[l.id], caller);
      } else {
        CallerTracks(limits, s, caller);
        LaterTracks(Lookup(s.ledger, caller), Lookup(s.charges, caller), s.now, s'.now, limits.window);
      }
    }
  }

  lemma {:induction false} AlwaysTracks(limits: Limits, ls: seq<Label>)
    ensures LedgerTracks(limits, Reached(limits, ls))
  {
    if ls != [] {
      AlwaysTracks(limits, ls[..|ls| - 1]);
      StepTracks(limits, Reached(limits, ls[..|ls| - 1]), ls[|ls| - 1]);
    }
  }

  // --- Calls of one caller past the gate and not yet charged ---

  predicate InFlight(c: Call, caller: Caller) {
    && HasCaller(c.kind) && c.kind.caller == caller
    && if c.kind.Quote? then c.pc.Pay?
       else c.pc.Wait? || c.pc.Derive? || c.pc.PayDerived? || c.pc.PayGarbage?
  }

  predicate PaidBy(c: Call, caller: Caller) {
    HasCaller(c.kind) && c.kind.caller == caller && c.paid
  }

  function CountInFlight(calls: seq<Call>, caller: Caller): nat {
    if calls == [] then 0
    else CountInFlight(calls[..|calls| - 1], caller) + if InFlight(calls[|calls| - 1], caller) then 1 else 0
  }

  function CountPaid(calls: seq<Call>, caller: Caller): nat {
    if calls == [] then 0
    else CountPaid(calls[..|calls| - 1], caller) + if PaidBy(calls[|calls| - 1], caller) then 1 else 0
  }

  lemma {:induction false} CountsUpdate(calls: seq<Call>, id: nat, c: Call, caller: Caller)
    requires id < |calls|
    ensures CountInFlight(calls[id := c], caller) == CountInFlight(calls, caller)
      - (if InFlight(calls[id], caller) then 1 else 0) + (if InFlight(c, caller) then 1 else 0)
    ensures CountPaid(calls[id := c], caller) == CountPaid(calls, caller)
      - (if PaidBy(calls[id], caller) then 1 else 0) + (if PaidBy(c, caller) then 1 else 0)
  {
    hide InFlight, PaidBy;
    var n := |calls| - 1;
    if id < n {
      CountsUpdate(calls[..n], id, c, caller);
      assert calls[id := c][..n] == calls[..n][id := c];
    } else {
      assert calls[id := c][..n] == calls[..n];
    }
  }

  // --- Every adapter submit or quote is paid for first, and nothing is paid twice ---

  /** Where a call must have been charged already, and where it cannot have been. */
  predicate PaidFits(c: Call) {
    && (c.pc.Send? || c.pc.WatchHeld? || c.pc.Price? ==> c.paid)
    && (c.pc.Start? || c.pc.Gate? || Charges(c.pc) ==> !c.paid)
    && (c.pc.Derive? ==> c.kind.Submit? && !c.paid)
    && (c.pc.Wait? ==> (c.kind.Submit? ==> !c.paid) && (c.kind.Quote? ==> c.paid))
    && (c.pc.Price? || c.pc.Pay? ==> c.kind.Quote?)
    && (c.pc.Gate? || Charges(c.pc) ==> HasCaller(c.kind))
    && (c.pc.Send? || c.pc.WatchHeld? || c.pc.PayDerived? || c.pc.PayGarbage? ==> c.kind.Submit?)
    && (c.pc.Next? || c.pc.Record? ==> c.kind.Poll?)
  }

  ghost predicate Accounted(s: State) {
    && (forall id :: 0 <= id < |s.calls| ==> PaidFits(s.calls[id]))
    && (forall caller :: |Lookup(s.charges, caller)| == CountPaid(s.calls, caller))
  }

  lemma NextPaidFits(limits: Limits, s: State, c: Call, a: Answer)
    requires PaidFits(c)
    ensures PaidFits(NextCall(limits, s, c, a))
  {
  }

  /** One more charge for a caller, exactly when one of its calls becomes charged. */
  lemma AdvanceAccounted(limits: Limits, s: State, id: nat, a: Answer, caller: Caller)
    requires id < |s.calls| && PaidFits(s.calls[id])
    requires |Lookup(s.charges, caller)| == CountPaid(s.calls, caller)
    ensures |Lookup(NextCharges(s, s.calls[id]), caller)|
         == CountPaid(s.calls[id := NextCall(limits, s, s.calls[id], a)], caller)
  {
    hide NextPc, NextRest, NextLedger, NextCharges, CountPaid, Lookup;
    NextLookup(limits, s, s.calls[id], caller);
    CountsUpdate(s.calls, id, NextCall(limits, s, s.calls[id], a), caller);
  }

  lemma MoveAccounted(limits: Limits, s: State, id: nat, a: Answer)
    requires Accounted(s) && id < |s.calls|
    ensures Accounted(Move(limits, s, id, a))
  {
    hide NextRest, NextWatch, NextSlots, NextLedger, NextCharges, NextCall, CountPaid, PaidFits, Lookup;
    var s' := Move(limits, s, id, a);
    NextPaidFits(limits, s, s.calls[id], a);
    forall caller ensures |Lookup(s'.charges, caller)| == CountPaid(s'.calls, caller) {
      AdvanceAccounted(limits, s, id, a, caller);
    }
  }

  lemma DroppedAccounted(s: State, id: nat)
    requires Accounted(s) && id < |s.calls|
    ensures Accounted(Dropped(s, id))
  {
    hide NextSlots, CountPaid, Lookup, PaidBy;
    var s' := Dropped(s, id);
    forall caller ensures |Lookup(s'.charges, caller)| == CountPaid(s'.calls, caller) {
      CountsUpdate(s.calls, id, s.calls[id].(pc := Done), caller);
      DroppedIsPaidAlike(s.calls[id], caller);
    }
  }

  lemma StepAccounted(limits: Limits, s: State, l: Label)
    requires Accounted(s)
    ensures Accounted(Apply(limits, s, l))
  {
    hide Move, Dropped, PaidBy;
    var s' := Apply(limits, s, l);
    match l
    case Advance(id, a) => if Ready(s, id) { MoveAccounted(limits, s, id, a); }
    case Cancel(id) => if id < |s.calls| { DroppedAccounted(s, id); }
    case Spawn(kind) =>
      forall caller ensures CountPaid(s'.calls, caller) == CountPaid(s.calls, caller) {
        SpawnCounts(s.calls, kind, caller);
      }
    case _ =>
  }

  /** Each caller's charges are one per charged call; at the adapter's submit or quote the call is charged. */
  lemma {:induction false} AlwaysAccounted(limits: Limits, ls: seq<Label>)
    ensures Accounted(Reached(limits, ls))
  {
    if ls != [] {
      AlwaysAccounted(limits, ls[..|ls| - 1]);
      StepAccounted(limits, Reached(limits, ls[..|ls| - 1]), ls[|ls| - 1]);
    }
  }

  // --- The bound ---

  /** At every state of the schedule the caller has at most `k` calls between gate and charge. */
  ghost predicate AtMostInFlight(limits: Limits, ls: seq<Label>, caller: Caller, k: nat) {
    forall i :: 0 <= i <= |ls| ==> CountInFlight(Reached(limits, ls[..i]).calls, caller) <= k
  }

  /** The charges of the caller in [at - window, at]. */
  function Spent(limits: Limits, s: State, caller: Caller, at: Time): nat {
    CountWithin(Lookup(s.charges, caller), at, limits.window)
  }

  ghost predicate Bounded(limits: Limits, s: State, caller: Caller, k: nat)
    requires 0 < k
  {
    && WindowsBounded(Lookup(s.charges, caller), s.now, limits.window, limits.maxCharges + k - 1)
    && Spent(limits, s, caller, s.now) + CountInFlight(s.calls, caller) <= limits.maxCharges + k - 1
  }

  /** Only the gate adds a call in flight, and each charge takes one away. */
  lemma NextInFlight(limits: Limits, s: State, c: Call, a: Answer, caller: Caller)
    requires PaidFits(c)
    ensures var c' := NextCall(limits, s, c, a);
      && (InFlight(c', caller) && !InFlight(c, caller) ==>
            !ChargedNow(c, caller) && UnderBudget(|KeptHistory(limits, s, caller)|, limits))
      && (ChargedNow(c, caller) ==> InFlight(c, caller) && !InFlight(c', caller))
  {
  }

  /** What one call's step does to a caller's charges and to its calls in flight. */
  lemma AdvanceBalance(limits: Limits, s: State, id: nat, a: Answer, caller: Caller)
    requires id < |s.calls| && PaidFits(s.calls[id]) && LedgerTracks(limits, s)
    ensures var s', c := Move(limits, s, id, a), s.calls[id];
      && s'.now == s.now
      && Lookup(s'.charges, caller) == Lookup(s.charges, caller) + (if ChargedNow(c, caller) then [s.now] else [])
      && (CountInFlight(s'.calls, caller) + (if ChargedNow(c, caller) then 1 else 0) <= CountInFlight(s.calls, caller)
          || (!ChargedNow(c, caller) && CountInFlight(s'.calls, caller) == CountInFlight(s.calls, caller) + 1
              && UnderBudget(Spent(limits, s, caller, s.now), limits)))
  {
    hide NextCall, NextWatch, NextSlots, NextLedger, NextCharges, KeptHistory, Lookup, CountWithin;
    hide Tracks, InFlight, PaidFits, LedgerTracks, ChargedNow, Mine, UnderBudget;
    var c := s.calls[id];
    NextInFlight(limits, s, c, a, caller);
    NextLookup(limits, s, c, caller);
    KeptTracks(limits, s, caller);
    CountsUpdate(s.calls, id, NextCall(limits, s, c, a), caller);
  }

  lemma AdvanceBounded(limits: Limits, s: State, id: nat, a: Answer, caller: Caller, k: nat)
    requires Built(limits) && 0 < k && limits.maxCharges + k <= 0x1_0000_0000
    requires id < |s.calls| && PaidFits(s.calls[id]) && LedgerTracks(limits, s) && Bounded(limits, s, caller, k)
    requires CountInFlight(Move(limits, s, id, a).calls, caller) <= k
    ensures Bounded(limits, Move(limits, s, id, a), caller, k)
  {
    hide Move, CountWithin, WindowsBounded, LedgerTracks, ChargedNow, CountInFlight, PaidFits, Lookup, UnderBudget;
    var log, bound := Lookup(s.charges, caller), limits.maxCharges + k - 1;
    AdvanceBalance(limits, s, id, a, caller);
    CastIsExact(Spent(limits, s, caller, s.now), limits);
    if ChargedNow(s.calls[id], caller) {
      ChargeBounded(log, s.now, limits.window, bound);
    } else {
      assert log + [] == log;
    }
  }

  lemma StepBounded(limits: Limits, s: State, l: Label, caller: Caller, k: nat)
    requires Built(limits) && 0 < k && limits.maxCharges + k <= 0x1_0000_0000
    requires LedgerTracks(limits, s) && Accounted(s) && Bounded(limits, s, caller, k)
    requires CountInFlight(Apply(limits, s, l).calls, caller) <= k
    ensures Bounded(limits, Apply(limits, s, l), caller, k)
  {
    hide Move, CountWithin, WindowsBounded, LedgerTracks, InFlight, ChargedNow;
    var s', log := Apply(limits, s, l), Lookup(s.charges, caller);
    assert !l.Advance? ==> Lookup(s'.charges, caller) == log;
    match l
    case Advance(id, a) =>
      if Ready(s, id) {
        AdvanceBounded(limits, s, id, a, caller, k);
      }
    case Cancel(id) =>
      if id < |s.calls| {
        CountsUpdate(s.calls, id, s.calls[id].(pc := Done), caller);
        DoneIsNotInFlight(s.calls[id], caller);
      }
    case Tick(elapsed) =>
      LogIsPast(limits, s, caller);
      TickBounded(log, s.now, s'.now, limits.window, limits.maxCharges + k - 1);
    case Spawn(kind) =>
      SpawnCounts(s.calls, kind, caller);
    case _ =>
  }

  lemma DoneIsNotInFlight(c: Call, caller: Caller)
    ensures !InFlight(c.(pc := Done), caller)
  {
  }

  lemma DroppedIsPaidAlike(c: Call, caller: Caller)
    ensures PaidBy(c.(pc := Done), caller) == PaidBy(c, caller)
  {
  }

  lemma SpawnCounts(calls: seq<Call>, kind: Kind, caller: Caller)
    ensures CountPaid(calls + [Call(kind, Start, [], false)], caller) == CountPaid(calls, caller)
    ensures CountInFlight(calls + [Call(kind, Start, [], false)], caller) == CountInFlight(calls, caller)
  {
  }

  lemma LogIsPast(limits: Limits, s: State, caller: Caller)
    requires LedgerTracks(limits, s)
    ensures Past(Lookup(s.charges, caller), s.now)
  {
  }

  /**
   The quota bound. If a caller never has more than k calls between passing the gate and
   being charged, then at every instant the charges of the last window number at most
   maxCharges + k - 1: with sequential calls (k = 1), exactly the configured budget.
   */
  lemma {:induction false} QuotaBound(limits: Limits, ls: seq<Label>, caller: Caller, k: nat)
    requires Built(limits) && 0 < k && limits.maxCharges + k <= 0x1_0000_0000
    requires AtMostInFlight(limits, ls, caller, k)
    ensures Bounded(limits, Reached(limits, ls), caller, k)
  {
    if ls == [] {
      assert Lookup(EMPTY.charges, caller) == [];
    } else {
      var before := ls[..|ls| - 1];
      assert forall i :: 0 <= i <= |before| ==> before[..i] == ls[..i];
      QuotaBound(limits, before, caller, k);
      AlwaysTracks(limits, before);
      AlwaysAccounted(limits, before);
      assert ls[..|ls|] == ls;
      StepBounded(limits, Reached(limits, before), ls[|ls| - 1], caller, k);
    }
  }

  lemma QuietHistory(limits: Limits, s: State, caller: Caller)
    requires Built(limits) && LedgerTracks(limits, s) && Aged(Lookup(s.charges, caller), s.now, limits.window)
    ensures Admits(KeptHistory(limits, s, caller), limits)
  {
    CallerTracks(limits, s, caller);
    QuietCallerIsAdmitted(Lookup(s.ledger, caller), Lookup(s.charges, caller), s.now, limits);
  }

  /** A caller with no charge in the last window, boundary included, passes the gate. */
  lemma QuietCallerPassesGate(limits: Limits, ls: seq<Label>, id: nat, a: Answer)
    requires Built(limits)
    requires id < |Reached(limits, ls).calls|
    requires var s, c := Reached(limits, ls), Reached(limits, ls).calls[id];
      c.pc.Gate? && HasCaller(c.kind) && Aged(Lookup(s.charges, c.kind.caller), s.now, limits.window)
    ensures !NextPc(limits, Reached(limits, ls), Reached(limits, ls).calls[id], a).Done?
  {
    hide Reached, KeptHistory, Admits, LedgerTracks, Aged, Lookup;
    AlwaysTracks(limits, ls);
    QuietHistory(limits, Reached(limits, ls), Reached(limits, ls).calls[id].kind.caller);
  }
}
