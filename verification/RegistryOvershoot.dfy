/**
 The quota bound is tight. Schedules of the concurrent registry are built that reach
 it, so the bound holds exactly while the 32-bit cast is exact, and the configured
 budget bounds the window exactly for callers with one call at a time.
 */
module RegistryOvershoot {
  import opened Prelude
  import opened RegistryModel
  import opened RegistryProtocol
  import opened QuotaLedger
  import opened RegistryQuota

  function AtZero(n: nat): seq<Time> { seq(n, _ => 0) }

  /** `caller` has made `charged` charges, all at instant 0, and its last `queued` calls are submissions
      past the gate that wait for the one, free, adapter slot; it has no others uncharged. */
  ghost predicate Staged(s: State, caller: Caller, venue: Venue, charged: nat, queued: nat) {
    && s.now == 0 && Resolve(s.adapters, venue) == Ok(0) && s.slots == [None]
    && Lookup(s.charges, caller) == AtZero(charged) && Lookup(s.ledger, caller) == AtZero(charged)
    && queued <= |s.calls| && CountInFlight(s.calls, caller) == queued
    && forall id :: |s.calls| - queued <= id < |s.calls| ==> s.calls[id] == Sub(caller, venue, Wait(0), false)
  }

  /** A submission at `pc`. */
  function Sub(caller: Caller, venue: Venue, pc: Pc, paid: bool): Call { Call(Submit(caller, venue), pc, [], paid) }

  /** `ls` leads there with never more than `k` calls of the caller between gate and charge. */
  ghost predicate Stages(limits: Limits, ls: seq<Label>, caller: Caller, venue: Venue, charged: nat, queued: nat, k: nat) {
    AtMostInFlight(limits, ls, caller, k) && Staged(Reached(limits, ls), caller, venue, charged, queued)
  }

  lemma Append(limits: Limits, ls: seq<Label>, l: Label, caller: Caller, k: nat)
    requires AtMostInFlight(limits, ls, caller, k)
    requires CountInFlight(Apply(limits, Reached(limits, ls), l).calls, caller) <= k
    ensures Reached(limits, ls + [l]) == Apply(limits, Reached(limits, ls), l)
    ensures AtMostInFlight(limits, ls + [l], caller, k)
  {
    hide Apply, CountInFlight;
    var more := ls + [l];
    assert more[..|more| - 1] == ls && more[..|more|] == more;
    assert forall i :: 0 <= i <= |ls| ==> more[..i] == ls[..i];
  }

  lemma FreshIsKept(n: nat, window: nat)
    ensures Pruned(AtZero(n), 0, window) == AtZero(n)
  {
  }

  // --- One submission through the gate, and one charge ---

  lemma Spawned(limits: Limits, s: State, caller: Caller, venue: Venue)
    ensures var s' := Apply(limits, s, Spawn(Submit(caller, venue)));
      && s' == s.(calls := s.calls + [Sub(caller, venue, Start, false)])
      && CountInFlight(s'.calls, caller) == CountInFlight(s.calls, caller)
  {
    SpawnCounts(s.calls, Submit(caller, venue), caller);
  }

  lemma Resolved(limits: Limits, s: State, id: nat, caller: Caller, venue: Venue)
    requires id < |s.calls| && s.calls[id] == Sub(caller, venue, Start, false)
    requires Resolve(s.adapters, venue) == Ok(0)
    ensures var s' := Apply(limits, s, Advance(id, Header));
      && s' == s.(calls := s.calls[id := Sub(caller, venue, Gate(0), false)])
      && CountInFlight(s'.calls, caller) == CountInFlight(s.calls, caller)
  {
    CountsUpdate(s.calls, id, Sub(caller, venue, Gate(0), false), caller);
  }

  lemma Gated(limits: Limits, s: State, id: nat, caller: Caller, venue: Venue, charged: nat)
    requires id < |s.calls| && s.calls[id] == Sub(caller, venue, Gate(0), false)
    requires s.now == 0 && Lookup(s.ledger, caller) == AtZero(charged) && UnderBudget(charged, limits)
    ensures var s' := Apply(limits, s, Advance(id, Header));
      && s' == s.(ledger := s.ledger[caller := AtZero(charged)], calls := s.calls[id := Sub(caller, venue, Wait(0), false)])
      && CountInFlight(s'.calls, caller) == CountInFlight(s.calls, caller) + 1
  {
    FreshIsKept(charged, limits.window);
    CountsUpdate(s.calls, id, Sub(caller, venue, Wait(0), false), caller);
  }

  lemma Served(limits: Limits, s: State, id: nat, caller: Caller, venue: Venue)
    requires id < |s.calls| && s.calls[id] == Sub(caller, venue, Wait(0), false) && s.slots == [None]
    ensures var s' := Apply(limits, s, Advance(id, Header));
      && s' == s.(slots := [Some(id)], calls := s.calls[id := Sub(caller, venue, Derive(0), false)])
      && CountInFlight(s'.calls, caller) == CountInFlight(s.calls, caller)
  {
    CountsUpdate(s.calls, id, Sub(caller, venue, Derive(0), false), caller);
  }

  lemma Derived(limits: Limits, s: State, id: nat, caller: Caller, venue: Venue)
    requires id < |s.calls| && s.calls[id] == Sub(caller, venue, Derive(0), false)
    ensures var s' := Apply(limits, s, Advance(id, Header));
      && s' == s.(calls := s.calls[id := Sub(caller, venue, PayDerived(0), false)])
      && CountInFlight(s'.calls, caller) == CountInFlight(s.calls, caller)
  {
    CountsUpdate(s.calls, id, Sub(caller, venue, PayDerived(0), false), caller);
  }

  lemma Charged(limits: Limits, s: State, id: nat, caller: Caller, venue: Venue, charged: nat)
    requires id < |s.calls| && s.calls[id] == Sub(caller, venue, PayDerived(0), false)
    requires s.now == 0 && Lookup(s.ledger, caller) == AtZero(charged) && Lookup(s.charges, caller) == AtZero(charged)
    ensures var s' := Apply(limits, s, Advance(id, Header));
      && s' == s.(ledger := s.ledger[caller := AtZero(charged + 1)], charges := s.charges[caller := AtZero(charged + 1)],
                  calls := s.calls[id := Sub(caller, venue, Send(0), true)])
      && CountInFlight(s'.calls, caller) == CountInFlight(s.calls, caller) - 1
  {
    FreshIsKept(charged, limits.window);
    assert AtZero(charged) + [0] == AtZero(charged + 1);
    CountsUpdate(s.calls, id, Sub(caller, venue, Send(0), true), caller);
  }

  lemma Answered(limits: Limits, s: State, id: nat, caller: Caller, venue: Venue)
    requires id < |s.calls| && s.calls[id] == Sub(caller, venue, Send(0), true) && s.slots == [Some(id)]
    ensures var s' := Apply(limits, s, Advance(id, Refused));
      && s' == s.(slots := [None], calls := s.calls[id := Sub(caller, venue, Done, true)])
      && CountInFlight(s'.calls, caller) == CountInFlight(s.calls, caller)
  {
    CountsUpdate(s.calls, id, Sub(caller, venue, Done, true), caller);
  }

  /** One more submission passes the gate and queues for the slot. */
  lemma Enter(limits: Limits, ls: seq<Label>, caller: Caller, venue: Venue, charged: nat, queued: nat, k: nat)
    returns (more: seq<Label>)
    requires Stages(limits, ls, caller, venue, charged, queued, k) && queued < k && UnderBudget(charged, limits)
    ensures Stages(limits, more, caller, venue, charged, queued + 1, k)
  {
    hide Apply, UnderBudget, CountInFlight, Reached, AtMostInFlight;
    var id := |Reached(limits, ls).calls|;
    Spawned(limits, Reached(limits, ls), caller, venue);
    Append(limits, ls, Spawn(Submit(caller, venue)), caller, k);
    more := ls + [Spawn(Submit(caller, venue))];
    Resolved(limits, Reached(limits, more), id, caller, venue);
    Append(limits, more, Advance(id, Header), caller, k);
    more := more + [Advance(id, Header)];
    Gated(limits, Reached(limits, more), id, caller, venue, charged);
    Append(limits, more, Advance(id, Header), caller, k);
    more := more + [Advance(id, Header)];
  }

  /** The first in the queue is served: it takes the slot, is charged, and is answered. */
  lemma PayFirst(limits: Limits, ls: seq<Label>, caller: Caller, venue: Venue, charged: nat, queued: nat, k: nat)
    returns (more: seq<Label>)
    requires Stages(limits, ls, caller, venue, charged, queued, k) && 0 < queued <= k
    ensures Stages(limits, more, caller, venue, charged + 1, queued - 1, k)
  {
    hide Apply, CountInFlight, Reached, AtMostInFlight;
    var id := |Reached(limits, ls).calls| - queued;
    Served(limits, Reached(limits, ls), id, caller, venue);
    Append(limits, ls, Advance(id, Header), caller, k);
    more := ls + [Advance(id, Header)];
    Derived(limits, Reached(limits, more), id, caller, venue);
    Append(limits, more, Advance(id, Header), caller, k);
    more := more + [Advance(id, Header)];
    Charged(limits, Reached(limits, more), id, caller, venue, charged);
    Append(limits, more, Advance(id, Header), caller, k);
    more := more + [Advance(id, Header)];
    Answered(limits, Reached(limits, more), id, caller, venue);
    Append(limits, more, Advance(id, Refused), caller, k);
    more := more + [Advance(id, Refused)];
  }

  // --- Whole schedules ---

  /** `n` submissions pass the gate and queue for the slot before any of them is charged. */
  lemma EnterAll(limits: Limits, ls: seq<Label>, caller: Caller, venue: Venue, charged: nat, queued: nat, n: nat, k: nat)
    returns (more: seq<Label>)
    requires Stages(limits, ls, caller, venue, charged, queued, k) && queued + n <= k && UnderBudget(charged, limits)
    ensures Stages(limits, more, caller, venue, charged, queued + n, k)
  {
    hide Stages, UnderBudget;
    more := ls;
    for i := 0 to n
      invariant Stages(limits, more, caller, venue, charged, queued + i, k)
    {
      more := Enter(limits, more, caller, venue, charged, queued + i, k);
    }
  }

  lemma PayAll(limits: Limits, ls: seq<Label>, caller: Caller, venue: Venue, charged: nat, queued: nat, k: nat)
    returns (more: seq<Label>)
    requires Stages(limits, ls, caller, venue, charged, queued, k) && queued <= k
    ensures Stages(limits, more, caller, venue, charged + queued, 0, k)
  {
    hide Stages;
    more := ls;
    for i := 0 to queued
      invariant Stages(limits, more, caller, venue, charged + i, queued - i, k)
    {
      more := PayFirst(limits, more, caller, venue, charged + i, queued - i, k);
    }
  }

  /** A live adapter, and then `n` submissions one after another. */
  lemma Sequential(limits: Limits, caller: Caller, venue: Venue, n: nat, k: nat) returns (ls: seq<Label>)
    requires Built(limits) && n <= limits.maxCharges && 0 < k
    ensures Stages(limits, ls, caller, venue, n, 0, k)
  {
    assert AtMostInFlight(limits, [], caller, k);
    Append(limits, [], Register(venue, true), caller, k);
    ls := [] + [Register(venue, true)];
    assert Staged(Reached(limits, ls), caller, venue, 0, 0);
    hide Stages, Reached, AtMostInFlight, Staged;
    for i := 0 to n
      invariant Stages(limits, ls, caller, venue, i, 0, k)
    {
      ls := Enter(limits, ls, caller, venue, i, 0, k);
      ls := PayFirst(limits, ls, caller, venue, i, 1, k);
    }
  }

  /** The overshoot is reached, in a schedule that needs no parallelism: with one charge of the budget
      left, `n` submissions pass the gate and queue for one adapter slot, and being served one after
      another they bring the window to maxCharges + n - 1 charges. */
  lemma OvershootIsReached(limits: Limits, caller: Caller, venue: Venue, n: nat, k: nat) returns (ls: seq<Label>)
    requires Built(limits) && n <= k && 0 < k
    ensures Stages(limits, ls, caller, venue, limits.maxCharges - 1 + n, 0, k)
    ensures AtMostInFlight(limits, ls, caller, k)
    ensures Spent(limits, Reached(limits, ls), caller, Reached(limits, ls).now) == limits.maxCharges - 1 + n
  {
    var last := limits.maxCharges - 1;
    ls := Sequential(limits, caller, venue, last, k);
    ls := EnterAll(limits, ls, caller, venue, last, 0, n, k);
    ls := PayAll(limits, ls, caller, venue, last, n, k);
    StagedSpent(limits, ls, caller, venue, last + n, k);
  }

  lemma StagedSpent(limits: Limits, ls: seq<Label>, caller: Caller, venue: Venue, charged: nat, k: nat)
    requires Stages(limits, ls, caller, venue, charged, 0, k)
    ensures Spent(limits, Reached(limits, ls), caller, Reached(limits, ls).now) == charged
  {
    CountAll(AtZero(charged), 0, limits.window);
  }

  // --- The exact conditions ---

  /** Every schedule with at most `k` calls of a caller in flight keeps each of its windows to `bound`. */
  ghost predicate AlwaysWithin(limits: Limits, k: nat, bound: nat) {
    forall ls: seq<Label>, caller: Caller :: AtMostInFlight(limits, ls, caller, k) ==>
      Spent(limits, Reached(limits, ls), caller, Reached(limits, ls).now) <= bound
  }

  lemma BoundHolds(limits: Limits, k: nat)
    requires Built(limits) && 0 < k && limits.maxCharges + k <= 0x1_0000_0000
    ensures AlwaysWithin(limits, k, limits.maxCharges + k - 1)
  {
    forall ls: seq<Label>, caller: Caller | AtMostInFlight(limits, ls, caller, k)
      ensures Spent(limits, Reached(limits, ls), caller, Reached(limits, ls).now) <= limits.maxCharges + k - 1
    {
      QuotaBound(limits, ls, caller, k);
    }
  }

  /** The configured budget bounds every window if and only if each caller has one call at a time. */
  lemma BudgetHoldsIffSequential(limits: Limits, k: nat)
    requires Built(limits) && 0 < k
    ensures AlwaysWithin(limits, k, limits.maxCharges) <==> k == 1
  {
    if k == 1 {
      BoundHolds(limits, k);
    } else {
      var ls := OvershootIsReached(limits, "", "", k, k);
    }
  }

  /** The bound of maxCharges + k - 1 holds if and only if it fits 32 bits: past that the length cast lets
      2^32 charges look like none, and k more calls pass the gate. */
  lemma QuotaBoundIff(limits: Limits, k: nat)
    requires Built(limits) && 0 < k
    ensures AlwaysWithin(limits, k, limits.maxCharges + k - 1) <==> limits.maxCharges + k <= 0x1_0000_0000
  {
    if limits.maxCharges + k <= 0x1_0000_0000 {
      BoundHolds(limits, k);
    } else {
      var ls := OvershootIsReached(limits, "", "", U32_MAX + 2 - limits.maxCharges, k);
      ls := EnterAll(limits, ls, "", "", U32_MAX + 1, 0, k, k);
      ls := PayAll(limits, ls, "", "", U32_MAX + 1, k, k);
      StagedSpent(limits, ls, "", "", U32_MAX + 1 + k, k);
    }
  }

  /** In every schedule with at most `k` in flight, the gate's cast comparison is the true one. */
  ghost predicate GateIsTrue(limits: Limits, k: nat) {
    forall ls: seq<Label>, caller: Caller :: AtMostInFlight(limits, ls, caller, k) ==>
      var charges := |KeptHistory(limits, Reached(limits, ls), caller)|;
      UnderBudget(charges, limits) <==> charges < limits.maxCharges
  }

  /** The cast is harmless under exactly the same condition. */
  lemma CastIsExactIff(limits: Limits, k: nat)
    requires Built(limits) && 0 < k
    ensures GateIsTrue(limits, k) <==> limits.maxCharges + k <= 0x1_0000_0000
  {
    if limits.maxCharges + k <= 0x1_0000_0000 {
      BoundHolds(limits, k);
      forall ls: seq<Label>, caller: Caller | AtMostInFlight(limits, ls, caller, k)
        ensures var charges := |KeptHistory(limits, Reached(limits, ls), caller)|;
          UnderBudget(charges, limits) <==> charges < limits.maxCharges
      {
        AlwaysTracks(limits, ls);
        KeptTracks(limits, Reached(limits, ls), caller);
        CastIsExact(Spent(limits, Reached(limits, ls), caller, Reached(limits, ls).now), limits);
      }
    } else {
      var ls := OvershootIsReached(limits, "", "", U32_MAX + 2 - limits.maxCharges, k);
      AlwaysTracks(limits, ls);
      KeptTracks(limits, Reached(limits, ls), "");
    }
  }
}
