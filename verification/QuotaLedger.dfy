/**
 The sliding-window quota: a per-caller deque of charge instants, pruned from the
 front on each touch, against the caller's full charge log.
 */
module QuotaLedger {
  import opened Prelude
  import opened RegistryModel

  /** `prune`: pop from the front while the front has aged out of the window. */
  function Pruned(history: seq<Time>, now: Time, window: nat): (r: seq<Time>)
    ensures |r| <= |history|
  {
    if history != [] && now > history[0] + window then Pruned(history[1..], now, window) else history
  }

  /** The gate compares the length cast to 32 bits. */
  predicate Admits(history: seq<Time>, limits: Limits) {
    UnderBudget(|history|, limits)
  }

  predicate UnderBudget(charges: nat, limits: Limits) {
    charges % (U32_MAX + 1) < limits.maxCharges
  }

  // --- The full log ---

  ghost predicate Sorted(ts: seq<Time>) {
    forall i, j :: 0 <= i < j < |ts| ==> ts[i] <= ts[j]
  }

  ghost predicate Past(ts: seq<Time>, now: Time) {
    forall i :: 0 <= i < |ts| ==> ts[i] <= now
  }

  /** Every instant is strictly older than the window. */
  ghost predicate Aged(ts: seq<Time>, now: Time, window: nat) {
    forall i :: 0 <= i < |ts| ==> ts[i] + window < now
  }

  predicate Within(t: Time, at: Time, window: nat) { t <= at <= t + window }

  /** How many instants of `ts` lie in [at - window, at]. */
  function CountWithin(ts: seq<Time>, at: Time, window: nat): (n: nat)
    ensures n <= |ts|
  {
    if ts == [] then 0
    else CountWithin(ts[..|ts| - 1], at, window) + if Within(ts[|ts| - 1], at, window) then 1 else 0
  }

  lemma CountOneMore(ts: seq<Time>, t: Time, at: Time, window: nat)
    ensures CountWithin(ts + [t], at, window) == CountWithin(ts, at, window) + if Within(t, at, window) then 1 else 0
  {
  }

  lemma {:induction false} CountAll(ts: seq<Time>, at: Time, window: nat)
    requires forall i :: 0 <= i < |ts| ==> Within(ts[i], at, window)
    ensures CountWithin(ts, at, window) == |ts|
  {
    if ts != [] {
      CountAll(ts[..|ts| - 1], at, window);
    }
  }

  lemma {:induction false} CountNone(ts: seq<Time>, at: Time, window: nat)
    requires Aged(ts, at, window)
    ensures CountWithin(ts, at, window) == 0
  {
    if ts != [] {
      CountNone(ts[..|ts| - 1], at, window);
    }
  }

  lemma {:induction false} CountSplit(a: seq<Time>, b: seq<Time>, at: Time, window: nat)
    ensures CountWithin(a + b, at, window) == CountWithin(a, at, window) + CountWithin(b, at, window)
  {
    if b == [] {
      assert a + b == a;
    } else {
      var n := |b| - 1;
      CountSplit(a, b[..n], at, window);
      assert a + b == (a + b[..n]) + [b[n]];
      CountOneMore(a + b[..n], b[n], at, window);
    }
  }

  /** As time passes with no new charge, a window's count can only fall. */
  lemma {:induction false} CountFalls(ts: seq<Time>, now: Time, later: Time, window: nat)
    requires Past(ts, now)
    requires now <= later
    ensures CountWithin(ts, later, window) <= CountWithin(ts, now, window)
  {
    if ts != [] {
      CountFalls(ts[..|ts| - 1], now, later, window);
    }
  }

  lemma TailIsSorted(a: seq<Time>, b: seq<Time>, now: Time)
    requires Sorted(a + b) && Past(a + b, now)
    ensures Sorted(b) && Past(b, now)
  {
    assert forall i :: 0 <= i < |b| ==> b[i] == (a + b)[|a| + i];
  }

  lemma AgedJoin(a: seq<Time>, b: seq<Time>, now: Time, window: nat)
    requires Aged(a, now, window) && Aged(b, now, window)
    ensures Aged(a + b, now, window)
  {
  }

  /** The deque is what was popped, all of it aged, then what was kept, all of it in the window. */
  lemma {:induction false} PrunedSplits(history: seq<Time>, now: Time, window: nat) returns (popped: seq<Time>)
    requires Sorted(history) && Past(history, now)
    ensures history == popped + Pruned(history, now, window) && Aged(popped, now, window)
    ensures forall t :: t in Pruned(history, now, window) ==> Within(t, now, window)
  {
    if history == [] || now <= history[0] + window {
      FreshFrontIsAll(history, now, window);
      return [];
    }
    var first, rest := [history[0]], history[1..];
    assert history == first + rest && Aged(first, now, window);
    assert Pruned(history, now, window) == Pruned(rest, now, window);
    hide Sorted, Past, Aged, Within, Pruned;
    TailIsSorted(first, rest, now);
    var more := PrunedSplits(rest, now, window);
    AgedJoin(first, more, now, window);
    popped := first + more;
  }

  /** Popping from the front keeps exactly the charges still in the window, in order. */
  lemma {:induction false} PrunedIsTheWindow(history: seq<Time>, now: Time, window: nat)
    requires Sorted(history) && Past(history, now)
    ensures var kept := Pruned(history, now, window);
      && kept == history[|history| - |kept|..]
      && Aged(history[..|history| - |kept|], now, window)
      && forall i :: 0 <= i < |kept| ==> Within(kept[i], now, window)
  {
    hide Sorted, Past, Aged, Within, Pruned;
    var popped := PrunedSplits(history, now, window);
    assert history[..|popped|] == popped && history[|popped|..] == Pruned(history, now, window);
  }

  lemma FreshFrontIsAll(history: seq<Time>, now: Time, window: nat)
    requires Sorted(history) && Past(history, now)
    requires history == [] || now <= history[0] + window
    ensures forall t :: t in history ==> Within(t, now, window)
  {
  }

  // --- The deque against the log ---

  /** The deque is the log less a front part that has left the window for good. */
  ghost predicate Tracks(history: seq<Time>, log: seq<Time>, now: Time, window: nat) {
    && Sorted(log) && Past(log, now)
    && |history| <= |log| && log[|log| - |history|..] == history
    && Aged(log[..|log| - |history|], now, window)
  }

  lemma SplitTracks(front: seq<Time>, kept: seq<Time>, now: Time, window: nat)
    requires Sorted(front + kept) && Past(front + kept, now) && Aged(front, now, window)
    ensures Tracks(kept, front + kept, now, window)
  {
  }

  lemma CountKept(front: seq<Time>, kept: seq<Time>, now: Time, window: nat)
    requires Aged(front, now, window)
    requires forall i :: 0 <= i < |kept| ==> Within(kept[i], now, window)
    ensures CountWithin(front + kept, now, window) == |kept|
  {
    hide Aged, CountWithin;
    CountNone(front, now, window);
    CountAll(kept, now, window);
    CountSplit(front, kept, now, window);
  }

  lemma SplitPruneTracks(gone: seq<Time>, history: seq<Time>, now: Time, window: nat)
    requires Sorted(gone + history) && Past(gone + history, now) && Aged(gone, now, window)
    ensures var kept := Pruned(history, now, window);
      && Tracks(kept, gone + history, now, window)
      && |kept| == CountWithin(gone + history, now, window)
  {
    hide Sorted, Past, Aged, Tracks, CountWithin, Pruned, Within;
    TailIsSorted(gone, history, now);
    var kept := Pruned(history, now, window);
    var popped := PrunedSplits(history, now, window);
    AgedJoin(gone, popped, now, window);
    assert gone + history == (gone + popped) + kept;
    SplitTracks(gone + popped, kept, now, window);
    CountKept(gone + popped, kept, now, window);
  }

  /** Pruning keeps tracking, and its length is the exact count of the window. */
  lemma PruneTracks(history: seq<Time>, log: seq<Time>, now: Time, window: nat)
    requires Tracks(history, log, now, window)
    ensures var kept := Pruned(history, now, window);
      && Tracks(kept, log, now, window)
      && |kept| == CountWithin(log, now, window)
  {
    var gone := log[..|log| - |history|];
    assert log == gone + history;
    SplitPruneTracks(gone, history, now, window);
  }

  lemma ChargeTracks(history: seq<Time>, log: seq<Time>, now: Time, window: nat)
    requires Tracks(history, log, now, window)
    ensures Tracks(history + [now], log + [now], now, window)
  {
  }

  lemma LaterTracks(history: seq<Time>, log: seq<Time>, now: Time, later: Time, window: nat)
    requires Tracks(history, log, now, window) && now <= later
    ensures Tracks(history, log, later, window)
  {
  }

  /** A caller whose last charge is strictly older than the window is admitted. */
  lemma {:induction false} QuietCallerIsAdmitted(history: seq<Time>, log: seq<Time>, now: Time, limits: Limits)
    requires Built(limits) && Tracks(history, log, now, limits.window)
    requires Aged(log, now, limits.window)
    ensures Admits(Pruned(history, now, limits.window), limits)
  {
    PruneTracks(history, log, now, limits.window);
    CountNone(log, now, limits.window);
  }

  /** The 32-bit cast is exact while the deque fits 32 bits. */
  lemma CastIsExact(charges: nat, limits: Limits)
    ensures charges <= U32_MAX ==> (UnderBudget(charges, limits) <==> charges < limits.maxCharges)
  {
  }

  // --- A bound on every window ---

  /** At every instant so far, the window ending there holds at most `bound` charges. */
  ghost predicate WindowsBounded(log: seq<Time>, now: Time, window: nat, bound: nat) {
    forall at: Time :: at <= now ==> CountWithin(log, at, window) <= bound
  }

  lemma ChargeBounded(log: seq<Time>, now: Time, window: nat, bound: nat)
    requires WindowsBounded(log, now, window, bound) && CountWithin(log, now, window) + 1 <= bound
    ensures WindowsBounded(log + [now], now, window, bound)
    ensures CountWithin(log + [now], now, window) == CountWithin(log, now, window) + 1
  {
  }

  lemma TickBounded(log: seq<Time>, now: Time, later: Time, window: nat, bound: nat)
    requires Past(log, now) && now <= later && WindowsBounded(log, now, window, bound)
    ensures WindowsBounded(log, later, window, bound)
    ensures CountWithin(log, later, window) <= CountWithin(log, now, window)
  {
    forall at: Time | now <= at <= later ensures CountWithin(log, at, window) <= CountWithin(log, now, window) {
      CountFalls(log, now, at, window);
    }
  }

  // --- The ledger as the source keeps it ---

  class Ledger {
    var perCaller: map<Caller, seq<Time>>

    constructor ()
      ensures perCaller == map[]
    {
      perCaller := map[];
    }

    /** `entry(caller).or_default()`. */
    function History(caller: Caller): seq<Time>
      reads this
    {
      if caller in perCaller then perCaller[caller] else []
    }

    /** `prune` over the caller's deque. */
    method Prune(caller: Caller, now: Time, window: nat)
      modifies this
      ensures perCaller == old(perCaller)[caller := Pruned(old(History(caller)), now, window)]
    {
      var history := History(caller);
      ghost var start := history;
      while history != [] && now > history[0] + window
        invariant Pruned(history, now, window) == Pruned(start, now, window)
        decreases |history|
      {
        history := history[1..];
      }
      perCaller := perCaller[caller := history];
    }

    method QuotaAdmits(caller: Caller, now: Time, limits: Limits) returns (admitted: bool)
      modifies this
      ensures perCaller == old(perCaller)[caller := Pruned(old(History(caller)), now, limits.window)]
      ensures admitted == Admits(History(caller), limits)
    {
      Prune(caller, now, limits.window);
      admitted := |perCaller[caller]| % (U32_MAX + 1) < limits.maxCharges;
    }

    method Charge(caller: Caller, now: Time, limits: Limits)
      modifies this
      ensures perCaller == old(perCaller)[caller := Pruned(old(History(caller)), now, limits.window) + [now]]
    {
      Prune(caller, now, limits.window);
      perCaller := perCaller[caller := perCaller[caller] + [now]];
    }
  }
}
