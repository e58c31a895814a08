/**
 The registry with its mutexes taken and released. A guarded section is entered by one
 step and run by a later one, and in between its mutex shuts every other call out. Each
 such run is a run of RegistryProtocol, so its invariants carry over; what is added is
 the nesting of the locks, and that they cannot deadlock.
 */
module RegistryLocks {
  import opened Prelude
  import opened RegistryModel
  import opened RegistryProtocol
  import opened RegistrySafety

  datatype Mutex = AdapterMap | LedgerLock | WatchLock

  /** The mutex of the section a call is about to run. */
  function Guard(c: Call): Option<Mutex> {
    match c.pc
    case Start => Some(if c.kind.Poll? then WatchLock else AdapterMap)
    case Gate(_) => Some(LedgerLock)
    case Pay(_) => Some(LedgerLock)
    case PayGarbage(_) => Some(LedgerLock)
    case PayDerived(_) => Some(LedgerLock)
    case WatchHeld(_, _) => Some(WatchLock)
    case WatchFree(_) => Some(WatchLock)
    case Record(_) => Some(WatchLock)
    case Next => if c.rest == [] then None else Some(AdapterMap)
    case _ => None
  }

  /** `owner` maps each mutex that is taken to the call inside its section. */
  datatype Locked = Locked(core: State, owner: map<Mutex, nat>)

  datatype Step = Acquire(id: nat) | Act(id: nat, answer: Answer) | Around(l: Label)

  predicate Owns(s: Locked, id: nat, m: Mutex) { m in s.owner && s.owner[m] == id }

  predicate CanAcquire(s: Locked, id: nat) {
    id < |s.core.calls| && Guard(s.core.calls[id]).Some? && Guard(s.core.calls[id]).value !in s.owner
  }

  predicate CanAct(s: Locked, id: nat) {
    Ready(s.core, id) && (Guard(s.core.calls[id]).Some? ==> Owns(s, id, Guard(s.core.calls[id]).value))
  }

  /** A section never awaits, so a call inside one is not dropped; `register` runs while the map is free. */
  predicate MayHappen(s: Locked, l: Label) {
    match l
    case Advance(_, _) => false
    case Cancel(id) => forall m :: m in s.owner ==> s.owner[m] != id
    case Register(_, _) => AdapterMap !in s.owner
    case _ => true
  }

  /** A step that is not enabled leaves the state as it is. */
  function Take(limits: Limits, s: Locked, step: Step): Locked {
    match step
    case Acquire(id) =>
      if CanAcquire(s, id) then s.(owner := s.owner[Guard(s.core.calls[id]).value := id]) else s
    case Act(id, answer) =>
      if !CanAct(s, id) then s
      else
        var m := Guard(s.core.calls[id]);
        Locked(Apply(limits, s.core, Advance(id, answer)), if m.Some? then s.owner - {m.value} else s.owner)
    case Around(l) =>
      if MayHappen(s, l) then s.(core := Apply(limits, s.core, l)) else s
  }

  function After(limits: Limits, steps: seq<Step>): Locked {
    if steps == [] then Locked(EMPTY, map[]) else Take(limits, After(limits, steps[..|steps| - 1]), steps[|steps| - 1])
  }

  // --- What it keeps ---

  /** A taken mutex is the one its owner's section needs. */
  ghost predicate Owned(s: Locked) {
    forall m :: m in s.owner ==> s.owner[m] < |s.core.calls| && Guard(s.core.calls[s.owner[m]]) == Some(m)
  }

  lemma TakeOwned(limits: Limits, s: Locked, step: Step)
    requires Owned(s)
    ensures Owned(Take(limits, s, step))
  {
    hide NextCall, NextSlots, NextLedger, NextCharges, NextWatch, Guard;
  }

  lemma {:induction false} AlwaysOwned(limits: Limits, steps: seq<Step>)
    ensures Owned(After(limits, steps))
  {
    if steps != [] {
      AlwaysOwned(limits, steps[..|steps| - 1]);
      TakeOwned(limits, After(limits, steps[..|steps| - 1]), steps[|steps| - 1]);
    }
  }

  /** Every run with locks is a run of the protocol, so each of its invariants holds here too. */
  lemma {:induction false} LocksRefineProtocol(limits: Limits, steps: seq<Step>) returns (ls: seq<Label>)
    ensures Reached(limits, ls) == After(limits, steps).core
  {
    ls := [];
    if steps != [] {
      var before, step := steps[..|steps| - 1], steps[|steps| - 1];
      ls := LocksRefineProtocol(limits, before);
      var s := After(limits, before);
      var more :=
        match step
        case Acquire(_) => []
        case Act(id, answer) => if CanAct(s, id) then [Advance(id, answer)] else []
        case Around(l) => if MayHappen(s, l) then [l] else [];
      if more != [] {
        assert (ls + more)[..|ls|] == ls;
        ls := ls + more;
      }
    }
  }

  /** Lock order. A call is inside at most one mutex section; while inside it awaits nothing, so it can
      run it at once; while it awaits an adapter slot it owns no mutex; and if it holds a slot, the mutex
      is the ledger's or the watch list's: the only nesting is slot before one of these. */
  lemma LockOrder(limits: Limits, steps: seq<Step>, id: nat, m: Mutex)
    requires Owns(After(limits, steps), id, m)
    ensures var s := After(limits, steps);
      && id < |s.core.calls|
      && (forall m' :: Owns(s, id, m') ==> m' == m)
      && CanAct(s, id) && !s.core.calls[id].pc.Wait?
      && (Holds(s.core.calls[id].pc).Some? ==> m == LedgerLock || m == WatchLock)
  {
    AlwaysOwned(limits, steps);
  }

  /** Deadlock freedom with the locks: while any call is unfinished, some call can enter its section,
      run the one it is in, or take another step. */
  lemma LocksNeverDeadlock(limits: Limits, steps: seq<Step>, id: nat) returns (ready: nat)
    requires id < |After(limits, steps).core.calls| && !After(limits, steps).core.calls[id].pc.Done?
    ensures CanAcquire(After(limits, steps), ready) || CanAct(After(limits, steps), ready)
  {
    var s := After(limits, steps);
    if m :| m in s.owner {
      LockOrder(limits, steps, s.owner[m], m);
      ready := s.owner[m];
    } else {
      var ls := LocksRefineProtocol(limits, steps);
      ready := SomeCallIsReady(limits, ls, id);
    }
  }
}
