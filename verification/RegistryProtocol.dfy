/**
 The venue registry under concurrent calls. A step is one mutex-guarded section or
 one adapter answer; an async call suspended at an await is its program counter.
 Steps of any number of calls interleave with the clock, with adapters being
 installed, dying and reviving, and with calls being dropped by their callers.
 */
module RegistryProtocol {
  import opened Prelude
  import opened RegistryModel
  import QuotaLedger
  import WatchSet

  datatype Kind =
    | Submit(caller: Caller, venue: Venue)
    | Quote(caller: Caller, venue: Venue)
    | Direct(venue: Venue) // status or cancel
    | Observe(ref: Ref)
    | Poll

  datatype Pc =
    | Start
    | Gate(slot: SlotId)
    | Pay(slot: SlotId)            // quote: charge before the slot
    | Wait(slot: SlotId)           // awaiting the adapter slot
    | Derive(slot: SlotId)         // from here to Ask the call holds the slot
    | PayGarbage(slot: SlotId)
    | PayDerived(slot: SlotId)
    | Send(slot: SlotId)
    | WatchHeld(slot: SlotId, ref: Ref)
    | Price(slot: SlotId)
    | Ask(slot: SlotId)
    | WatchFree(ref: Ref)
    | Next                         // poll: the loop head
    | Record(status: Status)
    | Done

  /** `rest` is what a poll still has to visit, current receipt first; `paid` says the call was charged. */
  datatype Call = Call(kind: Kind, pc: Pc, rest: seq<Ref>, paid: bool)

  /** What an adapter answers to the request in flight. */
  datatype Answer = Header | Garbage | Refused | Receipt(receipt: Bytes) | StatusIs(status: Status)

  datatype State = State(
    now: Time,
    adapters: map<Venue, Installed>,
    slots: seq<Option<nat>>,                // the call holding each slot
    ledger: map<Caller, seq<Time>>,
    charges: map<Caller, seq<Time>>,        // every charge ever made: an audit, never read
    watch: WatchSet.Watched,
    calls: seq<Call>)

  const EMPTY := State(0, map[], [], map[], map[], WatchSet.Watched([], []), [])

  function Lookup(m: map<Caller, seq<Time>>, caller: Caller): seq<Time> {
    if caller in m then m[caller] else []
  }

  // --- One step of one call, component by component ---

  function Holds(pc: Pc): Option<SlotId> {
    if pc.Derive? || pc.PayGarbage? || pc.PayDerived? || pc.Send? || pc.WatchHeld? || pc.Price? || pc.Ask?
    then Some(pc.slot) else None
  }

  predicate Ready(s: State, id: nat) {
    && id < |s.calls| && !s.calls[id].pc.Done?
    && (s.calls[id].pc.Wait? && s.calls[id].pc.slot < |s.slots| ==> s.slots[s.calls[id].pc.slot].None?)
  }

  function KeptHistory(limits: Limits, s: State, caller: Caller): seq<Time> {
    QuotaLedger.Pruned(Lookup(s.ledger, caller), s.now, limits.window)
  }

  predicate Charges(pc: Pc) { pc.Pay? || pc.PayGarbage? || pc.PayDerived? }

  predicate HasCaller(kind: Kind) { kind.Submit? || kind.Quote? }

  function Routed(s: State, venue: Venue, to: SlotId -> Pc): Pc {
    match Resolve(s.adapters, venue)
    case Err(_) => Done
    case Ok(slot) => to(slot)
  }

  function Tail(refs: seq<Ref>): seq<Ref> { if refs == [] then [] else refs[1..] }

  function NextPc(limits: Limits, s: State, c: Call, a: Answer): Pc {
    match c.pc
    case Start =>
      (match c.kind
       case Submit(_, venue) => Routed(s, venue, (slot: SlotId) => Gate(slot))
       case Quote(_, venue) => Routed(s, venue, (slot: SlotId) => Gate(slot))
       case Direct(venue) => Routed(s, venue, (slot: SlotId) => Wait(slot))
       case Observe(ref) => Routed(s, ref.venue, (_: SlotId) => WatchFree(ref))
       case Poll => Next)
    case Gate(slot) =>
      if !HasCaller(c.kind) || !QuotaLedger.Admits(KeptHistory(limits, s, c.kind.caller), limits) then Done
      else if c.kind.Quote? then Pay(slot) else Wait(slot)
    case Pay(slot) => Wait(slot)
    case Wait(slot) =>
      if c.kind.Submit? then Derive(slot) else if c.kind.Quote? then Price(slot) else Ask(slot)
    case Derive(slot) => if a.Header? then PayDerived(slot) else if a.Garbage? then PayGarbage(slot) else Done
    case PayDerived(slot) => Send(slot)
    case PayGarbage(_) => Done
    case Send(slot) => if a.Receipt? && c.kind.Submit? then WatchHeld(slot, Ref(c.kind.venue, a.receipt)) else Done
    case WatchHeld(_, _) => Done
    case Price(_) => Done
    case Ask(_) => if !c.kind.Poll? then Done else if a.StatusIs? then Record(a.status) else Next
    case WatchFree(_) => Done
    case Next =>
      if c.rest == [] then Done
      else (match Resolve(s.adapters, c.rest[0].venue)
            case Err(_) => Next
            case Ok(slot) => Wait(slot))
    case Record(_) => Next
    case Done => Done
  }

  /** A poll snapshots the receipts at its start and drops one when done with it. */
  function NextRest(limits: Limits, s: State, c: Call, a: Answer): seq<Ref> {
    match c.pc
    case Start => if c.kind.Poll? then RefsOf(WatchSet.Retained(s.watch.entries, s.now)) else c.rest
    case Next => if NextPc(limits, s, c, a).Next? then Tail(c.rest) else c.rest
    case Ask(_) => if NextPc(limits, s, c, a).Next? then Tail(c.rest) else c.rest
    case Record(_) => Tail(c.rest)
    case _ => c.rest
  }

  function RefsOf(entries: seq<WatchSet.Entry>): seq<Ref> {
    seq(|entries|, i requires 0 <= i < |entries| => entries[i].ref)
  }

  function NextCall(limits: Limits, s: State, c: Call, a: Answer): Call {
    Call(c.kind, NextPc(limits, s, c, a), NextRest(limits, s, c, a), c.paid || Charges(c.pc))
  }

  function NextSlots(slots: seq<Option<nat>>, id: nat, before: Pc, after: Pc): seq<Option<nat>> {
    match (Holds(before), Holds(after))
    case (None, Some(x)) => if x < |slots| then slots[x := Some(id)] else slots
    case (Some(x), None) => if x < |slots| then slots[x := None] else slots
    case _ => slots
  }

  /** The gate prunes the caller's deque; a charge prunes it and pushes `now`. */
  function NextLedger(limits: Limits, s: State, c: Call): map<Caller, seq<Time>> {
    if !HasCaller(c.kind) || !(c.pc.Gate? || Charges(c.pc)) then s.ledger
    else
      var kept := KeptHistory(limits, s, c.kind.caller);
      s.ledger[c.kind.caller := if Charges(c.pc) then kept + [s.now] else kept]
  }

  function NextCharges(s: State, c: Call): map<Caller, seq<Time>> {
    if HasCaller(c.kind) && Charges(c.pc)
    then s.charges[c.kind.caller := Lookup(s.charges, c.kind.caller) + [s.now]] else s.charges
  }

  function NextWatch(limits: Limits, s: State, c: Call): WatchSet.Watched {
    match c.pc
    case Start => if c.kind.Poll? then WatchSet.PruneExpired(s.watch, s.now) else s.watch
    case WatchHeld(_, ref) => WatchSet.WatchOne(limits, s.watch, ref, s.now)
    case WatchFree(ref) => WatchSet.WatchOne(limits, s.watch, ref, s.now)
    case Record(status) =>
      if c.rest == [] then s.watch else WatchSet.RecordOne(limits, s.watch, c.rest[0], status, s.now)
    case _ => s.watch
  }

  function Move(limits: Limits, s: State, id: nat, a: Answer): State
    requires id < |s.calls|
  {
    var c := s.calls[id];
    var c' := NextCall(limits, s, c, a);
    State(s.now, s.adapters, NextSlots(s.slots, id, c.pc, c'.pc), NextLedger(limits, s, c), NextCharges(s, c),
          NextWatch(limits, s, c), s.calls[id := c'])
  }

  // --- All steps ---

  datatype Label =
    | Tick(elapsed: nat)
    | Spawn(kind: Kind)
    | Advance(id: nat, answer: Answer)
    | Cancel(id: nat)             // the caller drops the call's future
    | Register(venue: Venue, alive: bool)
    | Kill(venue: Venue)
    | Revive(venue: Venue)

  predicate Enabled(s: State, l: Label) {
    match l
    case Advance(id, _) => Ready(s, id)
    case Cancel(id) => id < |s.calls|
    case Kill(venue) => venue in s.adapters
    case Revive(venue) => venue in s.adapters
    case _ => true
  }

  /** `register`, with a fresh slot for what is installed. */
  function Registered(s: State, venue: Venue, alive: bool): State {
    s.(adapters := Install(s.adapters, venue, Installed(|s.slots|, alive)),
       slots := if Resolve(s.adapters, venue).Ok? then s.slots else s.slots + [None])
  }

  function Dropped(s: State, id: nat): State
    requires id < |s.calls|
  {
    var c := s.calls[id];
    s.(slots := NextSlots(s.slots, id, c.pc, Done), calls := s.calls[id := c.(pc := Done)])
  }

  /** A step that is not enabled leaves the state as it is. */
  function Apply(limits: Limits, s: State, l: Label): State {
    if !Enabled(s, l) then s
    else
      match l
      case Tick(elapsed) => s.(now := s.now + elapsed)
      case Spawn(kind) => s.(calls := s.calls + [Call(kind, Start, [], false)])
      case Advance(id, answer) => Move(limits, s, id, answer)
      case Cancel(id) => Dropped(s, id)
      case Register(venue, alive) => Registered(s, venue, alive)
      case Kill(venue) => s.(adapters := s.adapters[venue := s.adapters[venue].(alive := false)])
      case Revive(venue) => s.(adapters := s.adapters[venue := s.adapters[venue].(alive := true)])
  }

  /** The state after the steps `ls`, from the empty registry. */
  function Reached(limits: Limits, ls: seq<Label>): State {
    if ls == [] then EMPTY else Apply(limits, Reached(limits, ls[..|ls| - 1]), ls[|ls| - 1])
  }
}
