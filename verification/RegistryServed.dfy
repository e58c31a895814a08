/**
 The whole course of a call in any schedule: at which slot it was served, whether the
 gate let it through, what it was charged for, and what it left under watch.
 */
module RegistryServed {
  import opened Prelude
  import opened RegistryModel
  import opened RegistryProtocol
  import opened RegistrySafety
  import opened RegistryCalls
  import opened RegistryQuota
  import QuotaLedger
  import WatchSet

  // --- The stops of a call ---

  /** One step of a call: the label it was, where the call stood, what its venue resolved to then, whether
      its caller's window was full then, and what the adapter answered, if it was asked. */
  datatype Stop = Stop(at: nat, pc: Pc, venue: Result<SlotId, VenueError>, full: bool, answer: Answer)

  function VenueOf(kind: Kind): Venue {
    match kind
    case Submit(_, venue) => venue
    case Quote(_, venue) => venue
    case Direct(venue) => venue
    case Observe(ref) => ref.venue
    case Poll => ""
  }

  /** The caller's charges in the window, as the gate counts them, have reached the budget. */
  predicate WindowFull(limits: Limits, s: State, kind: Kind) {
    HasCaller(kind) && Spent(limits, s, kind.caller, s.now) % 0x1_0000_0000 >= limits.maxCharges
  }

  function StopIn(limits: Limits, s: State, at: nat, c: Call, a: Answer): Stop {
    Stop(at, c.pc, Resolve(s.adapters, VenueOf(c.kind)), WindowFull(limits, s, c.kind), a)
  }

  function Stops(limits: Limits, ls: seq<Label>, id: nat): seq<Stop> {
    if ls == [] then []
    else
      var n := |ls| - 1;
      var s, before := Reached(limits, ls[..n]), Stops(limits, ls[..n], id);
      if ls[n].Advance? && ls[n].id == id && Ready(s, id) then before + [StopIn(limits, s, n, s.calls[id], ls[n].answer)]
      else before
  }

  // --- The courses a call can take ---

  predicate At(c: Call, pc: Pc, paid: bool) { c.pc == pc && c.paid == paid }

  /** A submission: resolved, gated, served at that slot; charged if its header derives, or its body does
      not decode, and for nothing else; sent on only with a header; an accepted receipt is watched. */
  predicate SubmitCourse(venue: Venue, c: Call, st: seq<Stop>) {
    if st == [] then At(c, Start, false)
    else
      && st[0].pc == Start
      && if st[0].venue.Err? then |st| == 1 && At(c, Done, false)
         else if |st| == 1 then At(c, Gate(st[0].venue.value), false)
         else
           && st[1].pc == Gate(st[0].venue.value)
           && if st[1].full then |st| == 2 && At(c, Done, false)
              else if |st| == 2 then At(c, Wait(st[0].venue.value), false)
              else
                && st[2].pc == Wait(st[0].venue.value)
                && if |st| == 3 then At(c, Derive(st[0].venue.value), false)
                   else st[3].pc == Derive(st[0].venue.value) && DerivedCourse(venue, st[0].venue.value, c, st)
  }

  predicate DerivedCourse(venue: Venue, x: SlotId, c: Call, st: seq<Stop>)
    requires |st| >= 4
  {
    match st[3].answer
    case Header =>
      if |st| == 4 then At(c, PayDerived(x), false)
      else st[4].pc == PayDerived(x) && if |st| == 5 then At(c, Send(x), true) else SentCourse(venue, x, c, st)
    case Garbage =>
      if |st| == 4 then At(c, PayGarbage(x), false) else |st| == 5 && st[4].pc == PayGarbage(x) && At(c, Done, true)
    case _ => |st| == 4 && At(c, Done, false)
  }

  predicate SentCourse(venue: Venue, x: SlotId, c: Call, st: seq<Stop>)
    requires |st| >= 6
  {
    && st[5].pc == Send(x)
    && if !st[5].answer.Receipt? then |st| == 6 && At(c, Done, true)
       else
         var ref := Ref(venue, st[5].answer.receipt);
         if |st| == 6 then At(c, WatchHeld(x, ref), true) else |st| == 7 && st[6].pc == WatchHeld(x, ref) && At(c, Done, true)
  }

  /** A quote: resolved, gated, charged, and then priced at that slot. */
  predicate QuoteCourse(c: Call, st: seq<Stop>) {
    if st == [] then At(c, Start, false)
    else
      && st[0].pc == Start
      && if st[0].venue.Err? then |st| == 1 && At(c, Done, false)
         else if |st| == 1 then At(c, Gate(st[0].venue.value), false)
         else
           && st[1].pc == Gate(st[0].venue.value)
           && if st[1].full then |st| == 2 && At(c, Done, false)
              else if |st| == 2 then At(c, Pay(st[0].venue.value), false)
              else
                && st[2].pc == Pay(st[0].venue.value)
                && if |st| == 3 then At(c, Wait(st[0].venue.value), true)
                   else
                     && st[3].pc == Wait(st[0].venue.value)
                     && if |st| == 4 then At(c, Price(st[0].venue.value), true)
                        else |st| == 5 && st[4].pc == Price(st[0].venue.value) && At(c, Done, true)
  }

  /** A status or cancel request: resolved, and asked at that slot, free of charge. */
  predicate DirectCourse(c: Call, st: seq<Stop>) {
    if st == [] then At(c, Start, false)
    else
      && st[0].pc == Start
      && if st[0].venue.Err? then |st| == 1 && At(c, Done, false)
         else if |st| == 1 then At(c, Wait(st[0].venue.value), false)
         else
           && st[1].pc == Wait(st[0].venue.value)
           && if |st| == 2 then At(c, Ask(st[0].venue.value), false)
              else |st| == 3 && st[2].pc == Ask(st[0].venue.value) && At(c, Done, false)
  }

  /** An observation: resolved, and watched, free of charge. */
  predicate ObserveCourse(ref: Ref, c: Call, st: seq<Stop>) {
    if st == [] then At(c, Start, false)
    else
      && st[0].pc == Start
      && if st[0].venue.Err? then |st| == 1 && At(c, Done, false)
         else if |st| == 1 then At(c, WatchFree(ref), false)
         else |st| == 2 && st[1].pc == WatchFree(ref) && At(c, Done, false)
  }

  predicate OnCourse(c: Call, st: seq<Stop>) {
    match c.kind
    case Submit(_, venue) => SubmitCourse(venue, c, st)
    case Quote(_, _) => QuoteCourse(c, st)
    case Direct(_) => DirectCourse(c, st)
    case Observe(ref) => ObserveCourse(ref, c, st)
    case Poll => true
  }

  // --- Every call stays on course ---

  lemma GateCounts(limits: Limits, s: State, kind: Kind)
    requires LedgerTracks(limits, s) && HasCaller(kind)
    ensures QuotaLedger.Admits(KeptHistory(limits, s, kind.caller), limits) <==> !WindowFull(limits, s, kind)
  {
    hide KeptHistory, Lookup, LedgerTracks;
    KeptTracks(limits, s, kind.caller);
  }

  /** The gate opens exactly when the window is not full. */
  lemma GateLaw(limits: Limits, s: State, c: Call, a: Answer)
    requires LedgerTracks(limits, s) && c.pc.Gate? && HasCaller(c.kind)
    ensures var pc := NextPc(limits, s, c, a);
      if WindowFull(limits, s, c.kind) then pc == Done
      else pc == if c.kind.Quote? then Pay(c.pc.slot) else Wait(c.pc.slot)
  {
    hide KeptHistory, LedgerTracks, WindowFull, QuotaLedger.Admits;
    GateCounts(limits, s, c.kind);
  }

  /** How a submission moves. */
  predicate SubmitMove(c: Call, stop: Stop, c': Call) {
    && c'.kind == c.kind
    && c'.paid == (c.paid || c.pc.PayDerived? || c.pc.PayGarbage?)
    && match c.pc
       case Start => c'.pc == if stop.venue.Err? then Done else Gate(stop.venue.value)
       case Gate(x) => c'.pc == if stop.full then Done else Wait(x)
       case Wait(x) => c'.pc == Derive(x)
       case Derive(x) => c'.pc == if stop.answer.Header? then PayDerived(x) else if stop.answer.Garbage? then PayGarbage(x) else Done
       case PayDerived(x) => c'.pc == Send(x)
       case Send(x) => c'.pc == if stop.answer.Receipt? then WatchHeld(x, Ref(VenueOf(c.kind), stop.answer.receipt)) else Done
       case PayGarbage(_) => c'.pc == Done
       case WatchHeld(_, _) => c'.pc == Done
       case _ => true
  }

  lemma SubmitMoves(limits: Limits, s: State, at: nat, c: Call, a: Answer)
    requires LedgerTracks(limits, s) && c.kind.Submit? && !c.pc.Pay?
    ensures SubmitMove(c, StopIn(limits, s, at, c, a), NextCall(limits, s, c, a))
  {
    if c.pc.Gate? {
      GateLaw(limits, s, c, a);
      hide NextPc, LedgerTracks, WindowFull, NextRest;
    } else {
      hide LedgerTracks, WindowFull, NextRest, Resolve;
    }
  }

  /** One stop more, before the header is derived, and after. */
  lemma SubmitEarly(venue: Venue, c: Call, stop: Stop, c': Call, st: seq<Stop>)
    requires |st| < 4 && SubmitCourse(venue, c, st) && !c.pc.Done? && stop.pc == c.pc && VenueOf(c.kind) == venue
    requires SubmitMove(c, stop, c')
    ensures SubmitCourse(venue, c', st + [stop])
  {
    var st' := st + [stop];
    assert forall i :: 0 <= i < |st| ==> st'[i] == st[i];
  }

  lemma SubmitLate(venue: Venue, x: SlotId, c: Call, stop: Stop, c': Call, st: seq<Stop>)
    requires |st| >= 4 && DerivedCourse(venue, x, c, st) && !c.pc.Done? && stop.pc == c.pc && VenueOf(c.kind) == venue
    requires SubmitMove(c, stop, c')
    ensures DerivedCourse(venue, x, c', st + [stop])
  {
    var st' := st + [stop];
    assert forall i :: 0 <= i < |st| ==> st'[i] == st[i];
  }

  lemma SubmitStep(limits: Limits, s: State, at: nat, c: Call, a: Answer, st: seq<Stop>)
    requires LedgerTracks(limits, s) && c.kind.Submit? && SubmitCourse(c.kind.venue, c, st) && !c.pc.Done?
    ensures SubmitCourse(c.kind.venue, NextCall(limits, s, c, a), st + [StopIn(limits, s, at, c, a)])
  {
    var stop, venue := StopIn(limits, s, at, c, a), c.kind.venue;
    assert !c.pc.Pay? by { CourseNeverPays(venue, c, st); }
    SubmitMoves(limits, s, at, c, a);
    hide NextCall, SubmitMove, LedgerTracks, DerivedCourse, WindowFull;
    if |st| < 4 {
      SubmitEarly(venue, c, stop, NextCall(limits, s, c, a), st);
    } else {
      SubmitLate(venue, st[0].venue.value, c, stop, NextCall(limits, s, c, a), st);
      assert forall i :: 0 <= i < |st| ==> (st + [stop])[i] == st[i];
    }
  }

  lemma CourseNeverPays(venue: Venue, c: Call, st: seq<Stop>)
    requires SubmitCourse(venue, c, st)
    ensures !c.pc.Pay?
  {
  }

  /** How a quote moves. */
  predicate QuoteMove(c: Call, stop: Stop, c': Call) {
    && c'.kind == c.kind
    && c'.paid == (c.paid || c.pc.Pay?)
    && match c.pc
       case Start => c'.pc == if stop.venue.Err? then Done else Gate(stop.venue.value)
       case Gate(x) => c'.pc == if stop.full then Done else Pay(x)
       case Pay(x) => c'.pc == Wait(x)
       case Wait(x) => c'.pc == Price(x)
       case Price(_) => c'.pc == Done
       case _ => true
  }

  lemma QuoteMoves(limits: Limits, s: State, at: nat, c: Call, a: Answer)
    requires LedgerTracks(limits, s) && c.kind.Quote? && !c.pc.PayDerived? && !c.pc.PayGarbage?
    ensures QuoteMove(c, StopIn(limits, s, at, c, a), NextCall(limits, s, c, a))
  {
    if c.pc.Gate? {
      GateLaw(limits, s, c, a);
      hide NextPc, LedgerTracks, WindowFull, NextRest;
    } else {
      hide LedgerTracks, WindowFull, NextRest, Resolve;
    }
  }

  lemma QuoteOn(c: Call, stop: Stop, c': Call, st: seq<Stop>)
    requires QuoteCourse(c, st) && !c.pc.Done? && stop.pc == c.pc && QuoteMove(c, stop, c')
    ensures QuoteCourse(c', st + [stop])
  {
    var st' := st + [stop];
    assert forall i :: 0 <= i < |st| ==> st'[i] == st[i];
  }

  lemma QuoteStep(limits: Limits, s: State, at: nat, c: Call, a: Answer, st: seq<Stop>)
    requires LedgerTracks(limits, s) && c.kind.Quote? && QuoteCourse(c, st) && !c.pc.Done?
    ensures QuoteCourse(NextCall(limits, s, c, a), st + [StopIn(limits, s, at, c, a)])
  {
    assert !c.pc.PayDerived? && !c.pc.PayGarbage?;
    QuoteMoves(limits, s, at, c, a);
    hide NextCall, QuoteMove, QuoteCourse, LedgerTracks, WindowFull;
    QuoteOn(c, StopIn(limits, s, at, c, a), NextCall(limits, s, c, a), st);
  }

  lemma OtherStep(limits: Limits, s: State, at: nat, c: Call, a: Answer, st: seq<Stop>)
    requires (c.kind.Direct? && DirectCourse(c, st)) || (c.kind.Observe? && ObserveCourse(c.kind.ref, c, st))
    requires !c.pc.Done?
    ensures OnCourse(NextCall(limits, s, c, a), st + [StopIn(limits, s, at, c, a)])
  {
    hide WindowFull, KeptHistory, QuotaLedger.Admits, Resolve, NextRest;
    var st' := st + [StopIn(limits, s, at, c, a)];
    assert forall i :: 0 <= i < |st| ==> st'[i] == st[i];
  }

  lemma CourseStep(limits: Limits, s: State, at: nat, c: Call, a: Answer, st: seq<Stop>)
    requires LedgerTracks(limits, s) && OnCourse(c, st) && !c.pc.Done?
    ensures OnCourse(NextCall(limits, s, c, a), st + [StopIn(limits, s, at, c, a)])
  {
    hide NextPc, NextRest, SubmitCourse, QuoteCourse, DirectCourse, ObserveCourse, StopIn;
    match c.kind
    case Submit(_, _) => SubmitStep(limits, s, at, c, a, st);
    case Quote(_, _) => QuoteStep(limits, s, at, c, a, st);
    case Poll =>
    case _ => OtherStep(limits, s, at, c, a, st);
  }

  lemma NotYetStopped(limits: Limits, ls: seq<Label>, id: nat)
    requires id >= |Reached(limits, ls).calls|
    ensures Stops(limits, ls, id) == []
  {
    if ls != [] {
      CallsGrow(limits, ls);
      NotYetStopped(limits, ls[..|ls| - 1], id);
    }
  }

  lemma CallsGrow(limits: Limits, ls: seq<Label>)
    requires ls != []
    ensures |Reached(limits, ls[..|ls| - 1]).calls| <= |Reached(limits, ls).calls|
  {
    hide Move, Dropped, Registered;
    var s := Reached(limits, ls[..|ls| - 1]);
    if ls[|ls| - 1].Advance? && Enabled(s, ls[|ls| - 1]) {
      MoveKeepsCalls(limits, s, ls[|ls| - 1].id, ls[|ls| - 1].answer);
    }
    if ls[|ls| - 1].Cancel? && Enabled(s, ls[|ls| - 1]) {
      assert |Dropped(s, ls[|ls| - 1].id).calls| == |s.calls| by { DropKeepsCalls(s, ls[|ls| - 1].id); }
    }
    if ls[|ls| - 1].Register? {
      RegisterKeepsCalls(s, ls[|ls| - 1].venue, ls[|ls| - 1].alive);
    }
  }

  lemma MoveKeepsCalls(limits: Limits, s: State, id: nat, a: Answer)
    requires id < |s.calls|
    ensures |Move(limits, s, id, a).calls| == |s.calls|
  {
    hide NextCall, NextSlots, NextLedger, NextCharges, NextWatch;
  }

  lemma DropKeepsCalls(s: State, id: nat)
    requires id < |s.calls|
    ensures |Dropped(s, id).calls| == |s.calls|
  {
  }

  lemma RegisterKeepsCalls(s: State, venue: Venue, alive: bool)
    ensures Registered(s, venue, alive).calls == s.calls
  {
  }

  /** A call just arrived has made no step. */
  lemma Arrived(limits: Limits, ls: seq<Label>, id: nat)
    requires ls != [] && |Reached(limits, ls[..|ls| - 1]).calls| <= id < |Reached(limits, ls).calls|
    ensures Stops(limits, ls, id) == [] && CallOf(limits, ls, id).pc.Start? && !CallOf(limits, ls, id).paid
  {
    hide NextCall, NextSlots, NextLedger, NextCharges, NextWatch;
    NotYetStopped(limits, ls[..|ls| - 1], id);
  }

  /** In every schedule, every submission, quote, status or cancel request and observation that is not
      cancelled has made exactly the steps of its course, in order, and stands where that course says. */
  lemma {:induction false} CallsStayOnCourse(limits: Limits, ls: seq<Label>, id: nat)
    requires NeverCancelled(ls, id) && id < |Reached(limits, ls).calls|
    ensures OnCourse(CallOf(limits, ls, id), Stops(limits, ls, id))
  {
    if ls != [] {
      var before := ls[..|ls| - 1];
      if id < |Reached(limits, before).calls| {
        CallsStayOnCourse(limits, before, id);
        LastStep(limits, ls, id);
        AlwaysTracks(limits, before);
        hide OnCourse, NextCall, NextSlots, NextLedger, NextCharges, NextWatch, StopIn, LedgerTracks;
        var s, l := Reached(limits, before), ls[|ls| - 1];
        if l.Advance? && l.id == id && Ready(s, id) {
          CourseStep(limits, s, |ls| - 1, s.calls[id], l.answer, Stops(limits, before, id));
        }
      } else {
        Arrived(limits, ls, id);
      }
    }
  }

  // --- What the stops are ---

  /** Each stop is a step of the schedule, with what held there. */
  lemma {:induction false} StopsAreSteps(limits: Limits, ls: seq<Label>, id: nat, i: nat)
    requires i < |Stops(limits, ls, id)|
    ensures var stop := Stops(limits, ls, id)[i];
      && StepsAt(limits, ls, id, stop.at, stop.pc) && ls[stop.at].answer == stop.answer
      && var s := Before(limits, ls, stop.at);
         && stop.venue == Resolve(s.adapters, VenueOf(s.calls[id].kind))
         && stop.full == WindowFull(limits, s, s.calls[id].kind)
  {
    var n := |ls| - 1;
    if i < |Stops(limits, ls[..n], id)| {
      StopsAreSteps(limits, ls[..n], id, i);
      Earlier(limits, ls, Stops(limits, ls[..n], id)[i].at);
    }
  }

  /** A stop at a watch puts its receipt under watch as the set then stands: it is in it if admitted. */
  lemma WatchStopsWatch(limits: Limits, ls: seq<Label>, id: nat, i: nat)
    requires i < |Stops(limits, ls, id)|
    requires var pc := Stops(limits, ls, id)[i].pc; pc.WatchFree? || pc.WatchHeld?
    ensures var stop := Stops(limits, ls, id)[i];
      && stop.at < |ls|
      && var s, s' := Before(limits, ls, stop.at), Before(limits, ls, stop.at + 1);
         && s'.watch == WatchSet.WatchOne(limits, s.watch, stop.pc.ref, s.now)
         && (WatchSet.Has(s'.watch.entries, stop.pc.ref) <==> WatchSet.Admitted(limits, s.watch, stop.pc.ref, s.now))
  {
    var stop := Stops(limits, ls, id)[i];
    StopsAreSteps(limits, ls, id, i);
    MoveIsNext(limits, ls, stop.at);
    AlwaysSteady(limits, ls[..stop.at]);
    hide Reached, NextCall, NextSlots, NextLedger, NextCharges, WatchSet.Consistent, WatchSet.WatchOne, WatchSet.Admitted, WatchSet.Has;
    var s := Before(limits, ls, stop.at);
    WatchSet.WatchConsistent(limits, s.watch, stop.pc.ref, s.now);
  }
}
