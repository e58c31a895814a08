/** The watch set and its reports, in every reachable state of the concurrent registry. */
module RegistryWatch {
  import opened Prelude
  import opened RegistryModel
  import opened RegistryProtocol
  import opened RegistrySafety
  import WatchSet

  /** The watch set never exceeds its cap, holds each receipt once, keeps every deadline at the last
      answer (or the insertion) plus grace, never stores a terminal status, and has only ever lost an
      entry to a terminal record or to a prune at or after its deadline. */
  lemma WatchSetInvariant(limits: Limits, ls: seq<Label>)
    ensures var s := Reached(limits, ls).watch;
      && WatchSet.Consistent(limits, s)
      && forall i :: 0 <= i < |s.entries| ==> s.entries[i].last.Some? ==> !s.entries[i].last.value.Terminal()
  {
    AlwaysSteady(limits, ls);
    var s := Reached(limits, ls).watch;
    forall i | 0 <= i < |s.entries| && s.entries[i].last.Some?
      ensures !s.entries[i].last.value.Terminal()
    {
      assert WatchSet.Agrees(limits, s.entries[i], WatchSet.LifeOf(s.trail, s.entries[i].ref));
      WatchSet.NoTerminalRecorded(s.trail, s.entries[i].ref);
    }
  }

  /** Under any interleaving, at every moment of every watch lifetime of a receipt, its reports since it
      was inserted are its recorded statuses with consecutive repeats removed, and the first terminal
      status completes that report and ends the lifetime. */
  lemma TransitionReporting(limits: Limits, ls: seq<Label>, ref: Ref)
    ensures var trail := Reached(limits, ls).watch.trail;
      && (forall i :: 0 <= i <= |trail| ==> WatchSet.Faithful(WatchSet.LifeOf(trail[..i], ref)))
      && forall i :: 0 <= i < |trail| && trail[i].Recorded? && trail[i].status.Terminal() ==> WatchSet.ClosesLife(trail, i)
  {
    AlwaysSteady(limits, ls);
    var trail := Reached(limits, ls).watch.trail;
    forall i | 0 <= i <= |trail| ensures WatchSet.Faithful(WatchSet.LifeOf(trail[..i], ref)) {
      assert forall j :: 0 <= j < i ==> trail[..i][..j] == trail[..j];
      WatchSet.ReportsAreDeduped(limits, trail[..i], ref);
    }
    forall i | 0 <= i < |trail| && trail[i].Recorded? && trail[i].status.Terminal() ensures WatchSet.ClosesLife(trail, i) {
      WatchSet.TerminalClosesLife(limits, trail, i);
    }
  }

  /** A poll that fails, or whose venue is dead or gone, leaves the whole watch set as it was. */
  lemma FailedPollChangesNothing(limits: Limits, s: State, id: nat, a: Answer)
    requires Ready(s, id) && s.calls[id].kind.Poll?
    requires !s.calls[id].pc.Start? && !s.calls[id].pc.Record?
    requires !s.calls[id].pc.WatchHeld? && !s.calls[id].pc.WatchFree?
    ensures Move(limits, s, id, a).watch == s.watch
    ensures var c, c' := s.calls[id], Move(limits, s, id, a).calls[id];
      c.rest != [] && ((c.pc.Next? && Resolve(s.adapters, c.rest[0].venue).Err?) || (c.pc.Ask? && !a.StatusIs?))
      ==> c'.pc.Next? && c'.rest == c.rest[1..]
  {
  }

  /** A poll's answer is folded in as it stands, whatever has happened in between: the next step of the
      call, from any later state, records that status for the receipt that was asked about. */
  lemma PolledStatusIsRecorded(limits: Limits, s: State, id: nat, status: Status, later: State, a: Answer)
    requires id < |s.calls| && s.calls[id].kind.Poll? && s.calls[id].pc.Ask? && s.calls[id].rest != []
    requires id < |later.calls| && later.calls[id] == Move(limits, s, id, StatusIs(status)).calls[id]
    ensures var c, end := s.calls[id], Move(limits, later, id, a);
      && end.watch == WatchSet.RecordOne(limits, later.watch, c.rest[0], status, later.now)
      && end.calls[id].pc.Next? && end.calls[id].rest == c.rest[1..]
  {
  }

  /** An accepted submission goes under watch before its call ends, from any later state. */
  lemma AcceptedReceiptIsWatched(limits: Limits, s: State, id: nat, receipt: Bytes, later: State, a: Answer)
    requires id < |s.calls| && s.calls[id].kind.Submit? && s.calls[id].pc.Send?
    requires id < |later.calls| && later.calls[id] == Move(limits, s, id, Receipt(receipt)).calls[id]
    ensures var ref, end := Ref(s.calls[id].kind.venue, receipt), Move(limits, later, id, a);
      && end.calls[id].pc.Done?
      && end.watch == WatchSet.WatchOne(limits, later.watch, ref, later.now)
      && (WatchSet.Consistent(limits, later.watch) && WatchSet.Admitted(limits, later.watch, ref, later.now) ==>
            WatchSet.Has(end.watch.entries, ref))
  {
    hide WatchSet.Consistent, WatchSet.WatchOne, WatchSet.Admitted, WatchSet.Has, NextLedger, NextCharges;
    if WatchSet.Consistent(limits, later.watch) {
      WatchSet.WatchConsistent(limits, later.watch, Ref(s.calls[id].kind.venue, receipt), later.now);
    }
  }
}
