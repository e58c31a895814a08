/**
 The status-watch set: bounded, deduplicated and expiring, with the transitions it
 reports. Beside the entries runs a trail of what happened to each receipt, against
 which the set is audited.
 */
module WatchSet {
  import opened Prelude
  import opened RegistryModel

  datatype Entry = Entry(ref: Ref, last: Option<Status>, expiresAt: Option<Time>)

  datatype Event =
    | Inserted(ref: Ref, at: Time)
    | Recorded(ref: Ref, status: Status, reported: bool, at: Time)
    | Evicted(ref: Ref, at: Time)

  datatype Watched = Watched(entries: seq<Entry>, trail: seq<Event>)

  /** `now.checked_add(grace)`: no deadline when the clock cannot represent it. */
  function Deadline(limits: Limits, now: Time): Option<Time> {
    if now + limits.grace <= limits.horizon then Some(now + limits.grace) else None
  }

  predicate Live(w: Entry, now: Time) { w.expiresAt.None? || now < w.expiresAt.value }

  /** `retain`: the entries still live, in order. */
  function Retained(entries: seq<Entry>, now: Time): seq<Entry> {
    if entries == [] then []
    else
      var front, w := Retained(entries[..|entries| - 1], now), entries[|entries| - 1];
      if Live(w, now) then front + [w] else front
  }

  function Evictions(entries: seq<Entry>, now: Time): seq<Event> {
    if entries == [] then []
    else
      var front, w := Evictions(entries[..|entries| - 1], now), entries[|entries| - 1];
      if Live(w, now) then front else front + [Evicted(w.ref, now)]
  }

  /** `prune_expired`. */
  function PruneExpired(s: Watched, now: Time): Watched {
    Watched(Retained(s.entries, now), s.trail + Evictions(s.entries, now))
  }

  /** `position`: the first entry under `ref`. */
  function Position(entries: seq<Entry>, ref: Ref): (pos: Option<nat>)
    ensures pos.Some? ==> pos.value < |entries| && entries[pos.value].ref == ref
    ensures pos.None? ==> forall i :: 0 <= i < |entries| ==> entries[i].ref != ref
  {
    if entries == [] then None
    else if entries[0].ref == ref then Some(0)
    else
      match Position(entries[1..], ref)
      case None => None
      case Some(i) => Some(i + 1)
  }

  predicate Admitted(limits: Limits, s: Watched, ref: Ref, now: Time) {
    var kept := Retained(s.entries, now);
    Position(kept, ref).Some? || |kept| < limits.maxEntries
  }

  /** `watch`: evict the expired, then insert unless present or full. */
  function WatchOne(limits: Limits, s: Watched, ref: Ref, now: Time): Watched {
    var kept := PruneExpired(s, now);
    if Position(kept.entries, ref).Some? || |kept.entries| >= limits.maxEntries then kept
    else Watched(kept.entries + [Entry(ref, None, Deadline(limits, now))], kept.trail + [Inserted(ref, now)])
  }

  /** The update a polled status amounts to: none if it is a repeat, or the receipt is not there. */
  function UpdateOf(s: Watched, ref: Ref, status: Status): Option<Status> {
    match Position(s.entries, ref)
    case None => None
    case Some(pos) => if s.entries[pos].last == Some(status) then None else Some(status)
  }

  /** `record_polled_status`: fold a polled status into the entry, if it is still there. */
  function RecordOne(limits: Limits, s: Watched, ref: Ref, status: Status, now: Time): Watched {
    match Position(s.entries, ref)
    case None => s
    case Some(pos) =>
      var entry, reported := s.entries[pos], s.entries[pos].last != Some(status);
      var trail := s.trail + [Recorded(ref, status, reported, now)];
      if reported && status.Terminal() then
        Watched(s.entries[..pos] + s.entries[pos + 1..], trail)
      else
        Watched(s.entries[pos := Entry(ref, if reported then Some(status) else entry.last, Deadline(limits, now))], trail)
  }

  // --- What the trail says of one receipt ---

  /** `touched` is the insertion or the last answer; `recorded` and `reported` are since the insertion. */
  datatype Life = Gone | Alive(recorded: seq<Status>, reported: seq<Status>, touched: Time)

  function LifeAfter(life: Life, e: Event): Life {
    match e
    case Inserted(_, at) => Alive([], [], at)
    case Evicted(_, _) => Gone
    case Recorded(_, status, reported, at) =>
      if life.Gone? || status.Terminal() then Gone
      else Alive(life.recorded + [status], if reported then life.reported + [status] else life.reported, at)
  }

  function LifeOf(trail: seq<Event>, ref: Ref): Life {
    if trail == [] then Gone
    else
      var before, e := LifeOf(trail[..|trail| - 1], ref), trail[|trail| - 1];
      if e.ref == ref then LifeAfter(before, e) else before
  }

  function LastOf(ss: seq<Status>): Option<Status> {
    if ss == [] then None else Some(ss[|ss| - 1])
  }

  /** Consecutive repeats removed. */
  function Deduped(ss: seq<Status>): seq<Status> {
    if ss == [] then []
    else Deduped(ss[..|ss| - 1]) + if LastOf(ss[..|ss| - 1]) == LastOf(ss) then [] else [ss[|ss| - 1]]
  }

  /** The specification of one life so far: what was reported is what was recorded, deduplicated. */
  predicate Faithful(life: Life) {
    life.Alive? ==>
      && life.reported == Deduped(life.recorded)
      && forall i :: 0 <= i < |life.recorded| ==> !life.recorded[i].Terminal()
  }

  /** What may happen to a receipt next: it is inserted only when absent, evicted only at or after
      its deadline, and a recorded status is reported exactly when it is not a repeat. */
  predicate Lawful(limits: Limits, life: Life, e: Event) {
    match e
    case Inserted(_, _) => life.Gone?
    case Evicted(_, at) => life.Alive? && Deadline(limits, life.touched).Some? && Deadline(limits, life.touched).value <= at
    case Recorded(_, status, reported, _) => life.Alive? && (reported <==> LastOf(life.recorded) != Some(status))
  }

  ghost predicate LawfulTrail(limits: Limits, trail: seq<Event>) {
    forall i :: 0 <= i < |trail| ==> Lawful(limits, LifeOf(trail[..i], trail[i].ref), trail[i])
  }

  predicate Agrees(limits: Limits, w: Entry, life: Life) {
    life.Alive? && w.last == LastOf(life.recorded) && w.expiresAt == Deadline(limits, life.touched)
  }

  ghost predicate Distinct(entries: seq<Entry>) {
    forall i, j :: 0 <= i < j < |entries| ==> entries[i].ref != entries[j].ref
  }

  /** Some entry is filed under `ref`. */
  ghost predicate Has(entries: seq<Entry>, ref: Ref) {
    exists i :: 0 <= i < |entries| && entries[i].ref == ref
  }

  /** The entries are exactly the receipts alive on a lawful trail, one each, and agree with it. */
  ghost predicate Covers(limits: Limits, entries: seq<Entry>, trail: seq<Event>) {
    && Distinct(entries) && LawfulTrail(limits, trail)
    && (forall i :: 0 <= i < |entries| ==> Agrees(limits, entries[i], LifeOf(trail, entries[i].ref)))
    && (forall ref :: LifeOf(trail, ref).Alive? ==> Has(entries, ref))
  }

  ghost predicate Consistent(limits: Limits, s: Watched) {
    |s.entries| <= limits.maxEntries && Covers(limits, s.entries, s.trail)
  }

  // --- The operations keep the set consistent ---

  lemma Extended(limits: Limits, trail: seq<Event>, e: Event)
    requires LawfulTrail(limits, trail) && Lawful(limits, LifeOf(trail, e.ref), e)
    ensures LawfulTrail(limits, trail + [e])
    ensures forall ref :: LifeOf(trail + [e], ref) == if e.ref == ref then LifeAfter(LifeOf(trail, ref), e) else LifeOf(trail, ref)
  {
    var t := trail + [e];
    assert t[..|t| - 1] == trail;
    forall i | 0 <= i < |t| ensures Lawful(limits, LifeOf(t[..i], t[i].ref), t[i]) {
      if i < |trail| {
        assert t[..i] == trail[..i];
      } else {
        assert t[..i] == trail;
      }
    }
  }

  /** Taking out one entry, with the event that ends its life. */
  lemma RemovedCovers(limits: Limits, entries: seq<Entry>, trail: seq<Event>, pos: nat, e: Event)
    requires Covers(limits, entries, trail) && pos < |entries| && entries[pos].ref == e.ref
    requires Lawful(limits, LifeOf(trail, e.ref), e) && LifeAfter(LifeOf(trail, e.ref), e).Gone?
    ensures Covers(limits, entries[..pos] + entries[pos + 1..], trail + [e])
  {
    hide Agrees, Lawful, LifeAfter, LifeOf, LawfulTrail;
    Extended(limits, trail, e);
    WithoutOne(entries, pos);
  }

  /** What is left when one entry is taken out of a set without duplicates. */
  lemma WithoutOne(entries: seq<Entry>, pos: nat)
    requires pos < |entries| && Distinct(entries)
    ensures var left := entries[..pos] + entries[pos + 1..];
      && Distinct(left) && (forall w :: w in left ==> w in entries && w.ref != entries[pos].ref)
      && forall ref :: Has(entries, ref) && ref != entries[pos].ref ==> Has(left, ref)
  {
    var left := entries[..pos] + entries[pos + 1..];
    assert forall i :: 0 <= i < |left| ==> left[i] == entries[if i < pos then i else i + 1];
    forall ref | Has(entries, ref) && ref != entries[pos].ref ensures Has(left, ref) {
      var i :| 0 <= i < |entries| && entries[i].ref == ref;
      assert left[if i < pos then i else i - 1] == entries[i];
    }
  }

  /** Pruning front to back: after `n` entries, the survivors and the rest are the living ones. */
  lemma {:induction false} PruneCovers(limits: Limits, s: Watched, now: Time, n: nat)
    requires Covers(limits, s.entries, s.trail) && n <= |s.entries|
    ensures Covers(limits, Retained(s.entries[..n], now) + s.entries[n..], s.trail + Evictions(s.entries[..n], now))
    ensures |Retained(s.entries[..n], now)| <= n
  {
    hide Covers, Agrees;
    if n == 0 {
      assert [] + s.entries[0..] == s.entries && s.trail + [] == s.trail;
    } else {
      PruneCovers(limits, s, now, n - 1);
      var front, w, rest := s.entries[..n - 1], s.entries[n - 1], s.entries[n..];
      assert s.entries[..n][..n - 1] == front && s.entries[n - 1..] == [w] + rest;
      var kept, trail := Retained(front, now), s.trail + Evictions(front, now);
      var entries := kept + s.entries[n - 1..];
      if Live(w, now) {
        assert entries == (kept + [w]) + rest;
      } else {
        assert entries[|kept|] == w && entries[..|kept|] + entries[|kept| + 1..] == kept + rest;
        DeadIsEvictable(limits, entries, trail, |kept|, now);
        RemovedCovers(limits, entries, trail, |kept|, Evicted(w.ref, now));
        assert s.trail + Evictions(s.entries[..n], now) == trail + [Evicted(w.ref, now)];
      }
    }
  }

  lemma DeadIsEvictable(limits: Limits, entries: seq<Entry>, trail: seq<Event>, pos: nat, now: Time)
    requires Covers(limits, entries, trail) && pos < |entries| && !Live(entries[pos], now)
    ensures Lawful(limits, LifeOf(trail, entries[pos].ref), Evicted(entries[pos].ref, now))
  {
  }

  lemma PruneConsistent(limits: Limits, s: Watched, now: Time)
    requires Consistent(limits, s)
    ensures Consistent(limits, PruneExpired(s, now))
    ensures |PruneExpired(s, now).entries| <= |s.entries|
  {
    hide Covers;
    PruneCovers(limits, s, now, |s.entries|);
    assert s.entries[..|s.entries|] == s.entries && s.entries[|s.entries|..] == [];
    var kept := Retained(s.entries, now);
    assert kept + [] == kept;
  }

  lemma {:induction false} RetainedExactly(entries: seq<Entry>, now: Time, w: Entry)
    ensures w in Retained(entries, now) <==> w in entries && Live(w, now)
  {
    if entries != [] {
      var n := |entries| - 1;
      assert entries == entries[..n] + [entries[n]];
      RetainedExactly(entries[..n], now, w);
    }
  }

  /** Watching changes no survivor: an entry is there after iff it was there and is live, or is the one inserted. */
  lemma WatchKeepsSurvivors(limits: Limits, s: Watched, ref: Ref, now: Time, w: Entry)
    ensures w in WatchOne(limits, s, ref, now).entries <==>
      || (w in s.entries && Live(w, now))
      || (w == Entry(ref, None, Deadline(limits, now))
          && Position(Retained(s.entries, now), ref).None? && |Retained(s.entries, now)| < limits.maxEntries)
  {
    RetainedExactly(s.entries, now, w);
  }

  /** Watching keeps the set consistent; the receipt is then in it unless the set was full. */
  lemma WatchConsistent(limits: Limits, s: Watched, ref: Ref, now: Time)
    requires Consistent(limits, s)
    ensures Consistent(limits, WatchOne(limits, s, ref, now))
    ensures Has(WatchOne(limits, s, ref, now).entries, ref) <==> Admitted(limits, s, ref, now)
  {
    hide Covers, Retained, Evictions;
    PruneConsistent(limits, s, now);
    var kept := PruneExpired(s, now);
    if Position(kept.entries, ref).None? && |kept.entries| < limits.maxEntries {
      InsertedCovers(limits, kept, ref, now);
      var entries := WatchOne(limits, s, ref, now).entries;
      assert entries[|entries| - 1].ref == ref;
    }
  }

  lemma InsertedCovers(limits: Limits, s: Watched, ref: Ref, now: Time)
    requires Covers(limits, s.entries, s.trail) && !Has(s.entries, ref)
    ensures Covers(limits, s.entries + [Entry(ref, None, Deadline(limits, now))], s.trail + [Inserted(ref, now)])
  {
    var entry := Entry(ref, None, Deadline(limits, now));
    assert LifeOf(s.trail, ref).Gone?;
    hide LifeOf, LawfulTrail;
    Extended(limits, s.trail, Inserted(ref, now));
    DistinctJoin(s.entries, entry);
    forall other | Has(s.entries, other) || other == ref ensures Has(s.entries + [entry], other) {
      HasJoin(s.entries, entry, other);
    }
  }

  lemma DistinctJoin(entries: seq<Entry>, w: Entry)
    requires Distinct(entries) && !Has(entries, w.ref)
    ensures Distinct(entries + [w])
  {
  }

  lemma HasJoin(entries: seq<Entry>, w: Entry, ref: Ref)
    ensures Has(entries + [w], ref) <==> Has(entries, ref) || w.ref == ref
  {
    var more := entries + [w];
    assert more[|entries|] == w && forall i :: 0 <= i < |entries| ==> more[i] == entries[i];
  }

  /** Recording over an entry is lawful, and a terminal status is never a repeat. */
  lemma RecordIsLawful(limits: Limits, s: Watched, pos: nat, e: Event)
    requires Covers(limits, s.entries, s.trail) && pos < |s.entries| && s.entries[pos].ref == e.ref
    requires e.Recorded? && e.reported == (s.entries[pos].last != Some(e.status))
    ensures Lawful(limits, LifeOf(s.trail, e.ref), e)
    ensures e.status.Terminal() ==> e.reported && LifeAfter(LifeOf(s.trail, e.ref), e).Gone?
  {
    hide LawfulTrail;
    assert Agrees(limits, s.entries[pos], LifeOf(s.trail, e.ref));
    NoTerminalRecorded(s.trail, e.ref);
  }

  lemma RecordConsistent(limits: Limits, s: Watched, ref: Ref, status: Status, now: Time)
    requires Consistent(limits, s)
    ensures Consistent(limits, RecordOne(limits, s, ref, status, now))
  {
    var pos := Position(s.entries, ref);
    if pos.Some? {
      var e := Recorded(ref, status, s.entries[pos.value].last != Some(status), now);
      RecordIsLawful(limits, s, pos.value, e);
      hide Covers, LifeOf, LifeAfter, Lawful;
      if status.Terminal() {
        RemovedCovers(limits, s.entries, s.trail, pos.value, e);
      } else {
        RefreshedCovers(limits, s, pos.value, e);
      }
    }
  }

  lemma RefreshedCovers(limits: Limits, s: Watched, pos: nat, e: Event)
    requires Covers(limits, s.entries, s.trail) && pos < |s.entries| && s.entries[pos].ref == e.ref
    requires e.Recorded? && !e.status.Terminal() && Lawful(limits, LifeOf(s.trail, e.ref), e)
    ensures Covers(limits, s.entries[pos := Entry(e.ref, Some(e.status), Deadline(limits, e.at))], s.trail + [e])
  {
    var entries := s.entries[pos := Entry(e.ref, Some(e.status), Deadline(limits, e.at))];
    Extended(limits, s.trail, e);
    assert forall i :: 0 <= i < |entries| ==> entries[i].ref == s.entries[i].ref;
    forall ref | LifeOf(s.trail + [e], ref).Alive? ensures Has(entries, ref) {
      if ref == e.ref {
        assert entries[pos].ref == ref;
      } else {
        var i :| 0 <= i < |s.entries| && s.entries[i].ref == ref;
        assert entries[i].ref == ref;
      }
    }
  }

  // --- What a lawful trail reports ---

  /** A stored status is never terminal. */
  lemma {:induction false} NoTerminalRecorded(trail: seq<Event>, ref: Ref)
    ensures var life := LifeOf(trail, ref);
      life.Alive? ==> forall i :: 0 <= i < |life.recorded| ==> !life.recorded[i].Terminal()
  {
    if trail != [] {
      NoTerminalRecorded(trail[..|trail| - 1], ref);
    }
  }

  /** Reporting refines its specification: in every life the reported statuses are the recorded
      ones with consecutive repeats removed, whichever polls, submits and observes interleave. */
  lemma {:induction false} ReportsAreDeduped(limits: Limits, trail: seq<Event>, ref: Ref)
    requires LawfulTrail(limits, trail)
    ensures Faithful(LifeOf(trail, ref))
  {
    if trail != [] {
      var before, e := trail[..|trail| - 1], trail[|trail| - 1];
      assert forall i :: 0 <= i < |before| ==> before[..i] == trail[..i];
      ReportsAreDeduped(limits, before, ref);
      NoTerminalRecorded(trail, ref);
      assert Lawful(limits, LifeOf(before, e.ref), e);
      if e.ref == ref && e.Recorded? && LifeOf(before, ref).Alive? {
        DedupedOneMore(LifeOf(before, ref).recorded, e.status);
      }
    }
  }

  lemma DedupedOneMore(ss: seq<Status>, status: Status)
    ensures Deduped(ss + [status]) == Deduped(ss) + if LastOf(ss) == Some(status) then [] else [status]
  {
  }

  /** The record at `i` is reported, completes its receipt's deduplicated report, and ends the life. */
  predicate ClosesLife(trail: seq<Event>, i: nat)
    requires i < |trail| && trail[i].Recorded?
  {
    var life, status := LifeOf(trail[..i], trail[i].ref), trail[i].status;
    && trail[i].reported && LifeOf(trail[..i + 1], trail[i].ref).Gone?
    && life.Alive? && life.reported + [status] == Deduped(life.recorded + [status])
  }

  /** The first terminal status is reported, completes the deduplicated report, and ends the life. */
  lemma TerminalClosesLife(limits: Limits, trail: seq<Event>, i: nat)
    requires LawfulTrail(limits, trail) && i < |trail|
    requires trail[i].Recorded? && trail[i].status.Terminal()
    ensures ClosesLife(trail, i)
  {
    var before, e := trail[..i], trail[i];
    assert forall j :: 0 <= j < i ==> before[..j] == trail[..j];
    ReportsAreDeduped(limits, before, e.ref);
    NoTerminalRecorded(before, e.ref);
    assert Lawful(limits, LifeOf(before, e.ref), e);
    DedupedOneMore(LifeOf(before, e.ref).recorded, e.status);
    assert trail[..i + 1][..i] == before;
  }

  // --- What a record call answers ---

  /** The receipt is alive on the trail, and `status` is not the last recorded there. */
  predicate IsNews(life: Life, status: Status) {
    life.Alive? && (life.recorded == [] || life.recorded[|life.recorded| - 1] != status)
  }

  /** A record call answers an update exactly for news, and the trail's flag is that answer. */
  lemma UpdateIsNews(limits: Limits, s: Watched, ref: Ref, status: Status, now: Time)
    requires Consistent(limits, s)
    ensures var life, news := LifeOf(s.trail, ref), IsNews(LifeOf(s.trail, ref), status);
      && UpdateOf(s, ref, status) == (if news then Some(status) else None)
      && RecordOne(limits, s, ref, status, now).trail
         == (if life.Alive? then s.trail + [Recorded(ref, status, news, now)] else s.trail)
  {
    hide LawfulTrail;
    var pos := Position(s.entries, ref);
    if pos.Some? {
      assert Agrees(limits, s.entries[pos.value], LifeOf(s.trail, ref));
    } else {
      assert !Has(s.entries, ref);
    }
  }

  /** A record call, with the instant it is made at. */
  datatype Polled = Polled(ref: Ref, status: Status, at: Time)

  /** The updates answered for `ref` by a sequence of record calls. */
  function Published(limits: Limits, s: Watched, calls: seq<Polled>, ref: Ref): seq<Status>
    decreases |calls|
  {
    if calls == [] then []
    else
      var c := calls[0];
      var answer := if c.ref == ref then UpdateOf(s, c.ref, c.status) else None;
      (if answer.Some? then [answer.value] else [])
      + Published(limits, RecordOne(limits, s, c.ref, c.status, c.at), calls[1..], ref)
  }

  /** The statuses recorded for `ref`, up to and including the first terminal one. */
  function PolledFor(calls: seq<Polled>, ref: Ref): seq<Status> {
    if calls == [] then []
    else if calls[0].ref != ref then PolledFor(calls[1..], ref)
    else if calls[0].status.Terminal() then [calls[0].status]
    else [calls[0].status] + PolledFor(calls[1..], ref)
  }

  lemma RecordMoves(limits: Limits, s: Watched, c: Polled, ref: Ref)
    requires Consistent(limits, s)
    ensures var life, life' := LifeOf(s.trail, ref), LifeOf(RecordOne(limits, s, c.ref, c.status, c.at).trail, ref);
      if c.ref != ref || life.Gone? then life' == life
      else if c.status.Terminal() then life'.Gone?
      else
        && life'.Alive? && life'.recorded == life.recorded + [c.status]
        && life'.reported == life.reported + if IsNews(life, c.status) then [c.status] else []
  {
    UpdateIsNews(limits, s, c.ref, c.status, c.at);
    var trail := RecordOne(limits, s, c.ref, c.status, c.at).trail;
    hide RecordOne, Consistent;
    if trail != s.trail {
      assert trail[..|trail| - 1] == s.trail;
    }
  }

  /** Over any sequence of record calls, what is answered for a receipt in one lifetime, together with
      what was answered in it before, is its recorded statuses with consecutive repeats removed, the
      first terminal one included; and nothing is answered for a receipt that is not there. */
  lemma {:induction false} PublishedIsDeduped(limits: Limits, s: Watched, calls: seq<Polled>, ref: Ref)
    requires Consistent(limits, s)
    ensures var life, out := LifeOf(s.trail, ref), Published(limits, s, calls, ref);
      if life.Gone? then out == [] else life.reported + out == Deduped(life.recorded + PolledFor(calls, ref))
    decreases |calls|
  {
    hide RecordOne, LifeOf;
    var life := LifeOf(s.trail, ref);
    if calls == [] {
      assert life.Alive? ==> life.recorded + [] == life.recorded;
      ReportsAreDeduped(limits, s.trail, ref);
    } else {
      var c := calls[0];
      var next := RecordOne(limits, s, c.ref, c.status, c.at);
      RecordConsistent(limits, s, c.ref, c.status, c.at);
      RecordMoves(limits, s, c, ref);
      UpdateIsNews(limits, s, c.ref, c.status, c.at);
      LifeIsDeduped(limits, s, ref);
      NoTerminalRecorded(s.trail, ref);
      PublishedIsDeduped(limits, next, calls[1..], ref);
      hide Consistent, UpdateOf, Published, PolledFor;
      var out, rest := Published(limits, s, calls, ref), Published(limits, next, calls[1..], ref);
      PublishedUnfolds(limits, s, calls, ref);
      if c.ref == ref && life.Alive? {
        StatusesJoin(life, c.status, rest, PolledFor(calls[1..], ref));
      }
    }
  }

  lemma PublishedUnfolds(limits: Limits, s: Watched, calls: seq<Polled>, ref: Ref)
    requires calls != []
    ensures var c := calls[0]; var rest := Published(limits, RecordOne(limits, s, c.ref, c.status, c.at), calls[1..], ref);
      Published(limits, s, calls, ref) ==
        if c.ref == ref && UpdateOf(s, ref, c.status).Some? then [UpdateOf(s, ref, c.status).value] + rest else rest
    ensures var c, rest := calls[0], PolledFor(calls[1..], ref);
      PolledFor(calls, ref) == if c.ref != ref then rest else if c.status.Terminal() then [c.status] else [c.status] + rest
  {
    hide RecordOne, UpdateOf;
  }

  /** One record more in a life: `rest` is answered after it, for the statuses `more`. */
  lemma StatusesJoin(life: Life, status: Status, rest: seq<Status>, more: seq<Status>)
    requires life.Alive? && Faithful(life)
    requires forall i :: 0 <= i < |life.recorded| ==> !life.recorded[i].Terminal()
    ensures var news := if IsNews(life, status) then [status] else [];
      && (!status.Terminal() && life.reported + news + rest == Deduped(life.recorded + [status] + more) ==>
            life.reported + (news + rest) == Deduped(life.recorded + ([status] + more)))
      && (status.Terminal() && rest == [] ==>
            life.reported + (news + rest) == Deduped(life.recorded + [status]))
  {
    var news := if IsNews(life, status) then [status] else [];
    assert life.reported + news + rest == life.reported + (news + rest);
    assert life.recorded + [status] + more == life.recorded + ([status] + more);
    DedupedOneMore(life.recorded, status);
  }

  lemma LifeIsDeduped(limits: Limits, s: Watched, ref: Ref)
    requires Consistent(limits, s)
    ensures Faithful(LifeOf(s.trail, ref))
  {
    ReportsAreDeduped(limits, s.trail, ref);
  }

  // --- Each operation's entries, with the clock and the grace written out ---

  /** Eviction works entry by entry and keeps the order: an entry goes at or after its deadline. */
  lemma {:induction false} RetainedLaw(a: seq<Entry>, b: seq<Entry>, w: Entry, now: Time)
    ensures Retained(a + b, now) == Retained(a, now) + Retained(b, now)
    ensures Retained([w], now) == if w.expiresAt.Some? && w.expiresAt.value <= now then [] else [w]
  {
    assert [w][..0] == [];
    if b == [] {
      assert a + b == a;
    } else {
      var n := |b| - 1;
      assert (a + b)[..|a + b| - 1] == a + b[..n];
      RetainedLaw(a, b[..n], w, now);
    }
  }

  /** A receipt survives a prune at `now` exactly when its last answer, or its insertion, is less than the
      grace ago, or the clock cannot represent that deadline. */
  lemma PruneLaw(limits: Limits, s: Watched, ref: Ref, now: Time)
    requires Consistent(limits, s)
    ensures Has(PruneExpired(s, now).entries, ref) <==>
      var life := LifeOf(s.trail, ref);
      life.Alive? && (life.touched + limits.grace > limits.horizon || now < life.touched + limits.grace)
  {
    var kept, life := Retained(s.entries, now), LifeOf(s.trail, ref);
    hide LawfulTrail, LifeOf;
    if Has(kept, ref) {
      var i :| 0 <= i < |kept| && kept[i].ref == ref;
      RetainedExactly(s.entries, now, kept[i]);
      var m :| 0 <= m < |s.entries| && s.entries[m] == kept[i];
      assert Agrees(limits, s.entries[m], life);
    }
    if life.Alive? && (life.touched + limits.grace > limits.horizon || now < life.touched + limits.grace) {
      var m :| 0 <= m < |s.entries| && s.entries[m].ref == ref;
      assert Agrees(limits, s.entries[m], life);
      RetainedExactly(s.entries, now, s.entries[m]);
      var i :| 0 <= i < |kept| && kept[i] == s.entries[m];
    }
  }

  /** A watch leaves the survivors, and adds a fresh entry at the end if the receipt is absent and there is room. */
  lemma WatchLaw(limits: Limits, s: Watched, ref: Ref, now: Time)
    ensures var kept, after := PruneExpired(s, now).entries, WatchOne(limits, s, ref, now).entries;
      after == if Has(kept, ref) || |kept| >= limits.maxEntries then kept
               else kept + [Entry(ref, None, if now + limits.grace > limits.horizon then None else Some(now + limits.grace))]
  {
    hide Retained, Evictions;
  }

  /** A record refreshes the one entry to the status and a full grace from now; the first terminal status
      takes it out; no other entry is touched. */
  lemma RecordLaw(limits: Limits, s: Watched, ref: Ref, status: Status, now: Time, i: nat)
    requires Distinct(s.entries) && i < |s.entries| && s.entries[i].ref == ref
    ensures RecordOne(limits, s, ref, status, now).entries ==
      if status in {Fulfilled, Cancelled, Expired} && s.entries[i].last != Some(status)
      then s.entries[..i] + s.entries[i + 1..]
      else s.entries[i := Entry(ref, Some(status),
        if now + limits.grace > limits.horizon then None else Some(now + limits.grace))]
  {
    assert Position(s.entries, ref).Some? && Position(s.entries, ref).value == i;
  }

  lemma RecordOfAbsent(limits: Limits, s: Watched, ref: Ref, status: Status, now: Time)
    requires !Has(s.entries, ref)
    ensures RecordOne(limits, s, ref, status, now) == s && UpdateOf(s, ref, status).None?
  {
  }

  // --- The set as the source keeps it ---

  class WatchList {
    var entries: seq<Entry>
    ghost var trail: seq<Event>

    constructor ()
      ensures State() == Watched([], [])
    {
      entries, trail := [], [];
    }

    ghost function State(): Watched
      reads this
    {
      Watched(entries, trail)
    }

    /** `retain`, counting the evicted. */
    method Prune(now: Time) returns (evicted: nat)
      modifies this
      ensures State() == PruneExpired(old(State()), now)
      ensures evicted == old(|entries|) - |entries|
    {
      ghost var gone := Evictions(entries, now);
      var before, kept, i := |entries|, [], 0;
      while i < |entries|
        invariant 0 <= i <= |entries| && |kept| <= i
        invariant kept == Retained(entries[..i], now)
      {
        assert entries[..i + 1][..i] == entries[..i];
        if Live(entries[i], now) {
          kept := kept + [entries[i]];
        }
        i := i + 1;
      }
      assert entries[..i] == entries;
      entries, trail := kept, trail + gone;
      evicted := before - |entries|;
    }

    method Find(ref: Ref) returns (pos: Option<nat>)
      ensures pos == Position(entries, ref)
    {
      var i := 0;
      while i < |entries|
        invariant 0 <= i <= |entries|
        invariant Position(entries, ref) == Shifted(Position(entries[i..], ref), i)
      {
        assert entries[i..][0] == entries[i] && entries[i..][1..] == entries[i + 1..];
        if entries[i].ref == ref {
          return Some(i);
        }
        i := i + 1;
      }
      pos := None;
    }

    method Watch(limits: Limits, ref: Ref, now: Time) returns (admitted: bool)
      modifies this
      ensures State() == WatchOne(limits, old(State()), ref, now)
      ensures admitted == Admitted(limits, old(State()), ref, now)
    {
      var evicted := Prune(now);
      var pos := Find(ref);
      if pos.Some? {
        return true;
      }
      if |entries| < limits.maxEntries {
        entries := entries + [Entry(ref, None, Deadline(limits, now))];
        trail := trail + [Inserted(ref, now)];
        return true;
      }
      admitted := false;
    }

    method Record(limits: Limits, ref: Ref, status: Status, now: Time) returns (update: Option<Status>)
      modifies this
      ensures State() == RecordOne(limits, old(State()), ref, status, now)
      ensures update == UpdateOf(old(State()), ref, status)
      ensures Consistent(limits, old(State())) ==>
        (update == if IsNews(LifeOf(old(State()).trail, ref), status) then Some(status) else None)
    {
      if Consistent(limits, State()) { UpdateIsNews(limits, State(), ref, status, now); }
      var found := Find(ref);
      if found.None? {
        return None;
      }
      var pos := found.value;
      trail := trail + [Recorded(ref, status, entries[pos].last != Some(status), now)];
      if entries[pos].last == Some(status) {
        entries := entries[pos := entries[pos].(expiresAt := Deadline(limits, now))];
        return None;
      }
      if status.Terminal() {
        entries := entries[..pos] + entries[pos + 1..];
      } else {
        entries := entries[pos := entries[pos].(last := Some(status), expiresAt := Deadline(limits, now))];
      }
      update := Some(status);
    }
  }

  function Shifted(pos: Option<nat>, offset: nat): Option<nat> {
    match pos
    case None => None
    case Some(i) => Some(i + offset)
  }
}
