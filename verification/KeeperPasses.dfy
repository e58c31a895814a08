/**
 A reconcile pass as its reservations, one by one: which events each leaves on the
 trail, how it is counted, and what ends the pass.
 */
module KeeperPasses {
  import opened Prelude
  import opened KeeperModel
  import opened KeeperSpec
  import opened JournalProtocol
  import opened KeeperRefinement
  import opened KeeperRetries
  import opened KeeperVisits
  import opened KeeperRuns

  // --- One reservation ---

  /** The trail of a retried reservation: its POST, and the write its answer calls for. */
  predicate ShowsRetry(k: Config, epoch: U64, r: Reservation, es: seq<Event>) {
    && |es| >= 1 && es[0].Posted? && es[0] == Posted(r.key, r.body, epoch, false, es[0].reply)
    && match es[0].reply
       case Lost(_) => |es| == 1
       case Answer(Accepted(_), _) => IsWrite(es, 1, Commit(r.key)) && |es| == 2
       case Answer(RequiresSigning(_), _) => IsWrite(es, 1, Release(r.key)) && |es| == 2
       case Answer(Refused(fault), _) =>
         if k.policy(fault) == Drop then IsWrite(es, 1, Release(r.key)) && |es| == 2
         else if fault.RateLimited? && fault.retryAfterMs.Some? then
           |es| == 2 && es[1].Wrote? && es[1].op.Park? && ParksFor(es[1].op, r, epoch, fault.retryAfterMs.value)
         else |es| == 1
  }

  /** The row is kept, and its deadline is the hint away in whole seconds rounded up, clock permitting. */
  predicate ParksFor(op: Op, r: Reservation, epoch: U64, ms: U64)
    requires op.Park?
  {
    && op.key == r.key && op.body == r.body
    && epoch <= op.until && 1000 * (op.until - epoch) < ms + 1000
    && (op.until < U64_MAX ==> ms <= 1000 * (op.until - epoch))
  }

  /** The answer's place in the report. */
  function Answered1(k: Config, r: ReconcileReport, outcome: Outcome): ReconcileReport {
    match outcome
    case Accepted(_) => r.(committed := r.committed + 1)
    case RequiresSigning(tx) => r.(unsigned := r.unsigned + [tx])
    case Refused(fault) =>
      if k.policy(fault) == Drop then r.(released := r.released + 1) else r.(pending := r.pending + 1)
  }

  /** One reservation, seen from outside. */
  ghost predicate RetryLaw(k: Config, epoch: U64, r: Reservation, a: Recon, b: Recon) {
    var es := Since(a.world, b.world);
    && Did(a.world, b.world, es)
    && if r.nextEligible > epoch then es == [] && b == a.(report := a.report.(gated := a.report.gated + 1))
       else if a.spent >= k.budget then es == [] && b == a.(status := Spent)
       else
         && ShowsRetry(k, epoch, r, es) && b.spent == a.spent + 1
         && b.status == (if EndsCut(es) then Cut else if EndsFaulted(es) then Failed else Running)
         && (b.status.Running? ==> b.report == Answered1(k, a.report, es[0].reply.outcome))
  }

  lemma RetryObeys(k: Config, env: Env, epoch: U64, a: Recon, r: Reservation)
    requires a.status.Running?
    ensures RetryLaw(k, epoch, r, a, ReconcileStep(k, env, epoch, a, r))
  {
    hide Did, Resolve;
    var w := a.world;
    DidNothing(w);
    SinceIs(w, w, []);
    if r.nextEligible <= epoch && a.spent < k.budget {
      var e := Posted(r.key, r.body, epoch, false, ReplyAt(env, w, false, r.body));
      DidMore(w, w, [], e);
      assert [] + [e] == [e];
      ResolveShows(k, env, epoch, e, r, a.(world := After(w, e), spent := a.spent + 1), w);
    }
  }

  lemma ResolveShows(k: Config, env: Env, epoch: U64, e: Event, r: Reservation, a: Recon, w: World)
    requires a.status.Running? && Did(w, a.world, [e])
    requires e.Posted? && e == Posted(r.key, r.body, epoch, false, e.reply)
    ensures var b := Resolve(k, env, epoch, e.reply, r, a); var es := Since(w, b.world);
      && Did(w, b.world, es) && ShowsRetry(k, epoch, r, es) && b.spent == a.spent
      && b.status == (if EndsCut(es) then Cut else if EndsFaulted(es) then Failed else Running)
      && (b.status.Running? ==> b.report == Answered1(k, a.report, es[0].reply.outcome))
  {
    hide Did;
    SinceIs(w, a.world, [e]);
    if e.reply.Answer? {
      var o := e.reply.outcome;
      var op := if o.Accepted? then Commit(r.key)
        else if Releases(k, o, false) then Release(r.key)
        else Park(r.key, r.body, ParkUntil(epoch, if Hinted(o.fault) then o.fault.retryAfterMs.value else 0));
      var e' := Wrote(op, LandingAt(env, a.world));
      DidMore(w, a.world, [e], e');
      assert [e] + [e'] == [e, e'];
      SinceIs(w, After(a.world, e'), [e, e']);
    }
  }

  // --- A whole pass ---

  /** The pass after the first `i` reservations of its snapshot. */
  ghost function PassAt(k: Config, input: RunInput, w: World, i: nat): Recon
    requires ListsPending(input.env) && i <= |SnapshotOf(input, w)|
  {
    ReconcileAll(k, input.env, input.epoch, Recon(Running, w, 0, EMPTY_RECONCILE), SnapshotOf(input, w)[..i])
  }

  /** The reservations as read when the pass began. */
  ghost function SnapshotOf(input: RunInput, w: World): seq<Reservation>
    requires ListsPending(input.env)
  {
    assert IsListing(input.env.listing(w.journal), PendingKeys(w.journal));
    Snapshot(w.journal, input.env.listing(w.journal))
  }

  ghost predicate PassStep(k: Config, input: RunInput, w: World, i: nat)
    requires ListsPending(input.env) && i < |SnapshotOf(input, w)|
  {
    var a, b := PassAt(k, input, w, i), PassAt(k, input, w, i + 1);
    if a.status.Running? then RetryLaw(k, input.epoch, SnapshotOf(input, w)[i], a, b) else b == a
  }

  lemma {:induction false} ReconcileSplits(k: Config, env: Env, epoch: U64, a: Recon, rs: seq<Reservation>, i: nat)
    requires i <= |rs|
    ensures ReconcileAll(k, env, epoch, a, rs)
         == ReconcileAll(k, env, epoch, ReconcileAll(k, env, epoch, a, rs[..i]), rs[i..])
    decreases |rs|
  {
    hide ReconcileStep;
    if i == 0 || !a.status.Running? {
      assert rs[..0] == [] && rs[0..] == rs;
    } else {
      assert rs[1..][..i - 1] == rs[..i][1..] && rs[1..][i - 1..] == rs[i..];
      ReconcileSplits(k, env, epoch, ReconcileStep(k, env, epoch, a, rs[0]), rs[1..], i - 1);
    }
  }

  lemma PassStepObeys(k: Config, input: RunInput, w: World, i: nat)
    requires ListsPending(input.env) && i < |SnapshotOf(input, w)|
    ensures PassStep(k, input, w, i)
  {
    hide SnapshotOf, RetryLaw, ReconcileStep;
    var rs, start := SnapshotOf(input, w), Recon(Running, w, 0, EMPTY_RECONCILE);
    var a := PassAt(k, input, w, i);
    ReconcileSplits(k, input.env, input.epoch, start, rs[..i + 1], i);
    assert rs[..i + 1][..i] == rs[..i] && rs[..i + 1][i..] == [rs[i]] && [rs[i]][1..] == [];
    if a.status.Running? {
      RetryObeys(k, input.env, input.epoch, a, rs[i]);
      var b := ReconcileStep(k, input.env, input.epoch, a, rs[i]);
      assert ReconcileAll(k, input.env, input.epoch, b, []) == b;
    }
  }

  /** A pass is nothing if its snapshot cannot be read; else every reservation it comes to obeys the law,
      in listing order, for as long as none stops it. */
  lemma PassUnfolds(k: Config, input: RunInput, w: World)
    requires ListsPending(input.env)
    ensures var rec := ReconcilePass(k, input, w);
      if !input.pendingReads then rec == Recon(Failed, w, 0, EMPTY_RECONCILE)
      else
        && PassAt(k, input, w, 0) == Recon(Running, w, 0, EMPTY_RECONCILE)
        && rec == PassAt(k, input, w, |SnapshotOf(input, w)|)
        && forall i :: 0 <= i < |SnapshotOf(input, w)| ==> PassStep(k, input, w, i)
  {
    var rs := SnapshotOf(input, w);
    assert rs[..0] == [] && rs[..|rs|] == rs;
    hide PassStep;
    forall i | 0 <= i < |rs| ensures PassStep(k, input, w, i) {
      PassStepObeys(k, input, w, i);
    }
  }

  /** What an unhindered retry surfaces is what was answered with signing. */
  lemma RetrySigns(k: Config, epoch: U64, r: Reservation, es: seq<Event>)
    requires ShowsRetry(k, epoch, r, es) && !EndsCut(es)
    ensures es != [] && es[0].Posted? && es[0].reply.Answer?
    ensures SignedTxs(es, false) == match es[0].reply.outcome case RequiresSigning(tx) => [tx] case _ => []
  {
    assert es == [es[0]] + es[1..] && [es[0]][..0] == [];
    SignedSplits([es[0]], es[1..], false);
    WritesSignNothing(es[1..], false);
  }

  lemma {:induction false} PassSurfacesUpTo(k: Config, input: RunInput, w: World, i: nat)
    requires ListsPending(input.env) && i <= |SnapshotOf(input, w)|
    ensures var a := PassAt(k, input, w, i);
      && |w.log| <= |a.world.log|
      && (Ended(a) ==> a.report.unsigned == SignedTxs(Since(w, a.world), false))
  {
    hide SnapshotOf, ReconcileAll, Did, ShowsRetry;
    if i == 0 {
      PassStart(k, input, w);
    } else {
      PassStepObeys(k, input, w, i - 1);
      PassSurfacesUpTo(k, input, w, i - 1);
      var a, b, r := PassAt(k, input, w, i - 1), PassAt(k, input, w, i), SnapshotOf(input, w)[i - 1];
      if a.status.Running? {
        var es := Since(a.world, b.world);
        SinceJoins(w, a.world, b.world, es);
        SignedSplits(Since(w, a.world), es, false);
        if r.nextEligible <= input.epoch && a.spent < k.budget && b.status.Running? {
          RetrySigns(k, input.epoch, r, es);
        }
      }
    }
  }

  lemma PassStart(k: Config, input: RunInput, w: World)
    requires ListsPending(input.env)
    ensures PassAt(k, input, w, 0) == Recon(Running, w, 0, EMPTY_RECONCILE) && SignedTxs(Since(w, w), false) == []
  {
    assert Since(w, w) == [];
    assert SnapshotOf(input, w)[..0] == [];
  }

  /** The transactions a pass surfaces are those its resubmissions were answered with, in order. */
  lemma PassSurfaces(k: Config, input: RunInput, w: World)
    requires ListsPending(input.env) && Ended(ReconcilePass(k, input, w))
    ensures var rec := ReconcilePass(k, input, w); rec.report.unsigned == SignedTxs(Since(w, rec.world), false)
  {
    PassUnfolds(k, input, w);
    hide ReconcilePass, ReconcileAll, PassStep;
    PassSurfacesUpTo(k, input, w, |SnapshotOf(input, w)|);
  }
}
