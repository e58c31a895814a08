/**
 A run as its reconcile pass and then its visits, one by one: what each counter of the
 report counts, which transactions it surfaces, and where every retry action comes from.
 */
module KeeperRuns {
  import opened Prelude
  import opened KeeperModel
  import opened KeeperSpec
  import opened JournalProtocol
  import opened KeeperRefinement
  import opened KeeperRecovery
  import opened KeeperReports
  import opened KeeperRetries
  import opened KeeperVisits

  /** The sweep after its first `i` visits. */
  ghost function SweepAt(k: Config, input: RunInput, w: World, i: nat): Sweep
    requires ListsPending(input.env) && input.listed.Got? && i <= |input.listed.value|
  {
    VisitAll(k, input.env, input.epoch, Opening(ReconcilePass(k, input, w)), input.listed.value[..i])
  }

  const NO_TALLY := RunReport(0, 0, 0, 0, 0, 0, 0, EMPTY_RECONCILE, [])

  /** A run is its pass; then, if the pass ended and the commitments could be listed, one lawful visit
      after another for as long as none stops it. */
  ghost predicate RunLaw(k: Config, input: RunInput, w: World)
    requires ListsPending(input.env)
  {
    var rec, b := ReconcilePass(k, input, w), RunOnce(k, input, w);
    if !Ended(rec) then b.world == rec.world && b.status == rec.status
    else if input.listed.ReadFault? then b.world == rec.world && b.status.Failed?
    else
      var n, first := |input.listed.value|, SweepAt(k, input, w, 0);
      && first.world == rec.world && first.status.Running?
      && first.report == NO_TALLY.(reconciled := rec.report, unsigned := rec.report.unsigned)
      && b == SweepAt(k, input, w, n)
      && forall i :: 0 <= i < n ==> StepLaw(k, input, w, i)
  }

  ghost predicate StepLaw(k: Config, input: RunInput, w: World, i: nat)
    requires ListsPending(input.env) && input.listed.Got? && i < |input.listed.value|
  {
    var a, b := SweepAt(k, input, w, i), SweepAt(k, input, w, i + 1);
    if a.status.Running? then VisitLaw(k, input.epoch, input.listed.value[i], a, b) else b == a
  }

  lemma RunUnfolds(k: Config, input: RunInput, w: World)
    requires ListsPending(input.env)
    ensures RunLaw(k, input, w)
  {
    hide ReconcilePass;
    var rec := ReconcilePass(k, input, w);
    if Ended(rec) && input.listed.Got? {
      var vs := input.listed.value;
      assert vs[..0] == [] && vs[..|vs|] == vs;
      forall i | 0 <= i < |vs| ensures StepLaw(k, input, w, i) {
        StepUnfolds(k, input, w, i);
      }
    }
  }

  lemma StepUnfolds(k: Config, input: RunInput, w: World, i: nat)
    requires ListsPending(input.env) && input.listed.Got? && i < |input.listed.value|
    ensures StepLaw(k, input, w, i)
  {
    hide ReconcilePass, VisitLaw, VisitStep;
    var vs, a, start := input.listed.value, SweepAt(k, input, w, i), Opening(ReconcilePass(k, input, w));
    VisitAllSplits(k, input.env, input.epoch, start, vs[..i + 1], i);
    assert vs[..i + 1][..i] == vs[..i] && vs[..i + 1][i..] == [vs[i]];
    assert [vs[i]][1..] == [];
    if a.status.Running? {
      VisitShows(k, input.env, input.epoch, a, vs[i]);
      var b := VisitStep(k, input.env, input.epoch, a, vs[i]);
      assert VisitAll(k, input.env, input.epoch, b, []) == b;
    }
  }

  // --- What the counters count ---

  /** Visit `i`'s place in the report, by what it showed. */
  ghost function BucketAt(k: Config, input: RunInput, w: World, i: nat): Bucket
    requires ListsPending(input.env) && input.listed.Got? && i < |input.listed.value|
  {
    var a, b := SweepAt(k, input, w, i).world, SweepAt(k, input, w, i + 1).world;
    BucketOf(k, input.listed.value[i], a, Since(a, b))
  }

  /** How many of the first `n` visits are in bucket `b`. */
  ghost function Filled(k: Config, input: RunInput, w: World, b: Bucket, n: nat): nat
    requires ListsPending(input.env) && input.listed.Got? && n <= |input.listed.value|
  {
    if n == 0 then 0 else Filled(k, input, w, b, n - 1) + if BucketAt(k, input, w, n - 1) == b then 1 else 0
  }

  /** The transactions answered to POSTs on the trail, in order. */
  function SignedTxs(es: seq<Event>, initial: bool): seq<Tx> {
    if es == [] then []
    else
      var before, e := SignedTxs(es[..|es| - 1], initial), es[|es| - 1];
      if e.Posted? && e.initial == initial && e.reply.Answer? && e.reply.outcome.RequiresSigning?
      then before + [e.reply.outcome.tx] else before
  }

  lemma {:induction false} SignedSplits(a: seq<Event>, b: seq<Event>, initial: bool)
    ensures SignedTxs(a + b, initial) == SignedTxs(a, initial) + SignedTxs(b, initial)
  {
    if b == [] {
      assert a + b == a;
    } else {
      var n := |b| - 1;
      assert (a + b)[..|a + b| - 1] == a + b[..n];
      SignedSplits(a, b[..n], initial);
    }
  }

  ghost predicate CountsVisits(k: Config, input: RunInput, w: World, n: nat)
    requires ListsPending(input.env) && input.listed.Got? && n <= |input.listed.value|
  {
    var rec, a := ReconcilePass(k, input, w), SweepAt(k, input, w, n);
    var r := a.report;
    && r.skipped == Filled(k, input, w, Skipped, n) && r.gated == Filled(k, input, w, Gated, n)
    && r.duplicates == Filled(k, input, w, Duplicate, n) && r.retried == Filled(k, input, w, Retried, n)
    && r.submitted == Filled(k, input, w, Submitted, n) && r.dropped == Filled(k, input, w, Dropped, n)
    && |rec.world.log| <= |a.world.log| && r.reconciled == rec.report
    && r.unsigned == rec.report.unsigned + SignedTxs(Since(rec.world, a.world), true)
  }

  /** What a completed visit surfaces is what its trail shows was answered with signing. */
  lemma BucketSigns(k: Config, epoch: U64, v: Visit, w: World, es: seq<Event>)
    requires Shows(k, epoch, v, w, es)
    requires StatusOf(v, es).Running?
    ensures SignedTxs(es, true) == match BucketOf(k, v, w, es) case Unsigned(tx) => [tx] case _ => []
  {
    if |es| < 2 {
      WritesSignNothing(es, true);
    } else {
      assert es == es[..1] + ([es[1]] + es[2..]);
      SignedSplits(es[..1], [es[1]] + es[2..], true);
      SignedSplits([es[1]], es[2..], true);
      WritesSignNothing(es[..1], true);
      WritesSignNothing(es[2..], true);
      assert [es[1]][..0] == [];
    }
  }

  lemma {:induction false} WritesSignNothing(es: seq<Event>, initial: bool)
    requires forall e :: e in es ==> e.Wrote?
    ensures SignedTxs(es, initial) == []
  {
    if es != [] {
      assert es[|es| - 1] in es;
      WritesSignNothing(es[..|es| - 1], initial);
    }
  }

  lemma {:induction false} SweepCounts(k: Config, input: RunInput, w: World, n: nat)
    requires ListsPending(input.env) && input.listed.Got? && n <= |input.listed.value|
    requires Ended(ReconcilePass(k, input, w)) && RunLaw(k, input, w) && SweepAt(k, input, w, n).status.Running?
    ensures CountsVisits(k, input, w, n)
  {
    if n == 0 {
      hide ReconcilePass, RunOnce, SweepAt;
      assert Since(SweepAt(k, input, w, 0).world, SweepAt(k, input, w, 0).world) == [];
    } else {
      assert StepLaw(k, input, w, n - 1);
      hide RunLaw, CountsVisits, ReconcilePass, RunOnce, SweepAt, VisitLaw;
      SweepCounts(k, input, w, n - 1);
      CountsOneMore(k, input, w, n);
    }
  }

  lemma CountsOneMore(k: Config, input: RunInput, w: World, n: nat)
    requires ListsPending(input.env) && input.listed.Got? && 0 < n <= |input.listed.value|
    requires CountsVisits(k, input, w, n - 1)
    requires SweepAt(k, input, w, n - 1).status.Running? && SweepAt(k, input, w, n).status.Running?
    requires VisitLaw(k, input.epoch, input.listed.value[n - 1], SweepAt(k, input, w, n - 1), SweepAt(k, input, w, n))
    ensures CountsVisits(k, input, w, n)
  {
    hide ReconcilePass, SweepAt, BucketOf, Shows, Did, StatusOf, SignedTxs;
    var rec, a, b := ReconcilePass(k, input, w), SweepAt(k, input, w, n - 1), SweepAt(k, input, w, n);
    var es := Since(a.world, b.world);
    BucketSigns(k, input.epoch, input.listed.value[n - 1], a.world, es);
    SinceJoins(rec.world, a.world, b.world, es);
    SignedSplits(Since(rec.world, a.world), es, true);
  }

  lemma SinceJoins(w0: World, w1: World, w2: World, es: seq<Event>)
    requires |w0.log| <= |w1.log| && Did(w1, w2, es)
    ensures |w0.log| <= |w2.log| && Since(w0, w2) == Since(w0, w1) + es
  {
    assert w2.log == w1.log + es;
  }

  /** A completed run's report: each counter is the number of visits that showed its disposition, and
      the transactions surfaced are those the venue answered, the resubmissions' first, in order. */
  lemma RunCounts(k: Config, input: RunInput, w: World)
    requires ListsPending(input.env) && RunOnce(k, input, w).status.Running?
    ensures Ended(ReconcilePass(k, input, w)) && input.listed.Got?
    ensures var n := |input.listed.value|;
      CountsVisits(k, input, w, n) && RunOnce(k, input, w) == SweepAt(k, input, w, n)
  {
    RunUnfolds(k, input, w);
    hide ReconcilePass, VisitAll, StepLaw;
    assert Ended(ReconcilePass(k, input, w)) && input.listed.Got?;
    SweepCounts(k, input, w, |input.listed.value|);
  }

  // --- Where retry actions come from ---

  /** The write at `n` applies the action some poll called for, or the one the policy has for the fault
      of a first submission refused just before, once its release has landed. */
  ghost predicate CalledFor(k: Config, vs: seq<Visit>, es: seq<Event>, n: nat)
    requires n < |es| && es[n].Wrote? && es[n].op.ApplyRetry?
  {
    || (exists v :: v in vs && Reaches(v) && Calls(v.poll, es[n].op.action))
    || (&& n >= 2 && es[n - 2].Posted? && es[n - 2].initial && es[n - 2].reply.Answer?
        && es[n - 2].reply.outcome.Refused? && k.policy(es[n - 2].reply.outcome.fault) == es[n].op.action
        && es[n - 1] == Wrote(Release(es[n - 2].key), Landed))
  }

  ghost predicate AllCalledFor(k: Config, vs: seq<Visit>, es: seq<Event>) {
    forall n :: 0 <= n < |es| && es[n].Wrote? && es[n].op.ApplyRetry? ==> CalledFor(k, vs, es, n)
  }

  lemma SegmentCalledFor(k: Config, epoch: U64, vs: seq<Visit>, v: Visit, w: World, before: seq<Event>, es: seq<Event>)
    requires AllCalledFor(k, vs, before) && v in vs && Shows(k, epoch, v, w, es)
    ensures AllCalledFor(k, vs, before + es)
  {
    var all := before + es;
    forall n | 0 <= n < |all| && all[n].Wrote? && all[n].op.ApplyRetry? ensures CalledFor(k, vs, all, n) {
      if n < |before| {
        assert CalledFor(k, vs, before, n);
      } else if v.poll.Submit? {
        assert all[n] == es[n - |before|] && n - |before| == 3;
        assert all[n - 2] == es[1] && all[n - 1] == es[2];
      }
    }
  }

  lemma {:induction false} PassWritesRows(k: Config, env: Env, epoch: U64, w: World, a: Recon, rs: seq<Reservation>)
    requires |w.log| <= |a.world.log| && forall e :: e in Since(w, a.world) && e.Wrote? ==> !e.op.Outside()
    ensures var b := ReconcileAll(k, env, epoch, a, rs);
      |w.log| <= |b.world.log| && forall e :: e in Since(w, b.world) && e.Wrote? ==> !e.op.Outside()
    decreases |rs|
  {
    if rs != [] && a.status.Running? {
      StepWritesRows(k, env, epoch, w, a, rs[0]);
      PassWritesRows(k, env, epoch, w, ReconcileStep(k, env, epoch, a, rs[0]), rs[1..]);
    }
  }

  lemma StepWritesRows(k: Config, env: Env, epoch: U64, w: World, a: Recon, r: Reservation)
    requires a.status.Running?
    requires |w.log| <= |a.world.log| && forall e :: e in Since(w, a.world) && e.Wrote? ==> !e.op.Outside()
    ensures var b := ReconcileStep(k, env, epoch, a, r);
      |w.log| <= |b.world.log| && forall e :: e in Since(w, b.world) && e.Wrote? ==> !e.op.Outside()
  {
    var posted := Post(env, a.world, r.key, r.body, epoch, false);
    assert Since(w, posted) == Since(w, a.world) + [posted.log[|posted.log| - 1]];
    var b := ReconcileStep(k, env, epoch, a, r);
    if |b.world.log| > |posted.log| {
      assert Since(w, b.world) == Since(w, posted) + [b.world.log[|b.world.log| - 1]];
    }
  }

  lemma {:induction false} SweepCalledFor(k: Config, input: RunInput, w: World, n: nat)
    requires ListsPending(input.env) && input.listed.Got? && n <= |input.listed.value|
    requires Ended(ReconcilePass(k, input, w)) && RunLaw(k, input, w)
    ensures var a := SweepAt(k, input, w, n).world;
      |w.log| <= |a.log| && AllCalledFor(k, input.listed.value, Since(w, a))
  {
    if n == 0 {
      PassCalledFor(k, input, w, input.listed.value);
    } else {
      hide ReconcilePass, RunOnce, SweepAt, AllCalledFor, Shows, Did, BucketOf, StatusOf;
      assert StepLaw(k, input, w, n - 1);
      SweepCalledFor(k, input, w, n - 1);
      var a, b := SweepAt(k, input, w, n - 1), SweepAt(k, input, w, n);
      if a.status.Running? {
        var es := Since(a.world, b.world);
        SinceJoins(w, a.world, b.world, es);
        SegmentCalledFor(k, input.epoch, input.listed.value, input.listed.value[n - 1], a.world, Since(w, a.world), es);
      }
    }
  }

  lemma PassCalledFor(k: Config, input: RunInput, w: World, vs: seq<Visit>)
    requires ListsPending(input.env)
    ensures var rec := ReconcilePass(k, input, w); |w.log| <= |rec.world.log| && AllCalledFor(k, vs, Since(w, rec.world))
  {
    assert Since(w, w) == [];
    if input.pendingReads {
      var keys := input.env.listing(w.journal);
      assert IsListing(keys, PendingKeys(w.journal));
      PassWritesRows(k, input.env, input.epoch, w, Recon(Running, w, 0, EMPTY_RECONCILE), Snapshot(w.journal, keys));
    }
  }

  /** Every retry action of a run, a drop included, was called for by a poll of a commitment that is
      well formed, ready and there, or by the policy for the fault of a refused first submission. */
  lemma RetryActionsAreCalledFor(k: Config, input: RunInput, w: World)
    requires ListsPending(input.env)
    ensures AllCalledFor(k, if input.listed.Got? then input.listed.value else [], Since(w, RunOnce(k, input, w).world))
  {
    RunUnfolds(k, input, w);
    PassCalledFor(k, input, w, if input.listed.Got? then input.listed.value else []);
    hide ReconcilePass, VisitAll, AllCalledFor, StepLaw;
    if Ended(ReconcilePass(k, input, w)) && input.listed.Got? {
      SweepCalledFor(k, input, w, |input.listed.value|);
    }
  }
}
