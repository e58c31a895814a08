/**
 What the tallies of a run mean: every listed commitment is counted once, and the
 counters are exactly the POSTs on the trail, by the answers they got.
 */
module KeeperReports {
  import opened Prelude
  import opened KeeperModel
  import opened KeeperSpec
  import opened JournalProtocol

  // --- Counting on the trail ---

  /** How a POST is counted: that it was made, and how it was answered. */
  datatype Class = Sent | Accepts | Signs | Ends | Stays

  function ClassOf(k: Config, outcome: Outcome): Class {
    match outcome
    case Accepted(_) => Accepts
    case RequiresSigning(_) => Signs
    case Refused(fault) => if k.policy(fault) == Drop then Ends else Stays
  }

  predicate In(k: Config, e: Event, initial: bool, c: Class) {
    e.Posted? && e.initial == initial && (c.Sent? || (e.reply.Answer? && ClassOf(k, e.reply.outcome) == c))
  }

  /** POSTs of a class on the trail: of first submissions, or of resubmissions. */
  function Tally(k: Config, es: seq<Event>, initial: bool, c: Class): nat {
    if es == [] then 0
    else Tally(k, es[..|es| - 1], initial, c) + if In(k, es[|es| - 1], initial, c) then 1 else 0
  }

  lemma CountOne(k: Config, es: seq<Event>, e: Event)
    ensures forall initial: bool, c: Class ::
      Tally(k, es + [e], initial, c) == Tally(k, es, initial, c) + if In(k, e, initial, c) then 1 else 0
  {
    assert (es + [e])[..|es + [e]| - 1] == es;
  }

  /** The trails of `w` and `w'` hold as many first submissions (or resubmissions) of every class. */
  ghost predicate SameTally(k: Config, w: World, w': World, initial: bool) {
    forall c: Class :: Tally(k, w'.log, initial, c) == Tally(k, w.log, initial, c)
  }

  /** A write changes no count. */
  lemma CountWrite(k: Config, env: Env, w: World, op: Op)
    ensures SameTally(k, w, Write(env, w, op), true) && SameTally(k, w, Write(env, w, op), false)
  {
    CountOne(k, w.log, Wrote(op, LandingAt(env, w)));
  }

  // --- The reconcile pass ---

  /** What a pass reports for a class: each counter speaks of one kind of answer. */
  function Counter(r: ReconcileReport, c: Class): nat {
    match c
    case Sent => r.committed + r.released + r.pending + |r.unsigned|
    case Accepts => r.committed
    case Signs => |r.unsigned|
    case Ends => r.released
    case Stays => r.pending
  }

  /** The pass keeps to its budget, and each counter is the number of its POSTs so answered. */
  ghost predicate ReconTallied(k: Config, w: World, a: Recon) {
    && a.spent <= k.budget
    && SameTally(k, w, a.world, true)
    && Tally(k, a.world.log, false, Sent) == Tally(k, w.log, false, Sent) + a.spent
    && (a.status.Running? || a.status.Spent? ==>
          forall c: Class :: Tally(k, a.world.log, false, c) == Tally(k, w.log, false, c) + Counter(a.report, c))
  }

  lemma ReconcileStepTallied(k: Config, env: Env, epoch: U64, w: World, a: Recon, r: Reservation)
    requires a.status.Running? && ReconTallied(k, w, a)
    ensures ReconTallied(k, w, ReconcileStep(k, env, epoch, a, r))
  {
    hide Resolve, Tally, ClassOf;
    if r.nextEligible <= epoch && a.spent < k.budget {
      var e := Posted(r.key, r.body, epoch, false, ReplyAt(env, a.world, false, r.body));
      CountOne(k, a.world.log, e);
      ResolveTallied(k, env, epoch, e.reply, r, a.(world := After(a.world, e), spent := a.spent + 1));
    }
  }

  /** Resolving one answer adds no POST and, if the pass goes on, one to the counter of its class. */
  lemma ResolveTallied(k: Config, env: Env, epoch: U64, reply: Reply, r: Reservation, a: Recon)
    requires a.status.Running?
    ensures var b := Resolve(k, env, epoch, reply, r, a);
      && b.spent == a.spent && !b.status.Spent?
      && SameTally(k, a.world, b.world, true) && SameTally(k, a.world, b.world, false)
      && (b.status.Running? ==> reply.Answer? && forall c: Class ::
            Counter(b.report, c) == Counter(a.report, c) + if c.Sent? || ClassOf(k, reply.outcome) == c then 1 else 0)
  {
    hide SameTally;
    if reply.Answer? {
      var o := reply.outcome;
      var op := if o.Accepted? then Commit(r.key)
        else if Releases(k, o, false) then Release(r.key)
        else Park(r.key, r.body, ParkUntil(epoch, if Hinted(o.fault) then o.fault.retryAfterMs.value else 0));
      CountWrite(k, env, a.world, op);
    }
    SameWorld(k, a.world);
  }

  lemma SameWorld(k: Config, w: World)
    ensures SameTally(k, w, w, true) && SameTally(k, w, w, false)
  {
  }

  lemma {:induction false} ReconcileAllTallied(k: Config, env: Env, epoch: U64, w: World, a: Recon, rs: seq<Reservation>)
    requires ReconTallied(k, w, a)
    ensures ReconTallied(k, w, ReconcileAll(k, env, epoch, a, rs))
    ensures var b := ReconcileAll(k, env, epoch, a, rs);
      b.status.Running? ==>
        a.status.Running? && b.report.gated + b.spent == a.report.gated + a.spent + |rs|
    decreases |rs|
  {
    if rs != [] && a.status.Running? {
      ReconcileStepTallied(k, env, epoch, w, a, rs[0]);
      ReconcileAllTallied(k, env, epoch, w, ReconcileStep(k, env, epoch, a, rs[0]), rs[1..]);
    }
  }

  /** Within the budget, committed, unsigned, released and pending are exactly the resubmissions answered
      with an acceptance, signing, a terminal and a transient fault, and their sum is the POSTs made;
      a pass that was not cut short met every reservation. */
  lemma ReconcileConservation(k: Config, input: RunInput, w: World)
    requires ListsPending(input.env)
    ensures var rec := ReconcilePass(k, input, w);
      && ReconTallied(k, w, rec)
      && (rec.status.Running? ==> rec.report.gated + rec.spent == |input.env.listing(w.journal)|)
  {
    if input.pendingReads {
      var keys := input.env.listing(w.journal);
      assert IsListing(keys, PendingKeys(w.journal));
      ReconcileAllTallied(k, input.env, input.epoch, w, Recon(Running, w, 0, EMPTY_RECONCILE), Snapshot(w.journal, keys));
    }
  }

  // --- The fresh loop ---

  function FreshUnsigned(r: RunReport): int { |r.unsigned| - |r.reconciled.unsigned| }

  /** The visited commitments and the polled ones both balance; `submitted` and the fresh unsigned
      transactions are the first submissions answered with an acceptance and with signing. */
  ghost predicate Balanced(k: Config, r: RunReport, visited: nat, w: World, a: World) {
    && visited == r.polled + r.gated + r.skipped
    && 0 <= FreshUnsigned(r)
    && r.polled == r.submitted + r.duplicates + r.retried + r.dropped + FreshUnsigned(r)
    && Tally(k, a.log, true, Accepts) == Tally(k, w.log, true, Accepts) + r.submitted
    && Tally(k, a.log, true, Signs) == Tally(k, w.log, true, Signs) + FreshUnsigned(r)
    && SameTally(k, w, a, false)
  }

  function Buckets(r: RunReport): nat { r.submitted + r.duplicates + r.retried + r.dropped + |r.unsigned| }

  /** A polled commitment lands in one more bucket, and the answers are counted as they came. */
  ghost predicate CountedOne(k: Config, a: Sweep, b: Sweep) {
    var r, r' := a.report, b.report;
    && r'.polled == r.polled && r'.gated == r.gated && r'.skipped == r.skipped
    && r'.reconciled == r.reconciled && |r.unsigned| <= |r'.unsigned|
    && Buckets(r') == Buckets(r) + 1
    && Tally(k, b.world.log, true, Accepts) + r.submitted == Tally(k, a.world.log, true, Accepts) + r'.submitted
    && Tally(k, b.world.log, true, Signs) + |r.unsigned| == Tally(k, a.world.log, true, Signs) + |r'.unsigned|
  }

  ghost predicate Counted(k: Config, a: Sweep, b: Sweep) {
    SameTally(k, a.world, b.world, false) && (b.status.Running? ==> CountedOne(k, a, b))
  }

  lemma RetryCounts(k: Config, env: Env, a: Sweep, v: Visit, action: RetryAction)
    ensures Counted(k, a, Retry(env, a, v, action))
  {
    hide Tally;
    CountWrite(k, env, a.world, ApplyRetry(action));
  }

  /** `a` is the sweep before the POST, `posted` the one after it. */
  lemma SettleCounts(k: Config, env: Env, a: Sweep, v: Visit, key: Key, e: Event)
    requires e.Posted? && e.initial
    ensures var posted := a.(world := After(a.world, e)); Counted(k, a, Settle(k, env, v, key, e.reply, posted))
  {
    hide Retry, Tally;
    CountOne(k, a.world.log, e);
    var posted := a.(world := After(a.world, e));
    if e.reply.Answer? {
      var op := if e.reply.outcome.Accepted? then Commit(key) else Release(key);
      CountWrite(k, env, posted.world, op);
      var settled := SweepWrite(env, posted, op);
      if e.reply.outcome.Accepted? {
        CountWrite(k, env, settled.world, ClearRefusal);
      } else if e.reply.outcome.Refused? {
        RetryCounts(k, env, settled, v, k.policy(e.reply.outcome.fault));
      }
    }
  }

  lemma OfferCounts(k: Config, env: Env, epoch: U64, a: Sweep, v: Visit, body: Bytes)
    requires a.status.Running?
    ensures Counted(k, a, Offer(k, env, epoch, a, v, body))
  {
    hide Settle, Retry, Tally;
    var key := k.KeyFor(body);
    CountWrite(k, env, a.world, Reserve(key, body));
    var reserved := SweepWrite(env, a, Reserve(key, body));
    SettleCounts(k, env, reserved, v, key, Posted(key, body, epoch, true, ReplyAt(env, reserved.world, true, body)));
  }

  lemma VisitStepBalanced(k: Config, env: Env, epoch: U64, w: World, a: Sweep, v: Visit, visited: nat)
    requires a.status.Running? && Balanced(k, a.report, visited, w, a.world)
    ensures var b := VisitStep(k, env, epoch, a, v);
      b.status.Running? ==>
        b.report.reconciled == a.report.reconciled && Balanced(k, b.report, visited + 1, w, b.world)
  {
    hide Offer, Settle, Retry, Tally;
    var polled := a.(report := a.report.(polled := a.report.polled + 1));
    match v.poll
    case Submit(body) => OfferCounts(k, env, epoch, polled, v, body);
    case WaitBlock => RetryCounts(k, env, polled, v, TryNextBlock);
    case BackoffFor(seconds) => RetryCounts(k, env, polled, v, Backoff(seconds));
    case DropIt => RetryCounts(k, env, polled, v, Drop);
  }

  lemma {:induction false} VisitAllBalanced(k: Config, env: Env, epoch: U64, w: World, a: Sweep, vs: seq<Visit>, visited: nat)
    requires a.status.Running? ==> Balanced(k, a.report, visited, w, a.world)
    ensures var b := VisitAll(k, env, epoch, a, vs);
      b.status.Running? ==>
        b.report.reconciled == a.report.reconciled && Balanced(k, b.report, visited + |vs|, w, b.world)
    decreases |vs|
  {
    if vs != [] && a.status.Running? {
      VisitStepBalanced(k, env, epoch, w, a, vs[0], visited);
      VisitAllBalanced(k, env, epoch, w, VisitStep(k, env, epoch, a, vs[0]), vs[1..], visited + 1);
    }
  }

  /** For every run that completes: listed = polled + gated + skipped, the polled commitments fall into
      one bucket each, the first submissions are counted by their answers, and so are the resubmissions. */
  lemma ReportConservation(k: Config, input: RunInput, w: World)
    requires ListsPending(input.env)
    ensures var b := RunOnce(k, input, w);
      b.status.Running? ==>
        && input.listed.Got?
        && Balanced(k, b.report, |input.listed.value|, ReconcilePass(k, input, w).world, b.world)
        && Tally(k, b.world.log, true, Accepts) == Tally(k, w.log, true, Accepts) + b.report.submitted
        && Tally(k, b.world.log, true, Signs) == Tally(k, w.log, true, Signs) + FreshUnsigned(b.report)
        && forall c: Class ::
             Tally(k, b.world.log, false, c) == Tally(k, w.log, false, c) + Counter(b.report.reconciled, c)
  {
    hide Tally, Counter, ReconcilePass, VisitAll;
    var rec := ReconcilePass(k, input, w);
    ReconcileConservation(k, input, w);
    if input.listed.Got? {
      VisitAllBalanced(k, input.env, input.epoch, rec.world, Opening(rec), input.listed.value, 0);
    }
  }
}
