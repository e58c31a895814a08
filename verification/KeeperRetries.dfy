/**
 Which reservations a reconcile pass retries: the first `budget` of the listing that
 are ripe, whatever the venue answers and the store does. From that, exactly which
 reservations a pass skips, and which ones a history of runs ever retries.
 */
module KeeperRetries {
  import opened Prelude
  import opened KeeperModel
  import opened KeeperSpec
  import opened JournalProtocol
  import opened KeeperRefinement
  import opened KeeperRecovery

  /** The reservations past their deadline, in listing order. */
  function Ripe(rs: seq<Reservation>, epoch: U64): seq<Reservation> {
    if rs == [] then []
    else if rs[0].nextEligible > epoch then Ripe(rs[1..], epoch)
    else [rs[0]] + Ripe(rs[1..], epoch)
  }

  /** The keys resubmitted on a trail. */
  function Resubmitted(es: seq<Event>): set<Key> {
    set e | e in es && e.Posted? && !e.initial :: e.key
  }

  // --- Steps that resubmit nothing ---

  /** From `w` to `w'` nothing was resubmitted and no row that was there changed. */
  ghost predicate LeavesBe(w: World, w': World) {
    && |w.log| <= |w'.log| && w'.log[..|w.log|] == w.log
    && (forall e :: e in w'.log[|w.log|..] ==> !(e.Posted? && !e.initial))
    && (forall key :: key in w.journal ==> RowOf(w', key) == RowOf(w, key))
  }

  lemma SameLeavesBe(w: World)
    ensures LeavesBe(w, w)
  {
    assert w.log[|w.log|..] == [];
  }

  lemma EventLeavesBe(w: World, w': World, e: Event)
    requires LeavesBe(w, w')
    requires if e.Posted? then e.initial else e.op.Outside() || e.op.key !in w.journal
    ensures LeavesBe(w, After(w', e))
  {
    assert After(w', e).log[|w.log|..] == w'.log[|w.log|..] + [e];
  }

  lemma ResubmittedSame(w0: World, w: World, w': World)
    requires |w0.log| <= |w.log| && LeavesBe(w, w')
    ensures Resubmitted(Since(w0, w')) == Resubmitted(Since(w0, w))
  {
    assert w'.log == w.log + w'.log[|w.log|..];
    assert Since(w0, w') == Since(w0, w) + w'.log[|w.log|..];
  }

  lemma ResubmittedOneMore(w0: World, w: World, e: Event)
    requires |w0.log| <= |w.log| && e.Posted? && !e.initial
    ensures Resubmitted(Since(w0, After(w, e))) == Resubmitted(Since(w0, w)) + {e.key}
  {
    assert Since(w0, After(w, e)) == Since(w0, w) + [e];
  }

  /** A write adds nothing to what was resubmitted. */
  lemma ResubmittedWrite(env: Env, w0: World, w: World, op: Op)
    requires |w0.log| <= |w.log|
    ensures Resubmitted(Since(w0, Write(env, w, op))) == Resubmitted(Since(w0, w))
  {
    assert Since(w0, Write(env, w, op)) == Since(w0, w) + [Wrote(op, LandingAt(env, w))];
  }

  lemma RetryLeavesBe(env: Env, w: World, a: Sweep, v: Visit, action: RetryAction)
    requires LeavesBe(w, a.world)
    ensures LeavesBe(w, Retry(env, a, v, action).world)
  {
    hide LeavesBe;
    EventLeavesBe(w, a.world, Wrote(ApplyRetry(action), LandingAt(env, a.world)));
  }

  lemma SettleLeavesBe(k: Config, env: Env, w: World, a: Sweep, v: Visit, key: Key, reply: Reply)
    requires LeavesBe(w, a.world) && key !in w.journal
    ensures LeavesBe(w, Settle(k, env, v, key, reply, a).world)
  {
    hide LeavesBe, Retry;
    if reply.Answer? {
      var op := if reply.outcome.Accepted? then Commit(key) else Release(key);
      EventLeavesBe(w, a.world, Wrote(op, LandingAt(env, a.world)));
      var settled := SweepWrite(env, a, op);
      if reply.outcome.Accepted? {
        EventLeavesBe(w, settled.world, Wrote(ClearRefusal, LandingAt(env, settled.world)));
      } else if reply.outcome.Refused? {
        RetryLeavesBe(env, w, settled, v, k.policy(reply.outcome.fault));
      }
    }
  }

  lemma OfferLeavesBe(k: Config, env: Env, epoch: U64, w: World, a: Sweep, v: Visit, body: Bytes)
    requires LeavesBe(w, a.world)
    ensures LeavesBe(w, Offer(k, env, epoch, a, v, body).world)
  {
    var key := k.KeyFor(body);
    assert key in w.journal ==> RowOf(a.world, key) == RowOf(w, key);
    hide LeavesBe, Settle;
    if v.markReads && key !in a.world.journal {
      EventLeavesBe(w, a.world, Wrote(Reserve(key, body), LandingAt(env, a.world)));
      var reserved := SweepWrite(env, a, Reserve(key, body));
      if reserved.status.Running? {
        var reply := ReplyAt(env, reserved.world, true, body);
        EventLeavesBe(w, reserved.world, Posted(key, body, epoch, true, reply));
        SettleLeavesBe(k, env, w, reserved.(world := Post(env, reserved.world, key, body, epoch, true)), v, key, reply);
      }
    }
  }

  lemma VisitLeavesBe(k: Config, env: Env, epoch: U64, w: World, a: Sweep, v: Visit)
    requires a.status.Running? && LeavesBe(w, a.world)
    ensures LeavesBe(w, VisitStep(k, env, epoch, a, v).world)
  {
    hide LeavesBe, Offer, Retry;
    var polled := a.(report := a.report.(polled := a.report.polled + 1));
    match v.poll
    case Submit(body) => OfferLeavesBe(k, env, epoch, w, polled, v, body);
    case WaitBlock => RetryLeavesBe(env, w, polled, v, TryNextBlock);
    case BackoffFor(seconds) => RetryLeavesBe(env, w, polled, v, Backoff(seconds));
    case DropIt => RetryLeavesBe(env, w, polled, v, Drop);
  }

  /** The fresh loop resubmits nothing and leaves every marker it found, whatever happens. */
  lemma {:induction false} SweepLeavesBe(k: Config, env: Env, epoch: U64, w: World, a: Sweep, vs: seq<Visit>)
    requires LeavesBe(w, a.world)
    ensures LeavesBe(w, VisitAll(k, env, epoch, a, vs).world)
    decreases |vs|
  {
    hide LeavesBe;
    if vs != [] && a.status.Running? {
      VisitLeavesBe(k, env, epoch, w, a, vs[0]);
      SweepLeavesBe(k, env, epoch, w, VisitStep(k, env, epoch, a, vs[0]), vs[1..]);
    }
  }

  // --- What a pass retries ---

  lemma ResolveRetries(k: Config, env: Env, epoch: U64, w: World, reply: Reply, r: Reservation, a: Recon)
    requires a.status.Running? && |w.log| <= |a.world.log|
    ensures var b := Resolve(k, env, epoch, reply, r, a);
      && !b.status.Spent? && b.spent == a.spent && |w.log| <= |b.world.log|
      && Resubmitted(Since(w, b.world)) == Resubmitted(Since(w, a.world))
  {
    hide Resubmitted, Since;
    if reply.Answer? {
      var o := reply.outcome;
      var op := if o.Accepted? then Commit(r.key)
        else if Releases(k, o, false) then Release(r.key)
        else Park(r.key, r.body, ParkUntil(epoch, if Hinted(o.fault) then o.fault.retryAfterMs.value else 0));
      ResubmittedWrite(env, w, a.world, op);
    }
  }

  lemma StepRetries(k: Config, env: Env, epoch: U64, w: World, a: Recon, r: Reservation)
    requires a.status.Running? && |w.log| <= |a.world.log|
    requires r.nextEligible <= epoch && a.spent < k.budget
    ensures var b := ReconcileStep(k, env, epoch, a, r);
      && !b.status.Spent? && b.spent == a.spent + 1 && |w.log| <= |b.world.log|
      && Resubmitted(Since(w, b.world)) == Resubmitted(Since(w, a.world)) + {r.key}
  {
    hide Resolve, Resubmitted, Since;
    var e := Posted(r.key, r.body, epoch, false, ReplyAt(env, a.world, false, r.body));
    ResubmittedOneMore(w, a.world, e);
    ResolveRetries(k, env, epoch, w, e.reply, r, a.(world := After(a.world, e), spent := a.spent + 1));
  }

  lemma KeysOfNone(rs: seq<Reservation>)
    ensures KeysOf(rs[..0]) == {}
  {
  }

  lemma KeysOfFront(r: Reservation, rest: seq<Reservation>, m: nat)
    requires m <= |rest|
    ensures KeysOf(([r] + rest)[..m + 1]) == {r.key} + KeysOf(rest[..m])
  {
    assert ([r] + rest)[..m + 1] == [r] + rest[..m];
  }

  lemma {:induction false} AllRetries(k: Config, env: Env, epoch: U64, w: World, a: Recon, rs: seq<Reservation>)
    requires a.status.Running? && a.spent <= k.budget && |w.log| <= |a.world.log|
    ensures var b, ripe := ReconcileAll(k, env, epoch, a, rs), Ripe(rs, epoch);
      && a.spent <= b.spent <= k.budget && b.spent - a.spent <= |ripe| && |w.log| <= |b.world.log|
      && Resubmitted(Since(w, b.world)) == Resubmitted(Since(w, a.world)) + KeysOf(ripe[..b.spent - a.spent])
      && (b.status.Running? ==> b.spent - a.spent == |ripe|)
      && (b.status.Spent? ==> b.spent == k.budget && b.spent - a.spent < |ripe|)
    decreases |rs|
  {
    hide Resolve, Resubmitted, Since, KeysOf;
    var ripe := Ripe(rs, epoch);
    KeysOfNone(ripe);
    if rs != [] {
      var r, c := rs[0], ReconcileStep(k, env, epoch, a, rs[0]);
      if r.nextEligible > epoch {
        AllRetries(k, env, epoch, w, c, rs[1..]);
      } else if a.spent >= k.budget {
        assert ReconcileAll(k, env, epoch, a, rs) == c;
      } else {
        StepRetries(k, env, epoch, w, a, r);
        var rest := Ripe(rs[1..], epoch);
        KeysOfFront(r, rest, 0);
        KeysOfNone(rest);
        if c.status.Running? {
          AllRetries(k, env, epoch, w, c, rs[1..]);
          var m := ReconcileAll(k, env, epoch, c, rs[1..]).spent - c.spent;
          KeysOfFront(r, rest, m);
        } else {
          assert ReconcileAll(k, env, epoch, a, rs) == c;
        }
      }
    }
  }

  /** What the pass of `input` finds ripe in `w`. */
  ghost function RipeFor(input: RunInput, w: World): seq<Reservation>
    requires ListsPending(input.env)
  {
    if !input.pendingReads then []
    else
      assert IsListing(input.env.listing(w.journal), PendingKeys(w.journal));
      Ripe(Snapshot(w.journal, input.env.listing(w.journal)), input.epoch)
  }

  /** The first `budget` of them. */
  ghost function Front(k: Config, input: RunInput, w: World): set<Key>
    requires ListsPending(input.env)
  {
    KeysOf(RipeFor(input, w)[..Min(k.budget, |RipeFor(input, w)|)])
  }

  /** Neither faulted nor cut off. */
  predicate Ended(rec: Recon) { rec.status.Running? || rec.status.Spent? }

  /** Whatever the venue answers and the store does, a pass resubmits a front part of what is ripe, one
      for each unit of budget spent; if nothing ends it early, exactly the first `budget`, and it runs
      to its end if and only if there are no more than that. */
  lemma PassRetries(k: Config, input: RunInput, w: World)
    requires ListsPending(input.env)
    ensures var rec, ripe := ReconcilePass(k, input, w), RipeFor(input, w);
      && rec.spent <= Min(k.budget, |ripe|) && |w.log| <= |rec.world.log|
      && Resubmitted(Since(w, rec.world)) == KeysOf(ripe[..rec.spent])
      && (Ended(rec) ==> rec.spent == Min(k.budget, |ripe|) && (rec.status.Running? <==> |ripe| <= k.budget))
  {
    assert Since(w, w) == [] && Resubmitted([]) == {} && KeysOf([]) == {};
    if input.pendingReads {
      var keys := input.env.listing(w.journal);
      assert IsListing(keys, PendingKeys(w.journal));
      AllRetries(k, input.env, input.epoch, w, Recon(Running, w, 0, EMPTY_RECONCILE), Snapshot(w.journal, keys));
    }
  }

  ghost predicate KeysDiffer(rs: seq<Reservation>) {
    forall i, m :: 0 <= i < m < |rs| ==> rs[i].key != rs[m].key
  }

  lemma KeysDifferCons(r: Reservation, rs: seq<Reservation>)
    requires KeysDiffer(rs) && r.key !in KeysOf(rs)
    ensures KeysDiffer([r] + rs)
  {
    var more := [r] + rs;
    forall i, m | 0 <= i < m < |more| ensures more[i].key != more[m].key {
      assert more[m] == rs[m - 1] && rs[m - 1] in rs;
    }
  }

  lemma {:induction false} RipeDistinct(rs: seq<Reservation>, epoch: U64)
    requires KeysDiffer(rs)
    ensures KeysDiffer(Ripe(rs, epoch)) && KeysOf(Ripe(rs, epoch)) <= KeysOf(rs)
  {
    if rs != [] {
      var rest := rs[1..];
      assert rs == [rs[0]] + rest;
      assert KeysDiffer(rest) && rs[0].key !in KeysOf(rest);
      RipeDistinct(rest, epoch);
      hide KeysDiffer;
      KeysDifferCons(rs[0], Ripe(rest, epoch));
    }
  }

  /** The first `m` keys, told apart from the rest. */
  lemma FrontKeys(rs: seq<Reservation>, m: nat)
    requires KeysDiffer(rs) && m <= |rs|
    ensures forall i :: 0 <= i < |rs| ==> (rs[i].key in KeysOf(rs[..m]) <==> i < m)
    ensures KeysOf(rs) <= KeysOf(rs[..m]) <==> m == |rs|
  {
    forall i | 0 <= i < |rs| ensures rs[i].key in KeysOf(rs[..m]) <==> i < m {
      if i < m {
        assert rs[..m][i] in rs[..m];
      }
    }
    if m < |rs| {
      assert rs[m] in rs && rs[m].key in KeysOf(rs);
    } else {
      assert rs[..m] == rs;
    }
  }

  lemma FrontOf(input: RunInput, w: World, m: nat)
    requires ListsPending(input.env) && m <= |RipeFor(input, w)|
    ensures var ripe := RipeFor(input, w);
      && (forall i :: 0 <= i < |ripe| ==> (ripe[i].key in KeysOf(ripe[..m]) <==> i < m))
      && (KeysOf(ripe) <= KeysOf(ripe[..m]) <==> m == |ripe|)
  {
    if input.pendingReads {
      var keys := input.env.listing(w.journal);
      assert IsListing(keys, PendingKeys(w.journal));
      RipeDistinct(Snapshot(w.journal, keys), input.epoch);
    }
    hide KeysOf;
    FrontKeys(RipeFor(input, w), m);
  }

  /** Which reservation a pass skips, exactly: if nothing ends the pass early, a ripe reservation is
      resubmitted if and only if its rank among the ripe ones is below the budget; so none is skipped
      if and only if there are no more of them than the budget. */
  lemma NoneSkippedIff(k: Config, input: RunInput, w: World)
    requires ListsPending(input.env) && Ended(ReconcilePass(k, input, w))
    ensures var ripe, tried := RipeFor(input, w), Resubmitted(Since(w, ReconcilePass(k, input, w).world));
      && (forall i :: 0 <= i < |ripe| ==> (ripe[i].key in tried <==> i < k.budget))
      && (KeysOf(ripe) <= tried <==> |ripe| <= k.budget)
  {
    PassRetries(k, input, w);
    hide ReconcilePass, RipeFor, Resubmitted, KeysOf;
    FrontOf(input, w, ReconcilePass(k, input, w).spent);
  }

  // --- What a history retries ---

  /** The front parts that the passes of a history got through. */
  ghost function Reached(k: Config, w: World, runs: seq<RunInput>): set<Key>
    requires forall r :: r in runs ==> ListsPending(r.env)
  {
    if runs == [] then {}
    else
      var before, last := runs[..|runs| - 1], runs[|runs| - 1];
      PassRetries(k, last, History(k, w, before));
      Reached(k, w, before)
      + KeysOf(RipeFor(last, History(k, w, before))[..ReconcilePass(k, last, History(k, w, before)).spent])
  }

  /** One run resubmits what its pass does. */
  lemma RunRetries(k: Config, input: RunInput, w: World)
    requires ListsPending(input.env)
    ensures var rec, w' := ReconcilePass(k, input, w), RunOnce(k, input, w).world;
      && |w.log| <= |rec.world.log| && LeavesBe(rec.world, w')
      && Resubmitted(Since(w, w')) == Resubmitted(Since(w, rec.world))
  {
    PassRetries(k, input, w);
    var rec := ReconcilePass(k, input, w);
    SameLeavesBe(rec.world);
    if input.listed.Got? {
      SweepLeavesBe(k, input.env, input.epoch, rec.world, Opening(rec), input.listed.value);
    }
    hide ReconcilePass, RunOnce, VisitAll;
    ResubmittedSame(w, rec.world, RunOnce(k, input, w).world);
  }

  /** For every history, whatever is freshly offered, answered, faulted, gated or cut off: the
      reservations resubmitted are those its passes reached. */
  lemma {:induction false} HistoryRetries(k: Config, w: World, runs: seq<RunInput>)
    requires forall r :: r in runs ==> ListsPending(r.env)
    ensures |w.log| <= |History(k, w, runs).log| && History(k, w, runs).log[..|w.log|] == w.log
    ensures Resubmitted(Since(w, History(k, w, runs))) == Reached(k, w, runs)
  {
    if runs == [] {
      assert Since(w, w) == [];
    } else {
      var before, last := runs[..|runs| - 1], runs[|runs| - 1];
      HistoryRetries(k, w, before);
      var w1 := History(k, w, before);
      TrailGrows(k, w, runs);
      RunRetries(k, last, w1);
      PassRetries(k, last, w1);
      ResubmittedSplits(w, w1, RunOnce(k, last, w1).world);
    }
  }

  /** Trails only grow. */
  lemma TrailGrows(k: Config, w: World, runs: seq<RunInput>)
    requires runs != [] && forall r :: r in runs ==> ListsPending(r.env)
    ensures var w1, w2 := History(k, w, runs[..|runs| - 1]), History(k, w, runs);
      |w1.log| <= |w2.log| && w2.log[..|w1.log|] == w1.log
  {
    var w1 := History(k, w, runs[..|runs| - 1]);
    KeeperFollowsProtocol(k, Anything, w1, [runs[|runs| - 1]]);
    assert [runs[|runs| - 1]][..0] == [];
    assert History(k, w1, [runs[|runs| - 1]]) == History(k, w, runs);
  }

  lemma ResubmittedSplits(w0: World, w1: World, w2: World)
    requires |w0.log| <= |w1.log| <= |w2.log| && w2.log[..|w1.log|] == w1.log
    ensures Resubmitted(Since(w0, w2)) == Resubmitted(Since(w0, w1)) + Resubmitted(Since(w1, w2))
  {
    assert Since(w0, w2) == Since(w0, w1) + Since(w1, w2);
  }
}
