/**
 The keeper's code follows the journal protocol: whatever the venue answers, and
 wherever a run is faulted, trapped or cut off, the trail of a history of runs is
 a path of `JournalProtocol`, and its safety properties are the keeper's.
 */
module KeeperRefinement {
  import opened Prelude
  import opened KeeperModel
  import opened KeeperSpec
  import opened JournalProtocol

  /** The events logged since `w0`. */
  function Since(w0: World, w: World): seq<Event> {
    if |w0.log| <= |w.log| then w.log[|w0.log|..] else []
  }

  /** `w` is reached from `w0` along a path of the protocol that ends in phase `p`. */
  ghost predicate At(k: Config, trust: Trust, w0: World, w: World, p: Phase) {
    && |w0.log| <= |w.log|
    && Path(k, trust, w0, Since(w0, w))
    && Replay(w0, Since(w0, w)) == w
    && PhaseOf(k, Since(w0, w)) == p
  }

  lemma Advance(k: Config, trust: Trust, w0: World, w: World, p: Phase, e: Event)
    requires At(k, trust, w0, w, p) && Enabled(k, w, p, e) && Honours(k, trust, w, e)
    ensures At(k, trust, w0, After(w, e), PhaseAfter(k, p, e))
  {
    Extend(k, trust, w0, Since(w0, w), e);
    assert Since(w0, After(w, e)) == Since(w0, w) + [e];
  }

  /** The venue behind `env` keeps what is assumed of it. */
  ghost predicate VenueKeeps(k: Config, trust: Trust, env: Env) {
    forall n: nat, initial: bool, holds: bool, body: Bytes {:trigger env.reply(n, initial, holds, body)} ::
      Keeps(k, trust, initial, holds, env.reply(n, initial, holds, body))
  }

  lemma TrustedReply(k: Config, trust: Trust, env: Env, w: World, e: Event)
    requires VenueKeeps(k, trust, env)
    requires e.Posted? && e.reply == ReplyAt(env, w, e.initial, e.body)
    ensures Honours(k, trust, w, e)
  {
  }

  // --- The reconcile pass ---

  /** The snapshot rows not yet visited still stand in the journal as they were read. */
  ghost predicate Current(j: Journal, rs: seq<Reservation>) {
    && (forall i :: 0 <= i < |rs| ==>
          rs[i].key in j && j[rs[i].key] == Reserved(rs[i].body, rs[i].nextEligible))
    && (forall i, m :: 0 <= i < m < |rs| ==> rs[i].key != rs[m].key)
  }

  lemma ReconcileStepFollows(k: Config, trust: Trust, w0: World, env: Env, epoch: U64, a: Recon, rs: seq<Reservation>)
    requires rs != [] && a.status.Running? && Current(a.world.journal, rs)
    requires At(k, trust, w0, a.world, Idle) && VenueKeeps(k, trust, env)
    ensures var b := ReconcileStep(k, env, epoch, a, rs[0]);
      At(k, trust, w0, b.world, Idle) && Current(b.world.journal, rs[1..])
  {
    hide At, Resolve;
    var r := rs[0];
    if r.nextEligible <= epoch && a.spent < k.budget {
      var w := a.world;
      var reply := ReplyAt(env, w, false, r.body);
      var e := Posted(r.key, r.body, epoch, false, reply);
      Advance(k, trust, w0, w, Idle, e);
      var posted := After(w, e);
      ResolveFollows(k, trust, w0, env, e, r, a.(world := posted, spent := a.spent + 1));
      var b := ReconcileStep(k, env, epoch, a, r);
      assert forall i :: 0 < i < |rs| ==> RowOf(b.world, rs[i].key) == RowOf(a.world, rs[i].key);
    }
  }

  /** Resolving an answer is the write the protocol enables, or none; it touches one key's row. */
  lemma ResolveFollows(k: Config, trust: Trust, w0: World, env: Env, e: Event, r: Reservation, a: Recon)
    requires a.status.Running? && e.Posted? && !e.initial && e.key == r.key && e.body == r.body
    requires At(k, trust, w0, a.world, PhaseAfter(k, Idle, e))
    ensures var w := Resolve(k, env, e.epoch, e.reply, r, a).world;
      && At(k, trust, w0, w, Idle)
      && forall key :: key != r.key ==> RowOf(w, key) == RowOf(a.world, key)
  {
    hide At;
    var p := PhaseAfter(k, Idle, e);
    if !p.Idle? {
      var o := e.reply.outcome;
      var op := if o.Accepted? then Commit(r.key)
        else if Releases(k, o, false) then Release(r.key)
        else Park(r.key, r.body, ParkUntil(e.epoch, o.fault.retryAfterMs.value));
      Advance(k, trust, w0, a.world, p, Wrote(op, LandingAt(env, a.world)));
    }
  }

  lemma {:induction false} ReconcileAllFollows(k: Config, trust: Trust, w0: World, env: Env, epoch: U64, a: Recon, rs: seq<Reservation>)
    requires Current(a.world.journal, rs)
    requires At(k, trust, w0, a.world, Idle) && VenueKeeps(k, trust, env)
    ensures At(k, trust, w0, ReconcileAll(k, env, epoch, a, rs).world, Idle)
    decreases |rs|
  {
    if rs != [] && a.status.Running? {
      ReconcileStepFollows(k, trust, w0, env, epoch, a, rs);
      ReconcileAllFollows(k, trust, w0, env, epoch, ReconcileStep(k, env, epoch, a, rs[0]), rs[1..]);
    }
  }

  // --- The fresh-commitment loop ---

  lemma RetryFollows(k: Config, trust: Trust, w0: World, env: Env, a: Sweep, v: Visit, p: Phase, action: RetryAction)
    requires At(k, trust, w0, a.world, p) && (p.Idle? || p == Owing(action))
    ensures At(k, trust, w0, Retry(env, a, v, action).world, Idle)
  {
    hide At;
    Advance(k, trust, w0, a.world, p, Wrote(ApplyRetry(action), LandingAt(env, a.world)));
  }

  lemma SettleFollows(k: Config, trust: Trust, w0: World, env: Env, epoch: U64, a: Sweep, v: Visit, body: Bytes)
    requires At(k, trust, w0, a.world, Opened(k.KeyFor(body), body)) && VenueKeeps(k, trust, env)
    ensures var key := k.KeyFor(body);
      At(k, trust, w0, Settle(k, env, v, key, ReplyAt(env, a.world, true, body),
         a.(world := Post(env, a.world, key, body, epoch, true))).world, Idle)
  {
    var key, reply := k.KeyFor(body), ReplyAt(env, a.world, true, body);
    var e := Posted(key, body, epoch, true, reply);
    hide At, Settle, VenueKeeps;
    JustReserved(k, trust, w0, a.world, Opened(key, body));
    assert Honours(k, trust, a.world, e) by { TrustedReply(k, trust, env, a.world, e); }
    Advance(k, trust, w0, a.world, Opened(key, body), e);
    AnswerFollows(k, trust, w0, env, a.(world := After(a.world, e)), v, e);
  }

  /** After a first POST: the journal write its answer calls for, then the write outside the journal. */
  lemma AnswerFollows(k: Config, trust: Trust, w0: World, env: Env, a: Sweep, v: Visit, e: Event)
    requires e.Posted? && e.initial
    requires At(k, trust, w0, a.world, PhaseAfter(k, Opened(e.key, e.body), e))
    ensures At(k, trust, w0, Settle(k, env, v, e.key, e.reply, a).world, Idle)
  {
    hide At, Retry;
    if e.reply.Answer? {
      var p, o := PhaseAfter(k, Opened(e.key, e.body), e), e.reply.outcome;
      var op := if o.Accepted? then Commit(e.key) else Release(e.key);
      var settled := SweepWrite(env, a, op);
      Advance(k, trust, w0, a.world, p, Wrote(op, LandingAt(env, a.world)));
      if o.Accepted? && !settled.status.Cut? {
        Advance(k, trust, w0, settled.world, Clearing, Wrote(ClearRefusal, LandingAt(env, settled.world)));
      } else if o.Refused? && settled.status.Running? {
        RetryFollows(k, trust, w0, env, settled, v, Owing(k.policy(o.fault)), k.policy(o.fault));
      }
    }
  }

  lemma JustReserved(k: Config, trust: Trust, w0: World, w: World, p: Phase)
    requires p.Opened? && At(k, trust, w0, w, p)
    ensures RowOf(w, p.key) == Some(Reserved(p.body, 0))
  {
  }

  lemma OfferFollows(k: Config, trust: Trust, w0: World, env: Env, epoch: U64, a: Sweep, v: Visit, body: Bytes)
    requires a.status.Running?
    requires At(k, trust, w0, a.world, Idle) && VenueKeeps(k, trust, env)
    ensures At(k, trust, w0, Offer(k, env, epoch, a, v, body).world, Idle)
  {
    hide At, Settle, VenueKeeps;
    var op := Reserve(k.KeyFor(body), body);
    if op.key !in a.world.journal {
      Advance(k, trust, w0, a.world, Idle, Wrote(op, LandingAt(env, a.world)));
      if LandingAt(env, a.world).Landed? {
        SettleFollows(k, trust, w0, env, epoch, SweepWrite(env, a, op), v, body);
      }
    }
  }

  lemma VisitStepFollows(k: Config, trust: Trust, w0: World, env: Env, epoch: U64, a: Sweep, v: Visit)
    requires a.status.Running?
    requires At(k, trust, w0, a.world, Idle) && VenueKeeps(k, trust, env)
    ensures At(k, trust, w0, VisitStep(k, env, epoch, a, v).world, Idle)
  {
    hide At, Offer, Settle, Retry, VenueKeeps;
    var polled := a.(report := a.report.(polled := a.report.polled + 1));
    match v.poll
    case Submit(body) => OfferFollows(k, trust, w0, env, epoch, polled, v, body);
    case WaitBlock => RetryFollows(k, trust, w0, env, polled, v, Idle, TryNextBlock);
    case BackoffFor(seconds) => RetryFollows(k, trust, w0, env, polled, v, Idle, Backoff(seconds));
    case DropIt => RetryFollows(k, trust, w0, env, polled, v, Idle, Drop);
  }

  lemma {:induction false} VisitAllFollows(k: Config, trust: Trust, w0: World, env: Env, epoch: U64, a: Sweep, vs: seq<Visit>)
    requires At(k, trust, w0, a.world, Idle) && VenueKeeps(k, trust, env)
    ensures At(k, trust, w0, VisitAll(k, env, epoch, a, vs).world, Idle)
    decreases |vs|
  {
    if vs != [] && a.status.Running? {
      VisitStepFollows(k, trust, w0, env, epoch, a, vs[0]);
      VisitAllFollows(k, trust, w0, env, epoch, VisitStep(k, env, epoch, a, vs[0]), vs[1..]);
    }
  }

  // --- Runs and histories ---

  ghost predicate Usable(k: Config, trust: Trust, runs: seq<RunInput>) {
    forall r :: r in runs ==> ListsPending(r.env) && VenueKeeps(k, trust, r.env)
  }

  lemma PassFollows(k: Config, trust: Trust, w0: World, input: RunInput, w: World)
    requires ListsPending(input.env) && VenueKeeps(k, trust, input.env)
    requires At(k, trust, w0, w, Idle)
    ensures At(k, trust, w0, ReconcilePass(k, input, w).world, Idle)
  {
    if input.pendingReads {
      var keys := input.env.listing(w.journal);
      assert IsListing(keys, PendingKeys(w.journal));
      ReconcileAllFollows(k, trust, w0, input.env, input.epoch, Recon(Running, w, 0, EMPTY_RECONCILE), Snapshot(w.journal, keys));
    }
  }

  /** Every history of runs, cut off anywhere, follows the journal protocol. */
  lemma {:induction false} KeeperFollowsProtocol(k: Config, trust: Trust, w: World, runs: seq<RunInput>)
    requires Usable(k, trust, runs)
    ensures At(k, trust, w, History(k, w, runs), Idle)
  {
    if runs == [] {
      assert Since(w, w) == [];
    } else {
      var last, before := runs[|runs| - 1], runs[..|runs| - 1];
      KeeperFollowsProtocol(k, trust, w, before);
      var w' := History(k, w, before);
      PassFollows(k, trust, w, last, w');
      var rec := ReconcilePass(k, last, w');
      if !rec.status.Failed? && !rec.status.Cut? && last.listed.Got? {
        VisitAllFollows(k, trust, w, last.env, last.epoch, Opening(rec), last.listed.value);
      }
    }
  }

  // --- What that gives the keeper ---

  /** Without any venue assumption: answered acceptances = commits that missed + (1 if COMMITTED). */
  lemma ExactPostAccounting(k: Config, w: World, runs: seq<RunInput>, key: Key)
    requires Usable(k, Anything, runs) && key !in w.journal
    ensures var w' := History(k, w, runs);
      Acceptances(Since(w, w'), key)
      == MissedCommits(Since(w, w'), key) + if IsCommitted(w', key) then 1 else 0
  {
    KeeperFollowsProtocol(k, Anything, w, runs);
    PostAccounting(k, Anything, w, Since(w, History(k, w, runs)), key);
  }

  /** No run ever POSTs a committed key again, whatever is offered and whatever fails. */
  lemma NoPostAfterCommit(k: Config, w: World, runs: seq<RunInput>, key: Key)
    requires Usable(k, Anything, runs) && IsCommitted(w, key)
    ensures IsCommitted(History(k, w, runs), key)
    ensures forall e :: e in Since(w, History(k, w, runs)) && e.Posted? ==> e.key != key
  {
    KeeperFollowsProtocol(k, Anything, w, runs);
    CommittedIsAbsorbing(k, Anything, w, Since(w, History(k, w, runs)), 0, key);
  }

  /** At a venue that keeps its contract every held body has a marker and is held once, always. */
  lemma WriteAheadSafety(k: Config, trust: Trust, w: World, runs: seq<RunInput>)
    requires !trust.Anything? && Usable(k, trust, runs) && Sound(k, w)
    ensures Sound(k, History(k, w, runs))
  {
    KeeperFollowsProtocol(k, trust, w, runs);
    StaysSound(k, trust, w, Since(w, History(k, w, runs)));
  }

  /** Across any runs and crashes: after a landed park, the key's next POST waits for the deadline and
      carries the parked body. */
  lemma BackoffIsHonoured(k: Config, w: World, runs: seq<RunInput>, i: nat, j: nat)
    requires Usable(k, Anything, runs)
    requires var es := Since(w, History(k, w, runs));
      && i < j < |es| && es[j].Posted? && IsPark(es[i], es[j].key)
      && forall m :: i < m < j ==> !PostsKey(es[m], es[j].key)
    ensures var es := Since(w, History(k, w, runs));
      es[j].epoch >= es[i].op.until && es[j].body == es[i].op.body
  {
    var es := Since(w, History(k, w, runs));
    KeeperFollowsProtocol(k, Anything, w, runs);
    ParkIsHonoured(k, Anything, w, es, i, j, es[j].key);
  }

  /** Across any runs: from a key's first landed reservation until it is released, every POST of the
      key, by the fresh loop or by any later reconcile pass, carries the body first reserved. */
  lemma PostedBodyIsTheReservedOne(k: Config, w: World, runs: seq<RunInput>, i: nat, j: nat)
    requires Usable(k, Anything, runs)
    requires var es := Since(w, History(k, w, runs));
      && i < j < |es|
      && es[i].Wrote? && es[i].op.Reserve? && es[i].landing.Landed? && es[j].Posted? && es[j].key == es[i].op.key
      && forall m :: i < m < j ==> es[m] != Wrote(Release(es[j].key), Landed)
    ensures var es := Since(w, History(k, w, runs)); es[j].body == es[i].op.body
  {
    var es := Since(w, History(k, w, runs));
    KeeperFollowsProtocol(k, Anything, w, runs);
    PathAt(k, Anything, w, es, j);
    assert es[..j][i] == es[i];
    BodyIsStable(k, Anything, w, es[..j], i, es[i].op.key, es[i].op.body);
  }
}
