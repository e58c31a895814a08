/**
 Liveness of the keeper: how fast stranded reservations drain, and that after any
 crashes a calm venue brings the journal to COMMITTED with each body held once.
 */
module KeeperRecovery {
  import opened Prelude
  import opened KeeperModel
  import opened KeeperSpec
  import opened JournalProtocol
  import opened KeeperRefinement

  /** No store fault and no trap. */
  ghost predicate Calm(env: Env) {
    forall n: nat :: env.write(n).Landed?
  }

  /** Every POST is answered. */
  ghost predicate Answers(env: Env) {
    forall n: nat, initial: bool, holds: bool, body: Bytes {:trigger env.reply(n, initial, holds, body)} ::
      env.reply(n, initial, holds, body).Answer?
  }

  /** Every POST is accepted, or answered in a way that ends a reservation. */
  ghost predicate Settles(k: Config, env: Env) {
    forall n: nat, initial: bool, holds: bool, body: Bytes {:trigger env.reply(n, initial, holds, body)} ::
      var reply := env.reply(n, initial, holds, body);
      reply.Answer? && (reply.outcome.Accepted? || Releases(k, reply.outcome, false))
  }

  ghost predicate NoneGated(j: Journal, epoch: U64) {
    forall key :: key in PendingKeys(j) ==> j[key].nextEligible <= epoch
  }

  /** No reservation of `j'` is new or changed. */
  ghost predicate NoNewPending(j: Journal, j': Journal) {
    forall key :: key in PendingKeys(j') ==> key in j && j[key] == j'[key]
  }

  // --- One reconcile pass ---

  lemma {:induction false} ListingSize(keys: seq<Key>, s: set<Key>)
    requires IsListing(keys, s)
    ensures |keys| == |s|
  {
    if keys == [] {
      assert s == {};
    } else {
      var n := |keys| - 1;
      assert keys == keys[..n] + [keys[n]];
      assert keys[n] in s;
      ListingSize(keys[..n], s - {keys[n]});
    }
  }

  function KeysOf(rs: seq<Reservation>): set<Key> { set r | r in rs :: r.key }

  lemma {:induction false} KeysOfSize(j: Journal, rs: seq<Reservation>)
    requires Current(j, rs)
    ensures |KeysOf(rs)| == |rs| && KeysOf(rs) <= PendingKeys(j)
  {
    if rs != [] {
      KeysOfSize(j, rs[1..]);
      assert rs == [rs[0]] + rs[1..];
      assert KeysOf(rs) == {rs[0].key} + KeysOf(rs[1..]);
      assert rs[0].key !in KeysOf(rs[1..]);
    }
  }

  lemma StepDrains(k: Config, env: Env, epoch: U64, a: Recon, rs: seq<Reservation>)
    requires rs != [] && a.status.Running? && Current(a.world.journal, rs)
    requires Calm(env) && Settles(k, env)
    requires rs[0].nextEligible <= epoch && a.spent < k.budget
    ensures var b := ReconcileStep(k, env, epoch, a, rs[0]);
      && b.status.Running? && b.spent == a.spent + 1
      && Current(b.world.journal, rs[1..])
      && PendingKeys(b.world.journal) == PendingKeys(a.world.journal) - {rs[0].key}
      && NoNewPending(a.world.journal, b.world.journal)
  {
  }

  lemma StepSpent(k: Config, env: Env, epoch: U64, a: Recon, r: Reservation)
    requires a.status.Running? && r.nextEligible <= epoch && a.spent >= k.budget
    ensures ReconcileStep(k, env, epoch, a, r) == a.(status := Spent)
  {
  }

  lemma {:induction false} AllDrains(k: Config, env: Env, epoch: U64, a: Recon, rs: seq<Reservation>)
    requires a.status.Running? && Current(a.world.journal, rs) && a.spent <= k.budget
    requires Calm(env) && Settles(k, env)
    requires forall r :: r in rs ==> r.nextEligible <= epoch
    ensures var b, m := ReconcileAll(k, env, epoch, a, rs), Min(k.budget - a.spent, |rs|);
      && (b.status.Running? || b.status.Spent?) && b.spent == a.spent + m
      && PendingKeys(b.world.journal) == PendingKeys(a.world.journal) - KeysOf(rs[..m])
      && NoNewPending(a.world.journal, b.world.journal)
    decreases |rs|
  {
    hide ReconcileStep, Resolve;
    if rs != [] {
      var c := ReconcileStep(k, env, epoch, a, rs[0]);
      if a.spent < k.budget {
        StepDrains(k, env, epoch, a, rs);
        AllDrains(k, env, epoch, c, rs[1..]);
        var m := Min(k.budget - a.spent, |rs|);
        assert rs[..m] == [rs[0]] + rs[1..][..m - 1];
        assert KeysOf(rs[..m]) == {rs[0].key} + KeysOf(rs[1..][..m - 1]);
      } else {
        StepSpent(k, env, epoch, a, rs[0]);
        assert KeysOf(rs[..0]) == {};
      }
    } else {
      assert KeysOf(rs[..0]) == {};
    }
  }

  lemma SnapshotKeys(j: Journal, keys: seq<Key>)
    requires IsListing(keys, PendingKeys(j))
    ensures Current(j, Snapshot(j, keys)) && KeysOf(Snapshot(j, keys)) == PendingKeys(j)
    ensures |Snapshot(j, keys)| == |PendingKeys(j)|
  {
    var rs := Snapshot(j, keys);
    forall key | key in PendingKeys(j) ensures key in KeysOf(rs) {
      var i :| 0 <= i < |keys| && keys[i] == key;
      assert rs[i] in rs && rs[i].key == key;
    }
    ListingSize(keys, PendingKeys(j));
  }

  lemma DifferenceSize(s: set<Key>, part: set<Key>)
    requires part <= s
    ensures |s - part| == |s| - |part|
  {
  }

  lemma SnapshotEligible(j: Journal, keys: seq<Key>, epoch: U64)
    requires IsListing(keys, PendingKeys(j)) && NoneGated(j, epoch)
    ensures forall r :: r in Snapshot(j, keys) ==> r.nextEligible <= epoch
  {
  }

  /** With nothing gated, a calm pass at a venue that settles every POST removes exactly
      min(budget, size) reservations, with exactly that many POSTs, and adds none. */
  lemma PassDrains(k: Config, input: RunInput, w: World)
    requires ListsPending(input.env) && input.pendingReads
    requires Calm(input.env) && Settles(k, input.env) && NoneGated(w.journal, input.epoch)
    ensures var b, size := ReconcilePass(k, input, w), |PendingKeys(w.journal)|;
      && (b.status.Running? || b.status.Spent?)
      && b.spent == Min(k.budget, size)
      && |PendingKeys(b.world.journal)| == size - Min(k.budget, size)
      && NoNewPending(w.journal, b.world.journal)
  {
    var j := w.journal;
    var keys := input.env.listing(j);
    assert IsListing(keys, PendingKeys(j));
    SnapshotKeys(j, keys);
    SnapshotEligible(j, keys, input.epoch);
    var rs := Snapshot(j, keys);
    hide ReconcileAll, KeysOf, PendingKeys, NoNewPending, NoneGated, Calm, Settles, Snapshot, IsListing;
    AllDrains(k, input.env, input.epoch, Recon(Running, w, 0, EMPTY_RECONCILE), rs);
    var reached := rs[..Min(k.budget, |rs|)];
    KeysOfSize(j, reached);
    DifferenceSize(PendingKeys(j), KeysOf(reached));
  }

  // --- The fresh loop, and a whole run ---

  /** A fresh submission that is answered ends with its key committed, or with the journal as it was. */
  lemma OfferResolves(k: Config, env: Env, epoch: U64, a: Sweep, v: Visit, body: Bytes)
    requires Calm(env) && Answers(env)
    ensures var j, j' := a.world.journal, Offer(k, env, epoch, a, v, body).world.journal;
      j' == j || (k.KeyFor(body) !in j && j' == j[k.KeyFor(body) := Committed])
  {
    var n, key, j := |a.world.log|, k.KeyFor(body), a.world.journal;
    if v.markReads && key !in j {
      assert env.write(n).Landed? && env.write(n + 2).Landed?;
      var reserved := SweepWrite(env, a, Reserve(key, body));
      assert reserved.world.journal == j[key := Reserved(body, 0)];
      var reply := ReplyAt(env, reserved.world, true, body);
      assert reply.Answer?;
      var posted := reserved.(world := Post(env, reserved.world, key, body, epoch, true));
      assert Offer(k, env, epoch, a, v, body) == Settle(k, env, v, key, reply, posted);
      assert j[key := Reserved(body, 0)][key := Committed] == j[key := Committed];
      assert j[key := Reserved(body, 0)] - {key} == j;
      assert LandingAt(env, posted.world) == env.write(n + 2);
    }
  }

  ghost predicate StrandsNothing(j: Journal, j': Journal) {
    NoNewPending(j, j') && PendingKeys(j') == PendingKeys(j) && j.Keys <= j'.Keys
  }

  lemma VisitStrandsNothing(k: Config, env: Env, epoch: U64, a: Sweep, v: Visit)
    requires a.status.Running? && Calm(env) && Answers(env)
    ensures StrandsNothing(a.world.journal, VisitStep(k, env, epoch, a, v).world.journal)
  {
    hide Offer, Settle, PendingKeys, NoNewPending;
    var j := a.world.journal;
    if v.wellFormed && v.ready == Got(true) && v.present == Got(true) && v.poll.Submit? {
      var polled := a.(report := a.report.(polled := a.report.polled + 1));
      OfferResolves(k, env, epoch, polled, v, v.poll.body);
    } else {
      assert VisitStep(k, env, epoch, a, v).world.journal == j;
    }
    CommitStrandsNothing(j, if v.poll.Submit? then k.KeyFor(v.poll.body) else "");
  }

  lemma CommitStrandsNothing(j: Journal, key: Key)
    ensures StrandsNothing(j, j) && (key !in j ==> StrandsNothing(j, j[key := Committed]))
  {
  }

  /** A fault-free fresh loop leaves no reservation of its own behind. */
  lemma {:induction false} SweepStrandsNothing(k: Config, env: Env, epoch: U64, a: Sweep, vs: seq<Visit>)
    requires Calm(env) && Answers(env)
    ensures StrandsNothing(a.world.journal, VisitAll(k, env, epoch, a, vs).world.journal)
    decreases |vs|
  {
    if vs != [] && a.status.Running? {
      VisitStrandsNothing(k, env, epoch, a, vs[0]);
      SweepStrandsNothing(k, env, epoch, VisitStep(k, env, epoch, a, vs[0]), vs[1..]);
    }
  }

  lemma RunDrains(k: Config, input: RunInput, w: World)
    requires ListsPending(input.env) && input.pendingReads
    requires Calm(input.env) && Settles(k, input.env) && NoneGated(w.journal, input.epoch)
    ensures var w', size := RunOnce(k, input, w).world, |PendingKeys(w.journal)|;
      && |PendingKeys(w'.journal)| == size - Min(k.budget, size)
      && NoNewPending(w.journal, w'.journal)
  {
    PassDrains(k, input, w);
    if input.listed.Got? {
      SweepStrandsNothing(k, input.env, input.epoch, Opening(ReconcilePass(k, input, w)), input.listed.value);
    }
  }

  /** Runs without store faults, at clocks past every deadline in `j`. */
  ghost predicate CalmRuns(k: Config, runs: seq<RunInput>, j: Journal) {
    forall r :: r in runs ==>
      && ListsPending(r.env) && r.pendingReads
      && Calm(r.env) && Settles(k, r.env) && NoneGated(j, r.epoch)
  }

  /** n calm runs remove exactly min(n * budget, size) of the stranded reservations. */
  lemma {:induction false} ReconcileDrains(k: Config, w: World, runs: seq<RunInput>)
    requires CalmRuns(k, runs, w.journal)
    ensures var w', size := History(k, w, runs), |PendingKeys(w.journal)|;
      && |PendingKeys(w'.journal)| == size - Min(|runs| * k.budget, size)
      && NoNewPending(w.journal, w'.journal)
  {
    if runs != [] {
      var n := |runs| - 1;
      assert forall r :: r in runs[..n] ==> r in runs;
      assert runs[n] in runs;
      ReconcileDrains(k, w, runs[..n]);
      RunDrains(k, runs[n], History(k, w, runs[..n]));
      assert |runs| * k.budget == n * k.budget + k.budget;
    }
  }

  // --- Crash recovery ---

  /** All markers are COMMITTED, the committed keys are those of the held bodies, each held once. */
  ghost predicate Recovered(k: Config, w: World) {
    && PendingKeys(w.journal) == {}
    && (forall key :: key in w.journal ==> w.journal[key].Committed?)
    && (forall body :: body in w.held ==> w.held[body] == 1 && IsCommitted(w, k.KeyFor(body)))
    && (forall key :: key in w.journal ==> exists body :: body in w.held && k.KeyFor(body) == key)
  }

  /**
   Crash recovery. `crashes` is any history of runs at a venue that keeps its contract:
   every write may fault or trap, every POST may be cut off with the body taken or not.
   Any `recovery` runs that are calm, accepting and numerous enough for the budget then
   leave every key COMMITTED, lose none, and leave every held body held exactly once,
   among them every body that was still reserved.
   */
  lemma CrashRecovery(k: Config, w0: World, crashes: seq<RunInput>, recovery: seq<RunInput>)
    requires Sound(k, w0) && Usable(k, Contract, crashes)
    requires Recovers(k, History(k, w0, crashes), recovery)
    ensures var w := History(k, w0, crashes); var w' := History(k, w, recovery);
      && Recovered(k, w') && Sound(k, w')
      && w.journal.Keys <= w'.journal.Keys
      && forall key :: key in PendingKeys(w.journal) ==> w'.held[w.journal[key].body] == 1
  {
    WriteAheadSafety(k, Contract, w0, crashes);
    RecoveryFrom(k, History(k, w0, crashes), recovery);
  }

  /** Runs at an accepting venue without store faults, past every deadline, enough for the budget. */
  ghost predicate Recovers(k: Config, w: World, recovery: seq<RunInput>) {
    && Usable(k, Accepting, recovery) && CalmRuns(k, recovery, w.journal)
    && |PendingKeys(w.journal)| <= |recovery| * k.budget
  }

  lemma RecoveryFrom(k: Config, w: World, recovery: seq<RunInput>)
    requires Sound(k, w) && Recovers(k, w, recovery)
    ensures var w' := History(k, w, recovery);
      && Recovered(k, w') && Sound(k, w')
      && w.journal.Keys <= w'.journal.Keys
      && forall key :: key in PendingKeys(w.journal) ==> w'.held[w.journal[key].body] == 1
  {
    WriteAheadSafety(k, Accepting, w, recovery);
    ReconcileDrains(k, w, recovery);
    KeeperFollowsProtocol(k, Accepting, w, recovery);
    var w' := History(k, w, recovery);
    var es := Since(w, w');
    hide History, Usable, CalmRuns, Path, Replay;
    AcceptingOnlyGrows(k, w, es);
    forall key | key in w'.journal ensures w'.journal[key].Committed? {
      assert key !in PendingKeys(w'.journal);
    }
    forall body | body in w'.held ensures IsCommitted(w', k.KeyFor(body)) {
      assert Marked(k, w', body);
    }
    forall key | key in PendingKeys(w.journal) ensures w'.held[w.journal[key].body] == 1 {
      ReservedIsNotLost(k, w, es, key);
    }
  }

  // --- A body offered during recovery ---

  /** The visit reaches the submit arm: the commitment is there and ready, and its poll offers `body`. */
  predicate Offers(v: Visit, body: Bytes) {
    v.wellFormed && v.ready == Got(true) && v.present == Got(true) && v.poll == Submit(body) && v.markReads
  }

  /** The world as the sweep finds it at its visit `i`. */
  ghost function WorldAt(k: Config, input: RunInput, w: World, i: nat): World
    requires ListsPending(input.env) && input.listed.Got? && i <= |input.listed.value|
  {
    VisitAll(k, input.env, input.epoch, Opening(ReconcilePass(k, input, w)), input.listed.value[..i]).world
  }

  lemma OfferAccepted(k: Config, env: Env, epoch: U64, a: Sweep, v: Visit, body: Bytes)
    requires a.status.Running? && Offers(v, body) && Calm(env) && VenueKeeps(k, Accepting, env)
    ensures var b, key := VisitStep(k, env, epoch, a, v), k.KeyFor(body);
      key in b.world.journal && (key !in a.world.journal ==> IsCommitted(b.world, key) && body in b.world.held)
  {
    var n, key := |a.world.log|, k.KeyFor(body);
    if key !in a.world.journal {
      assert env.write(n).Landed? && env.write(n + 2).Landed? && env.write(n + 3).Landed?;
      assert Keeps(k, Accepting, true, body in a.world.held, env.reply(n + 1, true, body in a.world.held, body));
    }
  }

  lemma {:induction false} VisitAllSplits(k: Config, env: Env, epoch: U64, a: Sweep, vs: seq<Visit>, i: nat)
    requires i <= |vs|
    ensures VisitAll(k, env, epoch, a, vs) == VisitAll(k, env, epoch, VisitAll(k, env, epoch, a, vs[..i]), vs[i..])
    decreases |vs|
  {
    hide VisitStep;
    if i == 0 || !a.status.Running? {
      assert vs[..0] == [] && vs[0..] == vs;
    } else {
      assert vs[1..][..i - 1] == vs[..i][1..] && vs[1..][i - 1..] == vs[i..];
      VisitAllSplits(k, env, epoch, VisitStep(k, env, epoch, a, vs[0]), vs[1..], i - 1);
    }
  }

  lemma SweepGrows(k: Config, env: Env, epoch: U64, a: Sweep, vs: seq<Visit>)
    requires VenueKeeps(k, Accepting, env)
    ensures var b := VisitAll(k, env, epoch, a, vs);
      a.world.journal.Keys <= b.world.journal.Keys && a.world.held <= b.world.held
  {
    assert Since(a.world, a.world) == [];
    VisitAllFollows(k, Accepting, a.world, env, epoch, a, vs);
    AcceptingOnlyGrows(k, a.world, Since(a.world, VisitAll(k, env, epoch, a, vs).world));
  }

  lemma SweepCommits(k: Config, env: Env, epoch: U64, a: Sweep, vs: seq<Visit>, i: nat, body: Bytes)
    requires Calm(env) && VenueKeeps(k, Accepting, env)
    requires i < |vs| && Offers(vs[i], body) && VisitAll(k, env, epoch, a, vs).status.Running?
    ensures var at, b, key := VisitAll(k, env, epoch, a, vs[..i]).world, VisitAll(k, env, epoch, a, vs).world, k.KeyFor(body);
      && key in b.journal
      && PendingKeys(b.journal) == PendingKeys(a.world.journal)
      && (key !in at.journal ==> body in b.held)
  {
    var at, rest := VisitAll(k, env, epoch, a, vs[..i]), vs[i..];
    VisitAllSplits(k, env, epoch, a, vs, i);
    assert rest[0] == vs[i];
    SweepStrandsNothing(k, env, epoch, a, vs);
    hide VisitStep, StrandsNothing;
    OfferAccepted(k, env, epoch, at, vs[i], body);
    SweepGrows(k, env, epoch, VisitStep(k, env, epoch, at, vs[i]), rest[1..]);
  }

  /** At an accepting venue without store faults, a run that completes leaves every body it was offered
      COMMITTED, unless the reconcile pass left its key reserved; and holds it exactly once, if its key
      was unmarked when visited. */
  lemma OfferIsCommitted(k: Config, input: RunInput, w: World, i: nat, body: Bytes)
    requires ListsPending(input.env) && Calm(input.env) && VenueKeeps(k, Accepting, input.env) && Sound(k, w)
    requires RunOnce(k, input, w).status.Running? && input.listed.Got?
    requires i < |input.listed.value| && Offers(input.listed.value[i], body)
    ensures var w', key := RunOnce(k, input, w).world, k.KeyFor(body);
      && key in w'.journal
      && (IsCommitted(w', key) <==> key !in PendingKeys(ReconcilePass(k, input, w).world.journal))
      && (key !in WorldAt(k, input, w, i).journal ==> w'.held[body] == 1)
  {
    SweepCommits(k, input.env, input.epoch, Opening(ReconcilePass(k, input, w)), input.listed.value, i, body);
    hide ReconcilePass, VisitAll;
    assert History(k, w, [input]) == RunOnce(k, input, w).world by {
      assert [input][..0] == [];
    }
    WriteAheadSafety(k, Accepting, w, [input]);
  }

  lemma {:induction false} HistorySplits(k: Config, w: World, runs: seq<RunInput>, m: nat)
    requires m <= |runs| && forall r :: r in runs ==> ListsPending(r.env)
    ensures History(k, w, runs) == History(k, History(k, w, runs[..m]), runs[m..])
    decreases |runs|
  {
    hide RunOnce, IsListing;
    if m == |runs| {
      assert runs[..m] == runs && runs[m..] == [];
    } else {
      var n := |runs| - 1;
      assert runs[..n][..m] == runs[..m] && runs[..n][m..] == runs[m..][..n - m];
      HistorySplits(k, w, runs[..n], m);
    }
  }

  lemma HistoryGrows(k: Config, w: World, runs: seq<RunInput>)
    requires Usable(k, Accepting, runs)
    ensures w.journal.Keys <= History(k, w, runs).journal.Keys && w.held <= History(k, w, runs).held
  {
    KeeperFollowsProtocol(k, Accepting, w, runs);
    AcceptingOnlyGrows(k, w, Since(w, History(k, w, runs)));
  }

  /**
   Re-offering. Wherever the crashes struck, its own reservation included, a body offered in any
   recovery run that completes ends COMMITTED, and is held exactly once if its key was unmarked when
   visited; if it was marked, one body under that key is held, this one or one with the same digest.
   */
  lemma ReofferedIsRecovered(k: Config, w0: World, crashes: seq<RunInput>, recovery: seq<RunInput>, m: nat, i: nat, body: Bytes)
    requires Sound(k, w0) && Usable(k, Contract, crashes)
    requires Recovers(k, History(k, w0, crashes), recovery)
    requires m < |recovery| && recovery[m].listed.Got?
    requires i < |recovery[m].listed.value| && Offers(recovery[m].listed.value[i], body)
    requires var w := History(k, w0, crashes);
      RunOnce(k, recovery[m], History(k, w, recovery[..m])).status.Running?
    ensures var w := History(k, w0, crashes); var w', key := History(k, w, recovery), k.KeyFor(body);
      && Recovered(k, w') && IsCommitted(w', key)
      && (key !in WorldAt(k, recovery[m], History(k, w, recovery[..m]), i).journal ==> w'.held[body] == 1)
      && (w'.held[body] == 1 || exists other :: other in w'.held && other != body && k.KeyFor(other) == key)
  {
    hide RunOnce, VisitAll, ReconcilePass, IsListing, Calm, Settles, NoneGated, PendingKeys, Sound;
    var w := History(k, w0, crashes);
    WriteAheadSafety(k, Contract, w0, crashes);
    RecoveryFrom(k, w, recovery);
    var before, input, rest := History(k, w, recovery[..m]), recovery[m], recovery[m + 1..];
    assert forall r :: r in recovery[..m] || r in rest || r == input ==> r in recovery;
    WriteAheadSafety(k, Accepting, w, recovery[..m]);
    OfferIsCommitted(k, input, before, i, body);
    assert recovery[..m + 1][..m] == recovery[..m];
    HistorySplits(k, w, recovery, m + 1);
    HistoryGrows(k, RunOnce(k, input, before).world, rest);
  }

  ghost predicate Unmoved(w: World, w': World) {
    && w'.journal == w.journal && w'.held == w.held
    && |w.log| <= |w'.log| && w'.log[..|w.log|] == w.log
    && forall e :: e in Since(w, w') ==> !e.Posted?
  }

  lemma VisitUnmoved(k: Config, env: Env, epoch: U64, w: World, a: Sweep, v: Visit)
    requires a.status.Running? && Unmoved(w, a.world)
    requires v.poll.Submit? ==> IsCommitted(w, k.KeyFor(v.poll.body))
    ensures Unmoved(w, VisitStep(k, env, epoch, a, v).world)
  {
  }

  lemma {:induction false} SweepUnmoved(k: Config, env: Env, epoch: U64, w: World, a: Sweep, vs: seq<Visit>)
    requires Unmoved(w, a.world)
    requires forall v :: v in vs && v.poll.Submit? ==> IsCommitted(w, k.KeyFor(v.poll.body))
    ensures Unmoved(w, VisitAll(k, env, epoch, a, vs).world)
    decreases |vs|
  {
    hide Unmoved;
    if vs != [] && a.status.Running? {
      VisitUnmoved(k, env, epoch, w, a, vs[0]);
      SweepUnmoved(k, env, epoch, w, VisitStep(k, env, epoch, a, vs[0]), vs[1..]);
    }
  }

  /** From a recovered state, a run that is offered only held bodies makes no POST and changes
      neither journal nor venue, even if the store faults or the run is cut off. */
  lemma SteadyState(k: Config, w: World, input: RunInput)
    requires Recovered(k, w) && ListsPending(input.env)
    requires input.listed.Got? ==>
      forall v :: v in input.listed.value && v.poll.Submit? ==> v.poll.body in w.held
    ensures Unmoved(w, RunOnce(k, input, w).world)
  {
    var keys := input.env.listing(w.journal);
    assert IsListing(keys, PendingKeys(w.journal));
    ListingSize(keys, PendingKeys(w.journal));
    assert ReconcilePass(k, input, w).world == w && Since(w, w) == [];
    if input.pendingReads && input.listed.Got? {
      SweepUnmoved(k, input.env, input.epoch, w, Opening(ReconcilePass(k, input, w)), input.listed.value);
    }
  }
}
