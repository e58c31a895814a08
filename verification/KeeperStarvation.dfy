/**
 Two ways of skipping a reservation for ever. At a venue that answers resubmissions with
 transient faults every run retries the same first `budget` of the ripe reservations;
 when every tick is cut off at its first POST, only the very first is ever retried.
 */
module KeeperStarvation {
  import opened Prelude
  import opened KeeperModel
  import opened KeeperSpec
  import opened JournalProtocol
  import opened KeeperRefinement
  import opened KeeperRecovery
  import opened KeeperRetries

  // --- A venue that stalls ---

  /** Every resubmission is refused with a fault that is neither terminal nor carries a hint; what is
      answered to a first submission is not restricted, nor is what the venue takes. */
  ghost predicate Stalls(k: Config, env: Env) {
    forall n: nat, holds: bool, body: Bytes {:trigger env.reply(n, false, holds, body)} ::
      var reply := env.reply(n, false, holds, body);
      reply.Answer? && Transient(k, reply.outcome) && !Hinted(reply.outcome.fault)
  }

  /** A stalled pass writes nothing, so nothing ends it early. */
  lemma {:induction false} AllStalls(k: Config, env: Env, epoch: U64, a: Recon, rs: seq<Reservation>)
    requires Stalls(k, env) && a.status.Running?
    ensures var b := ReconcileAll(k, env, epoch, a, rs); Ended(b) && b.world.journal == a.world.journal
    decreases |rs|
  {
    if rs != [] {
      assert env.reply(|a.world.log|, false, rs[0].body in a.world.held, rs[0].body).Answer?;
      var b := ReconcileStep(k, env, epoch, a, rs[0]);
      if b.status.Running? {
        AllStalls(k, env, epoch, b, rs[1..]);
      }
    }
  }

  lemma PassStalls(k: Config, input: RunInput, w: World)
    requires ListsPending(input.env) && input.pendingReads && Stalls(k, input.env)
    ensures var rec := ReconcilePass(k, input, w);
      Ended(rec) && rec.world.journal == w.journal && Resubmitted(Since(w, rec.world)) == Front(k, input, w)
  {
    hide Resubmitted, Since;
    PassRetries(k, input, w);
    var keys := input.env.listing(w.journal);
    assert IsListing(keys, PendingKeys(w.journal));
    AllStalls(k, input.env, input.epoch, Recon(Running, w, 0, EMPTY_RECONCILE), Snapshot(w.journal, keys));
  }

  /** Runs at a stalling venue that all find the same reservations ripe at the front of the listing. What
      they are freshly offered, what is gated, and which fresh writes and POSTs fail, is not restricted. */
  ghost predicate StalledRuns(k: Config, w: World, runs: seq<RunInput>, front: set<Key>) {
    && (forall r :: r in runs ==> ListsPending(r.env) && r.pendingReads && Stalls(k, r.env))
    && forall n :: 0 <= n < |runs| ==> Front(k, runs[n], History(k, w, runs[..n])) == front
  }

  lemma StalledPrefix(k: Config, w: World, runs: seq<RunInput>, front: set<Key>)
    requires StalledRuns(k, w, runs, front) && runs != []
    ensures var before, last := runs[..|runs| - 1], runs[|runs| - 1];
      && StalledRuns(k, w, before, front)
      && ListsPending(last.env) && last.pendingReads && Stalls(k, last.env)
      && Front(k, last, History(k, w, before)) == front
  {
    var before := runs[..|runs| - 1];
    assert forall n :: 0 <= n < |before| ==> before[n] == runs[n] && before[..n] == runs[..n];
    assert forall r :: r in before ==> r in runs;
    assert runs[|runs| - 1] in runs;
  }

  /** While the venue stalls, the reservations retried over any number of runs are exactly the front of
      the listing, and every one stays reserved as it is. */
  lemma {:induction false} TransientFaultsStarveTheRest(k: Config, w: World, runs: seq<RunInput>, front: set<Key>)
    requires StalledRuns(k, w, runs, front)
    ensures var w' := History(k, w, runs);
      && Resubmitted(Since(w, w')) == (if runs == [] then {} else front)
      && forall key :: key in w.journal ==> RowOf(w', key) == RowOf(w, key)
  {
    if runs == [] {
      assert Since(w, w) == [];
    } else {
      var before, last := runs[..|runs| - 1], runs[|runs| - 1];
      StalledPrefix(k, w, runs, front);
      TransientFaultsStarveTheRest(k, w, before, front);
      var w1 := History(k, w, before);
      HistoryRetries(k, w, before);
      TrailGrows(k, w, runs);
      PassStalls(k, last, w1);
      RunRetries(k, last, w1);
      ResubmittedSplits(w, w1, RunOnce(k, last, w1).world);
    }
  }

  /** While the venue stalls, no reservation that is ripe at the start is skipped for ever if and only if
      there are no more of them than the budget. */
  lemma NoneStarvesIff(k: Config, w: World, runs: seq<RunInput>, front: set<Key>)
    requires StalledRuns(k, w, runs, front) && runs != []
    ensures var ripe := RipeFor(runs[0], w);
      KeysOf(ripe) <= Resubmitted(Since(w, History(k, w, runs))) <==> |ripe| <= k.budget
  {
    TransientFaultsStarveTheRest(k, w, runs, front);
    assert runs[0] in runs && runs[..0] == [];
    FrontOf(runs[0], w, Min(k.budget, |RipeFor(runs[0], w)|));
  }

  // --- Ticks cut off at their first POST ---

  /** No resubmission is ever answered: the tick is cut off there. */
  ghost predicate CutsOff(env: Env) {
    forall n: nat, holds: bool, body: Bytes {:trigger env.reply(n, false, holds, body)} ::
      env.reply(n, false, holds, body).Lost?
  }

  lemma {:induction false} AllCutOff(k: Config, env: Env, epoch: U64, a: Recon, rs: seq<Reservation>)
    requires CutsOff(env) && a.status.Running? && a.spent < k.budget && Ripe(rs, epoch) != []
    ensures var b := ReconcileAll(k, env, epoch, a, rs);
      b.status.Cut? && b.spent == a.spent + 1 && b.world.journal == a.world.journal
    decreases |rs|
  {
    assert env.reply(|a.world.log|, false, rs[0].body in a.world.held, rs[0].body).Lost?;
    var b := ReconcileStep(k, env, epoch, a, rs[0]);
    if rs[0].nextEligible > epoch {
      AllCutOff(k, env, epoch, b, rs[1..]);
    }
  }

  /** Runs that are cut off at their first POST, each finding `first` the first ripe reservation. */
  ghost predicate CutOffRuns(k: Config, w: World, runs: seq<RunInput>, first: Key) {
    forall r :: r in runs ==>
      && ListsPending(r.env) && r.pendingReads && CutsOff(r.env)
      && RipeFor(r, w) != [] && RipeFor(r, w)[0].key == first
  }

  lemma RunCutOff(k: Config, input: RunInput, w: World)
    requires ListsPending(input.env) && input.pendingReads && CutsOff(input.env)
    requires RipeFor(input, w) != [] && k.budget > 0
    ensures var w' := RunOnce(k, input, w).world;
      w'.journal == w.journal && Resubmitted(Since(w, w')) == {RipeFor(input, w)[0].key}
  {
    hide Resubmitted, Since;
    PassRetries(k, input, w);
    var keys, ripe := input.env.listing(w.journal), RipeFor(input, w);
    assert IsListing(keys, PendingKeys(w.journal));
    AllCutOff(k, input.env, input.epoch, Recon(Running, w, 0, EMPTY_RECONCILE), Snapshot(w.journal, keys));
    assert ripe[..1] == [ripe[0]] && KeysOf([ripe[0]]) == {ripe[0].key};
  }

  lemma RipeOfJournal(input: RunInput, w: World, w': World)
    requires ListsPending(input.env) && w'.journal == w.journal
    ensures RipeFor(input, w') == RipeFor(input, w)
  {
  }

  /** When every tick is cut off at its first POST, only the first ripe reservation is ever retried,
      whatever the budget. */
  lemma {:induction false} CutOffTicksStarveTheRest(k: Config, w: World, runs: seq<RunInput>, first: Key)
    requires CutOffRuns(k, w, runs, first) && k.budget > 0
    ensures var w' := History(k, w, runs);
      w'.journal == w.journal && Resubmitted(Since(w, w')) == if runs == [] then {} else {first}
  {
    if runs == [] {
      assert Since(w, w) == [];
    } else {
      var before, last := runs[..|runs| - 1], runs[|runs| - 1];
      assert last in runs && forall r :: r in before ==> r in runs;
      CutOffTicksStarveTheRest(k, w, before, first);
      var w1 := History(k, w, before);
      hide Resubmitted, RunOnce, RipeFor;
      RipeOfJournal(last, w, w1);
      HistoryRetries(k, w, before);
      TrailGrows(k, w, runs);
      RunCutOff(k, last, w1);
      ResubmittedSplits(w, w1, RunOnce(k, last, w1).world);
    }
  }

  /** So in ticks cut off at their first POST none is skipped for ever if and only if one alone is ripe. */
  lemma NoneCutOffIff(k: Config, w: World, runs: seq<RunInput>, first: Key)
    requires CutOffRuns(k, w, runs, first) && k.budget > 0 && runs != []
    ensures var ripe := RipeFor(runs[0], w);
      KeysOf(ripe) <= Resubmitted(Since(w, History(k, w, runs))) <==> |ripe| == 1
  {
    CutOffTicksStarveTheRest(k, w, runs, first);
    var ripe := RipeFor(runs[0], w);
    assert runs[0] in runs;
    FrontOf(runs[0], w, 1);
    assert ripe[..1] == [ripe[0]] && KeysOf([ripe[0]]) == {first};
  }

  // --- Instances ---

  /** A journal holding a reservation for each of `bodies`. */
  function Stranded(k: Config, bodies: seq<Bytes>): Journal {
    if bodies == [] then map[]
    else
      var body := bodies[|bodies| - 1];
      Stranded(k, bodies[..|bodies| - 1])[k.KeyFor(body) := Reserved(body, 0)]
  }

  lemma {:induction false} StrandedKeys(k: Config, bodies: seq<Bytes>)
    requires forall i, m :: 0 <= i < m < |bodies| ==> k.KeyFor(bodies[i]) != k.KeyFor(bodies[m])
    ensures |PendingKeys(Stranded(k, bodies))| == |bodies|
    ensures forall key :: key in Stranded(k, bodies) ==> exists i :: 0 <= i < |bodies| && k.KeyFor(bodies[i]) == key
  {
    if bodies != [] {
      var n := |bodies| - 1;
      StrandedKeys(k, bodies[..n]);
      var before, key := Stranded(k, bodies[..n]), k.KeyFor(bodies[n]);
      assert key !in before;
      assert PendingKeys(Stranded(k, bodies)) == PendingKeys(before) + {key};
    }
  }

  lemma {:induction false} StrandedRows(k: Config, bodies: seq<Bytes>)
    ensures var j := Stranded(k, bodies);
      forall key :: key in j ==> j[key].Reserved? && j[key].nextEligible == 0 && k.KeyFor(j[key].body) == key
  {
    if bodies != [] {
      var n := |bodies| - 1;
      StrandedRows(k, bodies[..n]);
      assert Stranded(k, bodies) == Stranded(k, bodies[..n])[k.KeyFor(bodies[n]) := Reserved(bodies[n], 0)];
    }
  }

  lemma StrandedIsSound(k: Config, bodies: seq<Bytes>)
    ensures Sound(k, World(Stranded(k, bodies), multiset{}, [])) && NoneGated(Stranded(k, bodies), 0)
  {
    StrandedRows(k, bodies);
  }

  /** `n` runs that are offered nothing, in a store where every write lands and every POST ends in `reply`. */
  ghost function IdleRuns(n: nat, reply: Reply): (runs: seq<RunInput>)
    ensures forall r :: r in runs ==> ListsPending(r.env)
  {
    seq(n, _ => RunInput(Env(_ => Landed, (_, _, _, _) => reply, j => ListingOf(PendingKeys(j))), 0, true, Got([])))
  }

  ghost function Listed(j: Journal): seq<Reservation> { Snapshot(j, ListingOf(PendingKeys(j))) }

  lemma {:induction false} AllRipe(rs: seq<Reservation>, epoch: U64)
    requires forall r :: r in rs ==> r.nextEligible <= epoch
    ensures Ripe(rs, epoch) == rs
  {
    if rs != [] {
      AllRipe(rs[1..], epoch);
      assert rs == [rs[0]] + rs[1..];
    }
  }

  lemma IdleRipe(w: World, n: nat, reply: Reply, r: RunInput)
    requires r in IdleRuns(n, reply) && NoneGated(w.journal, 0)
    ensures RipeFor(r, w) == Listed(w.journal) && |Listed(w.journal)| == |PendingKeys(w.journal)|
  {
    SnapshotEligible(w.journal, ListingOf(PendingKeys(w.journal)), 0);
    AllRipe(Listed(w.journal), 0);
    ListingSize(ListingOf(PendingKeys(w.journal)), PendingKeys(w.journal));
  }

  const TIMED_OUT := Answer(Refused(Timeout), false)

  lemma IdleRunStalls(k: Config, n: nat, r: RunInput)
    requires k.policy == DefaultRetryAction && r in IdleRuns(n, TIMED_OUT)
    ensures ListsPending(r.env) && r.pendingReads && r.listed == Got([]) && Stalls(k, r.env)
  {
  }

  lemma IdlePrefix(n: nat, m: nat, reply: Reply)
    requires m < n
    ensures var runs := IdleRuns(n, reply);
      |runs| == n && runs[..m] == IdleRuns(m, reply) && runs[m] == runs[0] && runs[m] in runs
  {
  }

  /** Idle runs at a venue that only times out leave the journal as it is. */
  lemma {:induction false} IdleKeeps(k: Config, w: World, n: nat)
    requires k.policy == DefaultRetryAction
    ensures History(k, w, IdleRuns(n, TIMED_OUT)).journal == w.journal
  {
    if n > 0 {
      var runs := IdleRuns(n, TIMED_OUT);
      IdlePrefix(n, n - 1, TIMED_OUT);
      IdleRunStalls(k, n, runs[n - 1]);
      hide IdleRuns, Stalls, ReconcilePass;
      IdleKeeps(k, w, n - 1);
      PassStalls(k, runs[n - 1], History(k, w, runs[..n - 1]));
    }
  }

  lemma IdleRunsStall(k: Config, w: World, n: nat)
    requires k.policy == DefaultRetryAction && n > 0
    ensures var runs := IdleRuns(n, TIMED_OUT); StalledRuns(k, w, runs, Front(k, runs[0], w))
  {
    var runs := IdleRuns(n, TIMED_OUT);
    IdlePrefix(n, 0, TIMED_OUT);
    hide IdleRuns, Stalls, History, RipeFor;
    forall r | r in runs ensures r.pendingReads && Stalls(k, r.env) {
      IdleRunStalls(k, n, r);
    }
    forall m | 0 <= m < n ensures Front(k, runs[m], History(k, w, runs[..m])) == Front(k, runs[0], w) {
      IdlePrefix(n, m, TIMED_OUT);
      IdleKeeps(k, w, m);
      RipeOfJournal(runs[0], w, History(k, w, runs[..m]));
    }
  }

  /** From any ungated journal over the budget, under the default policy. */
  lemma TimeoutsStarve(k: Config, w: World, n: nat)
    requires k.policy == DefaultRetryAction && n > 0
    requires NoneGated(w.journal, 0) && |PendingKeys(w.journal)| > k.budget
    ensures var w' := History(k, w, IdleRuns(n, TIMED_OUT));
      exists key :: key in PendingKeys(w.journal) && key !in Resubmitted(Since(w, w'))
  {
    var runs := IdleRuns(n, TIMED_OUT);
    IdleRunsStall(k, w, n);
    IdleRipe(w, n, TIMED_OUT, runs[0]);
    assert KeysOf(Listed(w.journal)) <= PendingKeys(w.journal);
    hide History, IdleRuns, StalledRuns, Resubmitted, Since, RipeFor, KeysOf, Listed;
    NoneStarvesIff(k, w, runs, Front(k, runs[0], w));
  }

  /** The first way to starve: under the default policy a venue that only times out starves one of any
      budget + 1 reservations, over any number of fault-free runs. */
  lemma TimeoutStarvesAReservation(venue: string, digest: Bytes -> Digest, budget: nat, bodies: seq<Bytes>, n: nat)
    requires |bodies| == budget + 1 && n > 0
    requires forall i, m :: 0 <= i < m < |bodies| ==> digest(bodies[i]) != digest(bodies[m])
    ensures var k := Bind(venue, digest, DefaultRetryAction, budget);
      var w := World(Stranded(k, bodies), multiset{}, []); var w' := History(k, w, IdleRuns(n, TIMED_OUT));
      Sound(k, w) && exists i :: 0 <= i < |bodies| && k.KeyFor(bodies[i]) !in Resubmitted(w'.log)
  {
    var k := Bind(venue, digest, DefaultRetryAction, budget);
    var w := World(Stranded(k, bodies), multiset{}, []);
    StrandedBind(venue, digest, DefaultRetryAction, budget, bodies);
    hide SubmissionKey, History, IdleRuns, Resubmitted, Stranded, Sound, NoneGated;
    TimeoutsStarve(k, w, n);
    var w' := History(k, w, IdleRuns(n, TIMED_OUT));
    assert Since(w, w') == w'.log;
    var key :| key in PendingKeys(w.journal) && key !in Resubmitted(w'.log);
  }

  lemma StrandedBind(venue: string, digest: Bytes -> Digest, policy: VenueFault -> RetryAction, budget: nat, bodies: seq<Bytes>)
    requires forall i, m :: 0 <= i < m < |bodies| ==> digest(bodies[i]) != digest(bodies[m])
    ensures var k := Bind(venue, digest, policy, budget); var j := Stranded(k, bodies);
      && Sound(k, World(j, multiset{}, [])) && NoneGated(j, 0) && |PendingKeys(j)| == |bodies|
      && forall key :: key in j ==> exists i :: 0 <= i < |bodies| && k.KeyFor(bodies[i]) == key
  {
    var k := Bind(venue, digest, policy, budget);
    forall i, m | 0 <= i < m < |bodies| ensures k.KeyFor(bodies[i]) != k.KeyFor(bodies[m]) {
      KeysAreDigests(venue, digest, policy, budget, bodies[i], bodies[m]);
    }
    hide SubmissionKey;
    StrandedKeys(k, bodies);
    StrandedIsSound(k, bodies);
  }

  lemma CutOffsStarve(k: Config, w: World, n: nat, took: bool)
    requires k.budget > 0 && NoneGated(w.journal, 0) && |PendingKeys(w.journal)| > 1
    ensures var w' := History(k, w, IdleRuns(n, Lost(took)));
      exists key :: key in PendingKeys(w.journal) && key !in Resubmitted(Since(w, w'))
  {
    var runs := IdleRuns(n, Lost(took));
    var first := Listed(w.journal)[0].key;
    forall r | r in runs ensures RipeFor(r, w) == Listed(w.journal) {
      IdleRipe(w, n, Lost(took), r);
    }
    CutOffTicksStarveTheRest(k, w, runs, first);
    assert PendingKeys(w.journal) != {first};
  }

  /** The second: when every tick is cut off at its POST, received or not, one of two reservations well
      within the budget is never retried, over any number of runs. */
  lemma CutOffStarvesAReservation(venue: string, digest: Bytes -> Digest, policy: VenueFault -> RetryAction, budget: nat, a: Bytes, b: Bytes, n: nat, took: bool)
    requires budget >= 2 && digest(a) != digest(b)
    ensures var k := Bind(venue, digest, policy, budget);
      var w := World(Stranded(k, [a, b]), multiset{}, []); var w' := History(k, w, IdleRuns(n, Lost(took)));
      Sound(k, w) && (k.KeyFor(a) !in Resubmitted(w'.log) || k.KeyFor(b) !in Resubmitted(w'.log))
  {
    var k := Bind(venue, digest, policy, budget);
    var w := World(Stranded(k, [a, b]), multiset{}, []);
    StrandedBind(venue, digest, policy, budget, [a, b]);
    hide SubmissionKey, History, IdleRuns, Resubmitted, Stranded, Sound, NoneGated;
    CutOffsStarve(k, w, n, took);
    var w' := History(k, w, IdleRuns(n, Lost(took)));
    assert Since(w, w') == w'.log;
    var key :| key in PendingKeys(w.journal) && key !in Resubmitted(w'.log);
  }
}
