/**
 The keeper run as functions of the world and the environment. `Keeper.Reconcile`
 and `Keeper.Run` (KeeperCode.dfy) are proved to compute exactly these.
 */
module KeeperSpec {
  import opened Prelude
  import opened KeeperModel

  /** Running: the loop goes on. Spent: the budget break. Failed/Cut: the run is over. */
  datatype Status = Running | Spent | Failed | Cut

  function Stopped(landing: Landing): Status {
    match landing
    case Landed => Running
    case Faulted => Failed
    case Trapped => Cut
  }

  // --- The reconcile pass ---

  datatype Recon = Recon(status: Status, world: World, spent: nat, report: ReconcileReport)

  /** A write followed by `?`: on a fault the pass is over. */
  function ReconWrite(env: Env, a: Recon, op: Op, then_: ReconcileReport): Recon {
    var s := Stopped(LandingAt(env, a.world));
    Recon(s, Write(env, a.world, op), a.spent, if s.Running? then then_ else a.report)
  }

  /** One reservation of the pending snapshot, as read when the pass began. */
  datatype Reservation = Reservation(key: Key, body: Bytes, nextEligible: U64)

  function ReconcileStep(k: Config, env: Env, epoch: U64, a: Recon, r: Reservation): Recon
    requires a.status.Running?
  {
    if r.nextEligible > epoch then
      a.(report := a.report.(gated := a.report.gated + 1))
    else if a.spent >= k.budget then
      a.(status := Spent)
    else
      Resolve(k, env, epoch, ReplyAt(env, a.world, false, r.body), r,
              a.(world := Post(env, a.world, r.key, r.body, epoch, false), spent := a.spent + 1))
  }

  function Resolve(k: Config, env: Env, epoch: U64, reply: Reply, r: Reservation, a: Recon): Recon
    requires a.status.Running?
  {
    match reply
    case Lost(_) => a.(status := Cut)
    case Answer(Accepted(_), _) =>
      ReconWrite(env, a, Commit(r.key), a.report.(committed := a.report.committed + 1))
    case Answer(RequiresSigning(tx), _) =>
      ReconWrite(env, a, Release(r.key), a.report.(unsigned := a.report.unsigned + [tx]))
    case Answer(Refused(fault), _) =>
      if k.Terminal(fault) then
        ReconWrite(env, a, Release(r.key), a.report.(released := a.report.released + 1))
      else if fault.RateLimited? && fault.retryAfterMs.Some? then
        ReconWrite(env, a, Park(r.key, r.body, ParkUntil(epoch, fault.retryAfterMs.value)),
                   a.report.(pending := a.report.pending + 1))
      else
        a.(report := a.report.(pending := a.report.pending + 1))
  }

  function ParkUntil(epoch: U64, ms: U64): U64 { SaturatingAdd(epoch, DivCeil(ms, 1000)) }

  function ReconcileAll(k: Config, env: Env, epoch: U64, a: Recon, rs: seq<Reservation>): Recon
    decreases |rs|
  {
    if rs == [] || !a.status.Running? then a
    else ReconcileAll(k, env, epoch, ReconcileStep(k, env, epoch, a, rs[0]), rs[1..])
  }

  function Snapshot(j: Journal, keys: seq<Key>): (rs: seq<Reservation>)
    requires forall key :: key in keys ==> key in j && j[key].Reserved?
    ensures |rs| == |keys|
    ensures forall i :: 0 <= i < |keys| ==>
      rs[i] == Reservation(keys[i], j[keys[i]].body, j[keys[i]].nextEligible)
  {
    seq(|keys|, i requires 0 <= i < |keys| => Reservation(keys[i], j[keys[i]].body, j[keys[i]].nextEligible))
  }

  ghost function ReconcilePass(k: Config, input: RunInput, w: World): Recon
    requires ListsPending(input.env)
  {
    var start := Recon(Running, w, 0, EMPTY_RECONCILE);
    if !input.pendingReads then start.(status := Failed)
    else
      assert IsListing(input.env.listing(w.journal), PendingKeys(w.journal));
      ReconcileAll(k, input.env, input.epoch, start, Snapshot(w.journal, input.env.listing(w.journal)))
  }

  // --- The fresh-commitment loop ---

  datatype Sweep = Sweep(status: Status, world: World, report: RunReport)

  function SweepWrite(env: Env, a: Sweep, op: Op): Sweep {
    Sweep(Stopped(LandingAt(env, a.world)), Write(env, a.world, op), a.report)
  }

  function VisitStep(k: Config, env: Env, epoch: U64, a: Sweep, v: Visit): Sweep
    requires a.status.Running?
  {
    var report := a.report;
    if !v.wellFormed then a.(report := report.(skipped := report.skipped + 1))
    else if v.ready.ReadFault? then a.(status := Failed)
    else if !v.ready.value then a.(report := report.(gated := report.gated + 1))
    else if v.present.ReadFault? then a.(status := Failed)
    else if !v.present.value then a.(report := report.(skipped := report.skipped + 1))
    else
      var polled := a.(report := report.(polled := report.polled + 1));
      match v.poll
      case Submit(body) => Offer(k, env, epoch, polled, v, body)
      case WaitBlock => Retry(env, polled, v, TryNextBlock)
      case BackoffFor(seconds) => Retry(env, polled, v, Backoff(seconds))
      case DropIt => Retry(env, polled, v, Drop)
  }

  function Retry(env: Env, a: Sweep, v: Visit, action: RetryAction): Sweep {
    var b := SweepWrite(env, a, ApplyRetry(action));
    var stays := if v.stillThere.Got? then v.stillThere.value else !action.Drop?;
    if !b.status.Running? then b
    else if stays then b.(report := b.report.(retried := b.report.retried + 1))
    else b.(report := b.report.(dropped := b.report.dropped + 1))
  }

  function Offer(k: Config, env: Env, epoch: U64, a: Sweep, v: Visit, body: Bytes): Sweep {
    var key := k.KeyFor(body);
    if !v.markReads then a.(status := Failed)
    else if key in a.world.journal && a.world.journal[key].Committed? then
      a.(report := a.report.(duplicates := a.report.duplicates + 1))
    else if key in a.world.journal then
      a.(report := a.report.(retried := a.report.retried + 1))
    else
      var reserved := SweepWrite(env, a, Reserve(key, body));
      if !reserved.status.Running? then reserved
      else
        Settle(k, env, v, key, ReplyAt(env, reserved.world, true, body),
               reserved.(world := Post(env, reserved.world, key, body, epoch, true)))
  }

  function Settle(k: Config, env: Env, v: Visit, key: Key, reply: Reply, a: Sweep): Sweep {
    match reply
    case Lost(_) => a.(status := Cut)
    case Answer(Accepted(_), _) =>
      // The commit and the marker clear are best-effort: only a trap stops the run.
      var committed := SweepWrite(env, a, Commit(key));
      if committed.status.Cut? then committed
      else
        var cleared := SweepWrite(env, committed, ClearRefusal);
        if cleared.status.Cut? then cleared
        else cleared.(status := Running, report := cleared.report.(submitted := cleared.report.submitted + 1))
    case Answer(RequiresSigning(tx), _) =>
      var released := SweepWrite(env, a, Release(key));
      if !released.status.Running? then released
      else released.(report := released.report.(unsigned := released.report.unsigned + [tx]))
    case Answer(Refused(fault), _) =>
      var released := SweepWrite(env, a, Release(key));
      if !released.status.Running? then released
      else Retry(env, released, v, k.policy(fault))
  }

  function VisitAll(k: Config, env: Env, epoch: U64, a: Sweep, vs: seq<Visit>): Sweep
    decreases |vs|
  {
    if vs == [] || !a.status.Running? then a
    else VisitAll(k, env, epoch, VisitStep(k, env, epoch, a, vs[0]), vs[1..])
  }

  // --- A whole run, and a history of runs ---

  function Opening(rec: Recon): Sweep {
    Sweep(Running, rec.world, RunReport(0, 0, 0, 0, 0, 0, 0, rec.report, rec.report.unsigned))
  }

  ghost function RunOnce(k: Config, input: RunInput, w: World): Sweep
    requires ListsPending(input.env)
  {
    var rec := ReconcilePass(k, input, w);
    var start := Opening(rec);
    if rec.status.Failed? || rec.status.Cut? then start.(status := rec.status)
    else if input.listed.ReadFault? then start.(status := Failed)
    else VisitAll(k, input.env, input.epoch, start, input.listed.value)
  }

  ghost function History(k: Config, w: World, runs: seq<RunInput>): World
    requires forall r :: r in runs ==> ListsPending(r.env)
  {
    if runs == [] then w
    else RunOnce(k, runs[|runs| - 1], History(k, w, runs[..|runs| - 1])).world
  }
}
