/**
 `Keeper::reconcile` and `Keeper::run` as the source writes them: loops that update
 report counters, the spent budget, the journal rows and the venue's holdings in
 place. Each is proved to leave exactly the world, status and report of KeeperSpec.
 */
module KeeperCode {
  import opened Prelude
  import opened KeeperModel
  import opened KeeperSpec

  /** The journal rows, the venue behind the transport, and the trail of what was done to them. */
  class Host {
    var journal: Journal
    var held: multiset<Bytes>
    var log: seq<Event>

    constructor ()
      ensures State() == World(map[], multiset{}, [])
    {
      journal, held, log := map[], multiset{}, [];
    }

    function State(): World
      reads this
    {
      World(journal, held, log)
    }

    /** One store write: it lands, faults, or traps the tick. */
    method Put(env: Env, op: Op) returns (landing: Landing)
      modifies this
      ensures landing == LandingAt(env, old(State()))
      ensures State() == Write(env, old(State()), op)
    {
      landing := env.write(|log|);
      if landing.Landed? {
        match op
        case Reserve(key, body) => journal := journal[key := Reserved(body, 0)];
        case Commit(key) => journal := journal[key := Committed];
        case Release(key) => journal := journal - {key};
        case Park(key, body, until) => journal := journal[key := Reserved(body, until)];
        case _ =>
      }
      log := log + [Wrote(op, landing)];
    }

    /** One POST: the venue may take the body, and the answer may be lost. */
    method Submit(env: Env, key: Key, body: Bytes, epoch: U64, initial: bool) returns (reply: Reply)
      modifies this
      ensures reply == ReplyAt(env, old(State()), initial, body)
      ensures State() == Post(env, old(State()), key, body, epoch, initial)
    {
      reply := env.reply(|log|, initial, body in held, body);
      if reply.took {
        held := held + multiset{body};
      }
      log := log + [Posted(key, body, epoch, initial, reply)];
    }

    /** `Journal::pending`: every RESERVED row, once. */
    method Pending(env: Env) returns (rs: seq<Reservation>)
      requires ListsPending(env)
      ensures IsListing(env.listing(journal), PendingKeys(journal))
      ensures rs == Snapshot(journal, env.listing(journal))
    {
      var keys := env.listing(journal);
      assert IsListing(keys, PendingKeys(journal));
      rs := Snapshot(journal, keys);
    }
  }

  class Keeper {
    const config: Config

    constructor (config: Config)
      ensures this.config == config
    {
      this.config := config;
    }

    method Reconcile(host: Host, input: RunInput) returns (status: Status, spent: nat, report: ReconcileReport)
      requires ListsPending(input.env)
      modifies host
      ensures Recon(status, host.State(), spent, report) == ReconcilePass(config, input, old(host.State()))
    {
      hide Resolve;
      spent, report := 0, EMPTY_RECONCILE;
      if !input.pendingReads { return Failed, spent, report; }
      var env, epoch := input.env, input.epoch;
      var rs := host.Pending(env);
      ghost var goal := ReconcilePass(config, input, old(host.State()));
      var i := 0;
      while i < |rs|
        invariant 0 <= i <= |rs|
        invariant ReconcileAll(config, env, epoch, Recon(Running, host.State(), spent, report), rs[i..]) == goal
      {
        var r := rs[i];
        ghost var before := Recon(Running, host.State(), spent, report);
        ghost var next := ReconcileStep(config, env, epoch, before, r);
        assert rs[i..][0] == r && rs[i..][1..] == rs[i + 1..];
        assert ReconcileAll(config, env, epoch, next, rs[i + 1..]) == goal;
        i := i + 1;
        if r.nextEligible > epoch {
          report := report.(gated := report.gated + 1);
          continue;
        }
        if spent >= config.budget {
          return Spent, spent, report;
        }
        spent := spent + 1;
        var reply := host.Submit(env, r.key, r.body, epoch, false);
        status, report := ResolveAnswer(host, env, epoch, reply, r, spent, report);
        assert Recon(status, host.State(), spent, report) == next;
        if !status.Running? {
          return;
        }
      }
      status := Running;
    }

    /** The answer's arm: commit, release, park, or leave the marker. */
    method ResolveAnswer(host: Host, env: Env, epoch: U64, reply: Reply, r: Reservation, ghost spent: nat, before: ReconcileReport)
      returns (status: Status, report: ReconcileReport)
      modifies host
      ensures Recon(status, host.State(), spent, report)
           == Resolve(config, env, epoch, reply, r, Recon(Running, old(host.State()), spent, before))
    {
      report := before;
      match reply {
        case Lost(_) => return Cut, report;
        case Answer(Accepted(_), _) =>
          var landing := host.Put(env, Commit(r.key));
          status := Stopped(landing);
          if status.Running? { report := report.(committed := report.committed + 1); }
        case Answer(RequiresSigning(tx), _) =>
          var landing := host.Put(env, Release(r.key));
          status := Stopped(landing);
          if status.Running? { report := report.(unsigned := report.unsigned + [tx]); }
        case Answer(Refused(fault), _) =>
          if config.Terminal(fault) {
            var landing := host.Put(env, Release(r.key));
            status := Stopped(landing);
            if status.Running? { report := report.(released := report.released + 1); }
          } else if fault.RateLimited? && fault.retryAfterMs.Some? {
            var until := SaturatingAdd(epoch, DivCeil(fault.retryAfterMs.value, 1000));
            var landing := host.Put(env, Park(r.key, r.body, until));
            status := Stopped(landing);
            if status.Running? { report := report.(pending := report.pending + 1); }
          } else {
            status := Running;
            report := report.(pending := report.pending + 1);
          }
      }
    }

    method Run(host: Host, input: RunInput) returns (status: Status, report: RunReport)
      requires ListsPending(input.env)
      modifies host
      ensures Sweep(status, host.State(), report) == RunOnce(config, input, old(host.State()))
    {
      hide Offer, Settle, Retry;
      var rec, spent, tally := Reconcile(host, input);
      report := RunReport(0, 0, 0, 0, 0, 0, 0, tally, tally.unsigned);
      if rec.Failed? || rec.Cut? { return rec, report; }
      if input.listed.ReadFault? { return Failed, report; }
      var env, epoch, vs := input.env, input.epoch, input.listed.value;
      ghost var goal := RunOnce(config, input, old(host.State()));
      var i := 0;
      while i < |vs|
        invariant 0 <= i <= |vs|
        invariant VisitAll(config, env, epoch, Sweep(Running, host.State(), report), vs[i..]) == goal
      {
        var v := vs[i];
        ghost var next := VisitStep(config, env, epoch, Sweep(Running, host.State(), report), v);
        assert vs[i..][0] == v && vs[i..][1..] == vs[i + 1..];
        assert VisitAll(config, env, epoch, next, vs[i + 1..]) == goal;
        i := i + 1;
        if !v.wellFormed {
          report := report.(skipped := report.skipped + 1);
          continue;
        }
        if v.ready.ReadFault? { return Failed, report; }
        if !v.ready.value {
          report := report.(gated := report.gated + 1);
          continue;
        }
        if v.present.ReadFault? { return Failed, report; }
        if !v.present.value {
          report := report.(skipped := report.skipped + 1);
          continue;
        }
        report := report.(polled := report.polled + 1);
        match v.poll {
          case Submit(body) => status, report := OfferBody(host, env, epoch, v, body, report);
          case WaitBlock => status, report := RetryWith(host, env, v, TryNextBlock, report);
          case BackoffFor(seconds) => status, report := RetryWith(host, env, v, Backoff(seconds), report);
          case DropIt => status, report := RetryWith(host, env, v, Drop, report);
        }
        assert Sweep(status, host.State(), report) == next;
        if !status.Running? {
          return;
        }
      }
      status := Running;
    }

    /** The submit arm: skip a marked key, else reserve before the venue call. */
    method OfferBody(host: Host, env: Env, epoch: U64, v: Visit, body: Bytes, before: RunReport)
      returns (status: Status, report: RunReport)
      modifies host
      ensures Sweep(status, host.State(), report)
           == Offer(config, env, epoch, Sweep(Running, old(host.State()), before), v, body)
    {
      report := before;
      var key := config.KeyFor(body);
      if !v.markReads { return Failed, report; }
      if key in host.journal {
        if host.journal[key].Committed? {
          report := report.(duplicates := report.duplicates + 1);
        } else {
          report := report.(retried := report.retried + 1);
        }
        return Running, report;
      }
      var landing := host.Put(env, Reserve(key, body));
      if !landing.Landed? { return Stopped(landing), report; }
      var reply := host.Submit(env, key, body, epoch, true);
      status, report := SettleAnswer(host, env, v, key, reply, report);
    }

    method SettleAnswer(host: Host, env: Env, v: Visit, key: Key, reply: Reply, before: RunReport)
      returns (status: Status, report: RunReport)
      modifies host
      ensures Sweep(status, host.State(), report)
           == Settle(config, env, v, key, reply, Sweep(Running, old(host.State()), before))
    {
      report := before;
      match reply {
        case Lost(_) => status := Cut;
        case Answer(Accepted(_), _) =>
          var landing := host.Put(env, Commit(key));
          if landing.Trapped? { return Cut, report; }
          landing := host.Put(env, ClearRefusal);
          if landing.Trapped? { return Cut, report; }
          status := Running;
          report := report.(submitted := report.submitted + 1);
        case Answer(RequiresSigning(tx), _) =>
          var landing := host.Put(env, Release(key));
          status := Stopped(landing);
          if status.Running? { report := report.(unsigned := report.unsigned + [tx]); }
        case Answer(Refused(fault), _) =>
          var landing := host.Put(env, Release(key));
          if !landing.Landed? { return Stopped(landing), report; }
          status, report := RetryWith(host, env, v, config.policy(fault), report);
      }
    }

    method RetryWith(host: Host, env: Env, v: Visit, action: RetryAction, before: RunReport)
      returns (status: Status, report: RunReport)
      modifies host
      ensures Sweep(status, host.State(), report)
           == Retry(env, Sweep(Running, old(host.State()), before), v, action)
    {
      report := before;
      var landing := host.Put(env, ApplyRetry(action));
      if !landing.Landed? { return Stopped(landing), report; }
      var stays := match v.stillThere case Got(there) => there case ReadFault => !action.Drop?;
      if stays {
        report := report.(retried := report.retried + 1);
      } else {
        report := report.(dropped := report.dropped + 1);
      }
      status := Running;
    }
  }
}
