/**
 What one visit of the fresh loop leaves behind: which events on the trail, in which
 order, which bucket of the report, and how it ends. And what a whole run amounts to:
 its visits in turn, each counted by what it showed.
 */
module KeeperVisits {
  import opened Prelude
  import opened KeeperModel
  import opened KeeperSpec
  import opened JournalProtocol
  import opened KeeperRefinement
  import opened KeeperRecovery
  import opened KeeperReports

  // --- What a visit shows ---

  /** The commitment is well formed, ready and there: it is polled. */
  predicate Reaches(v: Visit) { v.wellFormed && v.ready == Got(true) && v.present == Got(true) }

  /** What a poll that offers no body calls for. */
  predicate Calls(poll: Poll, action: RetryAction) {
    match poll
    case Submit(_) => false
    case WaitBlock => action == TryNextBlock
    case BackoffFor(seconds) => action == Backoff(seconds)
    case DropIt => action == Drop
  }

  predicate IsWrite(es: seq<Event>, i: nat, op: Op) { i < |es| && es[i].Wrote? && es[i].op == op }

  /** The trail of one visit, from the world `w`. */
  predicate Shows(k: Config, epoch: U64, v: Visit, w: World, es: seq<Event>) {
    if !Reaches(v) then es == []
    else if !v.poll.Submit? then |es| == 1 && es[0].Wrote? && es[0].op.ApplyRetry? && Calls(v.poll, es[0].op.action)
    else if !v.markReads || k.KeyFor(v.poll.body) in w.journal then es == []
    else ShowsOffer(k, epoch, v.poll.body, es)
  }

  /** The trail of an offered body with no marker: reserve, POST, and what its answer calls for; the
      trail stops where a write does not land or the answer is lost, save for the commit. */
  predicate ShowsOffer(k: Config, epoch: U64, body: Bytes, es: seq<Event>) {
    var key := k.KeyFor(body);
    && IsWrite(es, 0, Reserve(key, body))
    && if !es[0].landing.Landed? then |es| == 1
       else
         && |es| >= 2 && es[1].Posted? && es[1] == Posted(key, body, epoch, true, es[1].reply)
         && match es[1].reply
            case Lost(_) => |es| == 2
            case Answer(Accepted(_), _) =>
              && IsWrite(es, 2, Commit(key))
              && if es[2].landing.Trapped? then |es| == 3 else IsWrite(es, 3, ClearRefusal) && |es| == 4
            case Answer(RequiresSigning(_), _) => IsWrite(es, 2, Release(key)) && |es| == 3
            case Answer(Refused(fault), _) =>
              && IsWrite(es, 2, Release(key))
              && if es[2].landing.Landed? then IsWrite(es, 3, ApplyRetry(k.policy(fault))) && |es| == 4 else |es| == 3
  }

  // --- How it is counted, and how it ends ---

  datatype Bucket = Skipped | Gated | Duplicate | Retried | Submitted | Unsigned(tx: Tx) | Dropped

  /** A retry action was applied, and then the row was gone, or unread after a drop. */
  predicate LeftTheSet(v: Visit, es: seq<Event>) {
    v.stillThere == Got(false) || (v.stillThere.ReadFault? && es != [] && IsWrite(es, |es| - 1, ApplyRetry(Drop)))
  }

  function BucketOf(k: Config, v: Visit, w: World, es: seq<Event>): Bucket {
    if !v.wellFormed || (v.ready != Got(false) && v.present == Got(false)) then Skipped
    else if v.ready == Got(false) then Gated
    else if v.poll.Submit? && k.KeyFor(v.poll.body) in w.journal then
      if w.journal[k.KeyFor(v.poll.body)].Committed? then Duplicate else Retried
    else if |es| >= 2 && es[1].Posted? && es[1].reply.Answer? && es[1].reply.outcome.Accepted? then Submitted
    else if |es| >= 2 && es[1].Posted? && es[1].reply.Answer? && es[1].reply.outcome.RequiresSigning? then
      Unsigned(es[1].reply.outcome.tx)
    else if LeftTheSet(v, es) then Dropped
    else Retried
  }

  /** One more in its bucket, and one more polled unless it was skipped or gated. */
  function Counted1(r: RunReport, b: Bucket): RunReport {
    match b
    case Skipped => r.(skipped := r.skipped + 1)
    case Gated => r.(gated := r.gated + 1)
    case Duplicate => r.(polled := r.polled + 1, duplicates := r.duplicates + 1)
    case Retried => r.(polled := r.polled + 1, retried := r.retried + 1)
    case Submitted => r.(polled := r.polled + 1, submitted := r.submitted + 1)
    case Unsigned(tx) => r.(polled := r.polled + 1, unsigned := r.unsigned + [tx])
    case Dropped => r.(polled := r.polled + 1, dropped := r.dropped + 1)
  }

  /** A read the visit needs faulted. */
  predicate ReadFails(v: Visit) {
    v.wellFormed && (v.ready.ReadFault? || (v.ready.value && (v.present.ReadFault?
      || (v.present.value && v.poll.Submit? && !v.markReads))))
  }

  /** The last event was cut off: a trapped write, or a POST whose answer was lost. */
  predicate EndsCut(es: seq<Event>) {
    es != [] && var e := es[|es| - 1]; if e.Wrote? then e.landing.Trapped? else e.reply.Lost?
  }

  /** The last event was a write that faulted, other than the best-effort marker clear. */
  predicate EndsFaulted(es: seq<Event>) {
    es != [] && var e := es[|es| - 1]; e.Wrote? && e.landing.Faulted? && e.op != ClearRefusal
  }

  function StatusOf(v: Visit, es: seq<Event>): Status {
    if EndsCut(es) then Cut else if ReadFails(v) || EndsFaulted(es) then Failed else Running
  }

  /** From `w` to `w'` exactly the events `es` happened. */
  ghost predicate Did(w: World, w': World, es: seq<Event>) {
    |w.log| <= |w'.log| && Since(w, w') == es && w' == Replay(w, es)
  }

  /** One visit, seen from outside: its trail and its effect, its end, and its place in the report. */
  ghost predicate VisitLaw(k: Config, epoch: U64, v: Visit, a: Sweep, b: Sweep) {
    var es := Since(a.world, b.world);
    && Did(a.world, b.world, es)
    && Shows(k, epoch, v, a.world, es)
    && b.status == StatusOf(v, es)
    && (b.status.Running? ==> b.report == Counted1(a.report, BucketOf(k, v, a.world, es)))
  }

  lemma DidNothing(w: World)
    ensures Did(w, w, [])
  {
  }

  lemma DidMore(w: World, w': World, es: seq<Event>, e: Event)
    requires Did(w, w', es)
    ensures Did(w, After(w', e), es + [e])
  {
    var more := es + [e];
    assert Since(w, After(w', e)) == more;
    assert more[..|more| - 1] == es;
  }

  lemma RetryShows(env: Env, a: Sweep, v: Visit, action: RetryAction, w: World, es: seq<Event>)
    requires Did(w, a.world, es)
    ensures var b, e := Retry(env, a, v, action), Wrote(ApplyRetry(action), LandingAt(env, a.world));
      && Did(w, b.world, es + [e]) && b.status == Stopped(e.landing)
      && (b.status.Running? && LeftTheSet(v, es + [e]) ==> b.report == a.report.(dropped := a.report.dropped + 1))
      && (b.status.Running? && !LeftTheSet(v, es + [e]) ==> b.report == a.report.(retried := a.report.retried + 1))
  {
    hide Did;
    DidMore(w, a.world, es, Wrote(ApplyRetry(action), LandingAt(env, a.world)));
  }

  /** A first POST of `body` has just been made: `es` is the trail of the visit so far, and `r` the
      report before it was polled. */
  ghost predicate JustPosted(k: Config, epoch: U64, a: Sweep, v: Visit, body: Bytes, w: World, es: seq<Event>, r: RunReport) {
    && a.status.Running? && Did(w, a.world, es)
    && Reaches(v) && v.poll == Submit(body) && v.markReads && k.KeyFor(body) !in w.journal
    && |es| == 2 && es[0] == Wrote(Reserve(k.KeyFor(body), body), Landed)
    && es[1].Posted? && es[1] == Posted(k.KeyFor(body), body, epoch, true, es[1].reply)
    && a.report == r.(polled := r.polled + 1)
  }

  /** The visit that ends in `b` is lawful. */
  ghost predicate EndsLawfully(k: Config, epoch: U64, v: Visit, w: World, r: RunReport, b: Sweep) {
    var all := Since(w, b.world);
    && Did(w, b.world, all) && Shows(k, epoch, v, w, all) && b.status == StatusOf(v, all)
    && (b.status.Running? ==> b.report == Counted1(r, BucketOf(k, v, w, all)))
  }

  /** The trail of an accepted first submission, cut at its commit `e` or going on to the clear `last`. */
  lemma AcceptedTrail(k: Config, epoch: U64, a: Sweep, v: Visit, body: Bytes, w: World, es: seq<Event>, r: RunReport, e: Event, last: Event)
    requires JustPosted(k, epoch, a, v, body, w, es, r) && es[1].reply.Answer? && es[1].reply.outcome.Accepted?
    requires e.Wrote? && e.op == Commit(k.KeyFor(body)) && last.Wrote? && last.op == ClearRefusal
    ensures e.landing.Trapped? ==> Shows(k, epoch, v, w, es + [e]) && StatusOf(v, es + [e]) == Cut
    ensures !e.landing.Trapped? ==>
      && Shows(k, epoch, v, w, es + [e] + [last]) && BucketOf(k, v, w, es + [e] + [last]) == Submitted
      && StatusOf(v, es + [e] + [last]) == if last.landing.Trapped? then Cut else Running
  {
    hide Did;
    assert |es + [e]| == 3 && (es + [e])[0] == es[0] && (es + [e])[1] == es[1] && (es + [e])[2] == e;
    var all := es + [e] + [last];
    assert |all| == 4 && all[0] == es[0] && all[1] == es[1] && all[2] == e && all[3] == last;
  }

  lemma AcceptanceShows(k: Config, env: Env, epoch: U64, a: Sweep, v: Visit, body: Bytes, w: World, es: seq<Event>, r: RunReport)
    requires JustPosted(k, epoch, a, v, body, w, es, r) && es[1].reply.Answer? && es[1].reply.outcome.Accepted?
    ensures EndsLawfully(k, epoch, v, w, r, Settle(k, env, v, k.KeyFor(body), es[1].reply, a))
  {
    hide Did, Shows, BucketOf, StatusOf;
    var op := Commit(k.KeyFor(body));
    var e, settled := Wrote(op, LandingAt(env, a.world)), SweepWrite(env, a, op);
    var last := Wrote(ClearRefusal, LandingAt(env, settled.world));
    AcceptedTrail(k, epoch, a, v, body, w, es, r, e, last);
    DidMore(w, a.world, es, e);
    SinceIs(w, settled.world, es + [e]);
    DidMore(w, settled.world, es + [e], last);
    SinceIs(w, After(settled.world, last), es + [e] + [last]);
  }

  lemma SigningShows(k: Config, env: Env, epoch: U64, a: Sweep, v: Visit, body: Bytes, w: World, es: seq<Event>, r: RunReport)
    requires JustPosted(k, epoch, a, v, body, w, es, r)
    requires es[1].reply.Answer? ==> es[1].reply.outcome.RequiresSigning?
    ensures EndsLawfully(k, epoch, v, w, r, Settle(k, env, v, k.KeyFor(body), es[1].reply, a))
  {
    hide Did;
    SinceIs(w, a.world, es);
    var e := Wrote(Release(k.KeyFor(body)), LandingAt(env, a.world));
    DidMore(w, a.world, es, e);
    SinceIs(w, After(a.world, e), es + [e]);
  }

  lemma RefusalShows(k: Config, env: Env, epoch: U64, a: Sweep, v: Visit, body: Bytes, w: World, es: seq<Event>, r: RunReport)
    requires JustPosted(k, epoch, a, v, body, w, es, r) && es[1].reply.Answer? && es[1].reply.outcome.Refused?
    ensures EndsLawfully(k, epoch, v, w, r, Settle(k, env, v, k.KeyFor(body), es[1].reply, a))
  {
    hide Did, Retry;
    var action := k.policy(es[1].reply.outcome.fault);
    var e := Wrote(Release(k.KeyFor(body)), LandingAt(env, a.world));
    var released := SweepWrite(env, a, e.op);
    DidMore(w, a.world, es, e);
    SinceIs(w, released.world, es + [e]);
    if released.status.Running? {
      RetryShows(env, released, v, action, w, es + [e]);
      var last := Wrote(ApplyRetry(action), LandingAt(env, released.world));
      var all := es + [e] + [last];
      SinceIs(w, Retry(env, released, v, action).world, all);
      assert |all| == 4 && all[0] == es[0] && all[1] == es[1] && all[2] == e && all[3] == last;
    }
  }

  lemma SinceIs(w: World, w': World, es: seq<Event>)
    requires Did(w, w', es)
    ensures Since(w, w') == es
  {
  }

  lemma OfferShows(k: Config, env: Env, epoch: U64, a: Sweep, v: Visit, body: Bytes, r: RunReport)
    requires a.status.Running? && Reaches(v) && v.poll == Submit(body)
    requires a.report == r.(polled := r.polled + 1)
    ensures VisitLaw(k, epoch, v, a.(report := r), Offer(k, env, epoch, a, v, body))
  {
    hide Did, Settle;
    var w, key := a.world, k.KeyFor(body);
    DidNothing(w);
    SinceIs(w, w, []);
    if v.markReads && key !in w.journal {
      var e := Wrote(Reserve(key, body), LandingAt(env, w));
      var reserved := SweepWrite(env, a, Reserve(key, body));
      DidMore(w, w, [], e);
      assert [] + [e] == [e];
      SinceIs(w, reserved.world, [e]);
      if e.landing.Landed? {
        var post := Posted(key, body, epoch, true, ReplyAt(env, reserved.world, true, body));
        DidMore(w, reserved.world, [e], post);
        var posted := reserved.(world := After(reserved.world, post));
        if !post.reply.Answer? || post.reply.outcome.RequiresSigning? {
          SigningShows(k, env, epoch, posted, v, body, w, [e] + [post], r);
        } else if post.reply.outcome.Accepted? {
          AcceptanceShows(k, env, epoch, posted, v, body, w, [e] + [post], r);
        } else {
          RefusalShows(k, env, epoch, posted, v, body, w, [e] + [post], r);
        }
      }
    }
  }

  /** Every visit obeys the law, whatever the environment does. */
  lemma VisitShows(k: Config, env: Env, epoch: U64, a: Sweep, v: Visit)
    requires a.status.Running?
    ensures VisitLaw(k, epoch, v, a, VisitStep(k, env, epoch, a, v))
  {
    hide Did, Offer, Retry, Shows, BucketOf, StatusOf;
    var polled := a.(report := a.report.(polled := a.report.polled + 1));
    if Reaches(v) && v.poll.Submit? {
      OfferShows(k, env, epoch, polled, v, v.poll.body, a.report);
      assert a.(report := a.report) == a;
    } else {
      QuietVisitShows(k, env, epoch, a, v);
    }
  }

  lemma QuietVisitShows(k: Config, env: Env, epoch: U64, a: Sweep, v: Visit)
    requires a.status.Running? && !(Reaches(v) && v.poll.Submit?)
    ensures VisitLaw(k, epoch, v, a, VisitStep(k, env, epoch, a, v))
  {
    hide Did, Offer, Retry;
    var w := a.world;
    DidNothing(w);
    SinceIs(w, w, []);
    if Reaches(v) {
      var action := match v.poll case BackoffFor(seconds) => Backoff(seconds) case DropIt => Drop case _ => TryNextBlock;
      var polled := a.(report := a.report.(polled := a.report.polled + 1));
      RetryShows(env, polled, v, action, w, []);
      var e := Wrote(ApplyRetry(action), LandingAt(env, w));
      assert [] + [e] == [e];
      SinceIs(w, Retry(env, polled, v, action).world, [e]);
    }
  }
}
