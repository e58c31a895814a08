/**
 Where write-ahead safety ends. The run's own contract says a release follows only
 a known non-accept; the code releases after every `Err`, a timeout included. So
 the exact condition is on the venue: these lemmas say, in both directions, which
 answers leave a body held at the venue with no marker in the journal.
 */
module KeeperOrphans {
  import opened Prelude
  import opened KeeperModel
  import opened KeeperSpec
  import opened JournalProtocol
  import opened KeeperRefinement
  import opened KeeperRecovery

  lemma ReleaseKeepsMarksIff(k: Config, w: World, landing: Landing, key: Key, body: Bytes)
    requires WriteAhead(k, w) && key == k.KeyFor(body)
    requires key in w.journal && w.journal[key].Reserved? && w.journal[key].body == body
    ensures WriteAhead(k, After(w, Wrote(Release(key), landing))) <==> !(landing.Landed? && body in w.held)
  {
    var w' := After(w, Wrote(Release(key), landing));
    if landing.Landed? && body in w.held {
      assert !Marked(k, w', body);
    } else {
      forall b | b in w'.held ensures Marked(k, w', b) {
        assert Marked(k, w, b);
      }
    }
  }

  /** A commit, a park or a write elsewhere, landed or not, never unmarks a body. */
  lemma KeepingWriteMarks(k: Config, w: World, op: Op, landing: Landing, body: Bytes)
    requires WriteAhead(k, w)
    requires op.Commit? || op.Outside() || (op.Park? && op.body == body && k.KeyFor(body) == op.key
      && op.key in w.journal && w.journal[op.key].Reserved? && w.journal[op.key].body == body)
    ensures WriteAhead(k, After(w, Wrote(op, landing)))
  {
  }

  /** A fresh submission keeps every held body marked unless the reservation landed, the venue took the
      body while answering anything but an acceptance, and the release landed: if and only if. */
  lemma FreshSubmissionSafeIff(k: Config, env: Env, epoch: U64, a: Sweep, v: Visit)
    requires a.status.Running? && WriteAhead(k, a.world)
    requires v.wellFormed && v.ready == Got(true) && v.present == Got(true) && v.markReads
    requires v.poll.Submit? && k.KeyFor(v.poll.body) !in a.world.journal
    ensures var n := |a.world.log|; var reply := env.reply(n + 1, true, false, v.poll.body);
      WriteAhead(k, VisitStep(k, env, epoch, a, v).world)
      <==> !(env.write(n).Landed? && reply.Answer? && !reply.outcome.Accepted? && reply.took && env.write(n + 2).Landed?)
  {
    hide Offer, Settle, WriteAhead;
    var polled := a.(report := a.report.(polled := a.report.polled + 1));
    OfferSafeIff(k, env, epoch, polled, v, v.poll.body);
  }

  lemma OfferSafeIff(k: Config, env: Env, epoch: U64, a: Sweep, v: Visit, body: Bytes)
    requires a.status.Running? && WriteAhead(k, a.world)
    requires v.markReads && k.KeyFor(body) !in a.world.journal
    ensures var n := |a.world.log|; var reply := env.reply(n + 1, true, false, body);
      WriteAhead(k, Offer(k, env, epoch, a, v, body).world)
      <==> !(env.write(n).Landed? && reply.Answer? && !reply.outcome.Accepted? && reply.took && env.write(n + 2).Landed?)
  {
    hide Settle;
    var key := k.KeyFor(body);
    assert body in a.world.held ==> Marked(k, a.world, body);
    var reserved := SweepWrite(env, a, Reserve(key, body));
    forall b | b in reserved.world.held ensures Marked(k, reserved.world, b) {
      assert Marked(k, a.world, b);
    }
    if reserved.status.Running? {
      SettleSafeIff(k, env, reserved, v, Posted(key, body, epoch, true, ReplyAt(env, reserved.world, true, body)));
    }
  }

  lemma SettleSafeIff(k: Config, env: Env, a: Sweep, v: Visit, e: Event)
    requires a.status.Running? && WriteAhead(k, a.world)
    requires e.Posted? && e.key == k.KeyFor(e.body) && RowOf(a.world, e.key) == Some(Reserved(e.body, 0))
    requires e.body !in a.world.held
    ensures WriteAhead(k, Settle(k, env, v, e.key, e.reply, a.(world := After(a.world, e))).world)
      <==> !(e.reply.Answer? && !e.reply.outcome.Accepted? && e.reply.took && env.write(|a.world.log| + 1).Landed?)
  {
    hide WriteAhead;
    var posted := After(a.world, e);
    MarkedAfterPost(k, a.world, e) by { assert Marked(k, a.world, e.body); }
    if e.reply.Answer? {
      var landing := LandingAt(env, posted);
      if e.reply.outcome.Accepted? {
        KeepingWriteMarks(k, posted, Commit(e.key), landing, e.body);
        var settled := Write(env, posted, Commit(e.key));
        KeepingWriteMarks(k, settled, ClearRefusal, LandingAt(env, settled), e.body);
      } else {
        ReleaseKeepsMarksIff(k, posted, landing, e.key, e.body);
        var released := Write(env, posted, Release(e.key));
        if e.reply.outcome.Refused? {
          OutsideKeepsMarksIff(k, released, ApplyRetry(k.policy(e.reply.outcome.fault)), LandingAt(env, released));
        }
      }
    }
  }

  lemma OutsideKeepsMarksIff(k: Config, w: World, op: Op, landing: Landing)
    requires op.Outside()
    ensures WriteAhead(k, After(w, Wrote(op, landing))) <==> WriteAhead(k, w)
  {
    assert forall body :: Marked(k, After(w, Wrote(op, landing)), body) == Marked(k, w, body);
  }

  /** A resubmission keeps every held body marked unless a release lands after an answer given for a
      body the venue holds, before or because of this POST: if and only if. */
  lemma ResubmissionSafeIff(k: Config, env: Env, epoch: U64, a: Recon, r: Reservation)
    requires a.status.Running? && WriteAhead(k, a.world)
    requires Current(a.world.journal, [r]) && k.KeyFor(r.body) == r.key
    requires r.nextEligible <= epoch && a.spent < k.budget
    ensures var n, holds := |a.world.log|, r.body in a.world.held; var reply := env.reply(n, false, holds, r.body);
      WriteAhead(k, ReconcileStep(k, env, epoch, a, r).world)
      <==> !(reply.Answer? && Releases(k, reply.outcome, false) && (holds || reply.took) && env.write(n + 1).Landed?)
  {
    assert [r][0] == r;
    var e := Posted(r.key, r.body, epoch, false, ReplyAt(env, a.world, false, r.body));
    var posted := After(a.world, e);
    var landing := LandingAt(env, posted);
    MarkedAfterPost(k, a.world, e);
    if e.reply.Answer? {
      if Releases(k, e.reply.outcome, false) {
        ReleaseKeepsMarksIff(k, posted, landing, r.key, r.body);
      } else if e.reply.outcome.Accepted? {
        KeepingWriteMarks(k, posted, Commit(r.key), landing, r.body);
      } else if Hinted(e.reply.outcome.fault) {
        var until := ParkUntil(epoch, e.reply.outcome.fault.retryAfterMs.value);
        KeepingWriteMarks(k, posted, Park(r.key, r.body, until), landing, r.body);
      }
    }
  }

  /** The concrete failure: a venue that takes the body but whose answer times out. One fault-free
      run under the default policy then leaves the body held with no marker at all. */
  lemma TimeoutOrphansAHeldBody(venue: string, digest: Bytes -> Digest, body: Bytes, listing: Journal -> seq<Key>)
    requires forall j: Journal {:trigger listing(j)} :: IsListing(listing(j), PendingKeys(j))
    ensures
      var k := Bind(venue, digest, DefaultRetryAction, 16);
      var env := Env(_ => Landed, (_, _, holds, _) => Answer(Refused(Timeout), !holds), listing);
      var visit := Visit(true, Got(true), Got(true), Submit(body), true, Got(true));
      var w := RunOnce(k, RunInput(env, 0, true, Got([visit])), World(map[], multiset{}, [])).world;
      body in w.held && k.KeyFor(body) !in w.journal
  {
    var k := Bind(venue, digest, DefaultRetryAction, 16);
    var env := Env(_ => Landed, (_, _, holds, _) => Answer(Refused(Timeout), !holds), listing);
    var visit := Visit(true, Got(true), Got(true), Submit(body), true, Got(true));
    var w := World(map[], multiset{}, []);
    var input := RunInput(env, 0, true, Got([visit]));
    ListingSize(listing(w.journal), PendingKeys(w.journal));
    var start := Opening(ReconcilePass(k, input, w));
    assert start.world == w;
    var b := VisitStep(k, env, 0, start, visit);
    assert VisitAll(k, env, 0, start, [visit]) == VisitAll(k, env, 0, b, []);
    assert body in b.world.held && k.KeyFor(body) !in b.world.journal;
  }
}
