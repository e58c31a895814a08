/**
 What follows each answer to a resubmission: which write, by the outcome and the action
 its fault calls for, and what then becomes of the reservation.
 */
module KeeperAnswers {
  import opened Prelude
  import opened KeeperModel
  import opened KeeperSpec
  import opened JournalProtocol
  import opened KeeperRefinement

  predicate NextWrites(es: seq<Event>, i: nat, op: Op) {
    i + 1 < |es| && es[i + 1].Wrote? && es[i + 1].op == op
  }

  /** The POST at `i` is a resubmission that was answered. */
  predicate Resubmission(es: seq<Event>, i: nat) {
    i < |es| && es[i].Posted? && !es[i].initial && es[i].reply.Answer?
  }

  /** The next event is a park of the reservation, for the hint in whole seconds rounded up. */
  predicate NextParks(es: seq<Event>, i: nat, ms: U64)
    requires Resubmission(es, i)
  {
    && i + 1 < |es| && es[i + 1].Wrote? && es[i + 1].op.Park?
    && es[i + 1].op.key == es[i].key && es[i + 1].op.body == es[i].body
    && var gap := es[i + 1].op.until - es[i].epoch;
       0 <= gap && 1000 * gap < ms + 1000 && (es[i + 1].op.until < U64_MAX ==> ms <= 1000 * gap)
  }

  predicate WritesRow(e: Event, key: Key) { e.Wrote? && !e.op.Outside() && e.op.key == key }

  /** What comes right after the answer: its write, exactly when one is due. */
  predicate Settled(k: Config, es: seq<Event>, i: nat)
    requires Resubmission(es, i)
  {
    match es[i].reply.outcome
    case Accepted(_) => NextWrites(es, i, Commit(es[i].key))
    case RequiresSigning(_) => NextWrites(es, i, Release(es[i].key))
    case Refused(fault) =>
      if k.policy(fault) == Drop then NextWrites(es, i, Release(es[i].key))
      else
        match fault
        case RateLimited(Some(ms)) => NextParks(es, i, ms)
        case _ => i + 1 < |es| ==> !WritesRow(es[i + 1], es[i].key)
  }

  /** The protocol enables nothing else next. */
  lemma AnswerNext(k: Config, w: World, es: seq<Event>, i: nat)
    requires Resubmission(es, i) && i + 1 < |es|
    requires Enabled(k, w, PhaseAfter(k, Idle, es[i]), es[i + 1]) && es[i].key in w.journal
    ensures Settled(k, es, i)
  {
  }

  lemma AnswerSettled(k: Config, trust: Trust, w: World, es: seq<Event>, i: nat)
    requires Path(k, trust, w, es) && Resubmission(es, i)
    requires i + 1 < |es| || PhaseOf(k, es).Idle?
    ensures Settled(k, es, i)
  {
    PathAt(k, trust, w, es, i);
    assert es[..i + 1][..i] == es[..i];
    var p := PhaseOf(k, es[..i + 1]);
    assert p == PhaseAfter(k, Idle, es[i]) && es[i].key in Replay(w, es[..i + 1]).journal;
    hide Path, Replay, PhaseOf;
    if i + 1 < |es| {
      PathAt(k, trust, w, es, i + 1);
      AnswerNext(k, Replay(w, es[..i + 1]), es, i);
    } else {
      assert es[..i + 1] == es;
    }
  }

  /** Across any runs, faults and crashes: the event after each answered resubmission is its commit, its
      release, its park or no write of its row, as the outcome and the policy's action for its fault say. */
  lemma ResubmissionsAreSettled(k: Config, w: World, runs: seq<RunInput>, i: nat)
    requires Usable(k, Anything, runs) && Resubmission(Since(w, History(k, w, runs)), i)
    ensures Settled(k, Since(w, History(k, w, runs)), i)
  {
    KeeperFollowsProtocol(k, Anything, w, runs);
    AnswerSettled(k, Anything, w, Since(w, History(k, w, runs)), i);
  }

  /** An answer is awaited only right after its POST. */
  lemma AnsweredByPost(k: Config, es: seq<Event>)
    requires PhaseOf(k, es).Answered?
    ensures es != [] && var p, e := PhaseOf(k, es), es[|es| - 1];
      e.Posted? && e.key == p.key && e.initial == p.initial && e.reply.Answer? && e.reply.outcome == p.outcome
  {
  }

  /** A release, landed or not, comes right after a POST of its key that was answered with signing, or
      refused: with any fault if it was a first submission, with one the policy drops if it was not. */
  lemma ReleasesFollowRefusals(k: Config, w: World, runs: seq<RunInput>, m: nat)
    requires Usable(k, Anything, runs)
    requires var es := Since(w, History(k, w, runs)); m < |es| && es[m].Wrote? && es[m].op.Release?
    ensures var es := Since(w, History(k, w, runs));
      && m > 0 && es[m - 1].Posted? && es[m - 1].key == es[m].op.key && es[m - 1].reply.Answer?
      && match es[m - 1].reply.outcome
         case Accepted(_) => false
         case RequiresSigning(_) => true
         case Refused(fault) => es[m - 1].initial || k.policy(fault) == Drop
  {
    var es := Since(w, History(k, w, runs));
    KeeperFollowsProtocol(k, Anything, w, runs);
    hide Path, Replay, History, PhaseOf;
    PathAt(k, Anything, w, es, m);
    AnsweredByPost(k, es[..m]);
  }

  /** The resubmission at `i` was refused with a fault that is not to be dropped. */
  predicate Survived(k: Config, es: seq<Event>, i: nat) {
    Resubmission(es, i) && es[i].reply.outcome.Refused? && k.policy(es[i].reply.outcome.fault) != Drop
  }

  lemma SurvivorStep(k: Config, w: World, p: Phase, e: Event, key: Key, body: Bytes)
    requires Enabled(k, w, p, e) && !PostsKey(e, key)
    requires RowOf(w, key).Some? && RowOf(w, key).value.Reserved? && RowOf(w, key).value.body == body
    requires p.Opened? ==> p.key != key
    requires p.Answered? && p.key == key ==>
      p.body == body && !p.initial && p.outcome.Refused? && k.policy(p.outcome.fault) != Drop
    ensures RowOf(After(w, e), key).Some? && RowOf(After(w, e), key).value.Reserved? && RowOf(After(w, e), key).value.body == body
    ensures var p' := PhaseAfter(k, p, e); p'.Opened? || p'.Answered? ==> p'.key != key
  {
  }

  lemma {:induction false} SurvivorStands(k: Config, trust: Trust, w: World, es: seq<Event>, i: nat)
    requires Path(k, trust, w, es) && Survived(k, es, i)
    requires forall m :: i < m < |es| ==> !PostsKey(es[m], es[i].key)
    ensures var row := RowOf(Replay(w, es), es[i].key); row.Some? && row.value.Reserved? && row.value.body == es[i].body
    ensures var p := PhaseOf(k, es);
      && (p.Opened? ==> p.key != es[i].key)
      && (p.Answered? && p.key == es[i].key ==>
            p.body == es[i].body && !p.initial && p.outcome.Refused? && k.policy(p.outcome.fault) != Drop)
    decreases |es|
  {
    var n := |es| - 1;
    if i < n {
      SurvivorStands(k, trust, w, es[..n], i);
      SurvivorStep(k, Replay(w, es[..n]), PhaseOf(k, es[..n]), es[n], es[i].key, es[i].body);
    } else {
      PathAt(k, trust, w, es, i);
    }
  }

  /** A reservation whose resubmission was refused with a fault that is not to be dropped stays reserved,
      with its body, until its next POST: across any runs, faults and crashes. */
  lemma SurvivorsStayReserved(k: Config, w: World, runs: seq<RunInput>, i: nat)
    requires Usable(k, Anything, runs) && Survived(k, Since(w, History(k, w, runs)), i)
    requires var es := Since(w, History(k, w, runs)); forall m :: i < m < |es| ==> !PostsKey(es[m], es[i].key)
    ensures var e, j := Since(w, History(k, w, runs))[i], History(k, w, runs).journal;
      e.key in j && j[e.key].Reserved? && j[e.key].body == e.body
  {
    KeeperFollowsProtocol(k, Anything, w, runs);
    var es := Since(w, History(k, w, runs));
    hide Path, Replay, PhaseOf, History;
    assert forall m :: i < m < |es| ==> !PostsKey(es[m], es[i].key);
    SurvivorStands(k, Anything, w, es, i);
  }
}
