/**
 The write-ahead submission journal as a transition system: which write or POST
 may come next, given the journal and what the last POST answered. The keeper's
 code is shown to follow it in KeeperRefinement.dfy; here its safety properties
 are proved of every path, so of every run cut off at any point.
 */
module JournalProtocol {
  import opened Prelude
  import opened KeeperModel

  /** Opened: a first reservation has just landed. Answered: an answer awaits its write. Clearing:
      an accepted first submission has still to clear its refusal marker. Owing: a refused one has
      still to apply its retry action. */
  datatype Phase =
    | Idle
    | Clearing
    | Owing(action: RetryAction)
    | Opened(key: Key, body: Bytes)
    | Answered(key: Key, body: Bytes, outcome: Outcome, initial: bool, epoch: U64)

  predicate Hinted(fault: VenueFault) { fault.RateLimited? && fault.retryAfterMs.Some? }

  /** Answers after which the key is released. */
  predicate Releases(k: Config, outcome: Outcome, initial: bool) {
    outcome.RequiresSigning? || (outcome.Refused? && (initial || k.policy(outcome.fault) == Drop))
  }

  /** Whether the journal lets this write or POST come next. */
  predicate Enabled(k: Config, w: World, p: Phase, e: Event) {
    match e
    case Posted(key, body, epoch, initial, _) =>
      && key in w.journal && w.journal[key].Reserved?
      && w.journal[key].body == body && w.journal[key].nextEligible <= epoch
      && p == (if initial then Opened(key, body) else Idle)
    case Wrote(Reserve(key, body), _) => p.Idle? && key == k.KeyFor(body) && key !in w.journal
    case Wrote(Commit(key), _) => p.Answered? && p.key == key && p.outcome.Accepted?
    case Wrote(Release(key), _) => p.Answered? && p.key == key && Releases(k, p.outcome, p.initial)
    case Wrote(Park(key, body, until), _) =>
      && p.Answered? && p.key == key && p.body == body && !p.initial
      && p.outcome.Refused? && k.policy(p.outcome.fault) != Drop && Hinted(p.outcome.fault)
      && until == SaturatingAdd(p.epoch, DivCeil(p.outcome.fault.retryAfterMs.value, 1000))
    case Wrote(ClearRefusal, _) => p.Clearing?
    case Wrote(ApplyRetry(action), _) => p.Idle? || p == Owing(action)
  }

  function PhaseAfter(k: Config, p: Phase, e: Event): Phase {
    match e
    case Wrote(Reserve(key, body), Landed) => Opened(key, body)
    case Wrote(Commit(_), landing) => if p.Answered? && p.initial && !landing.Trapped? then Clearing else Idle
    case Wrote(Release(_), Landed) =>
      if p.Answered? && p.initial && p.outcome.Refused? then Owing(k.policy(p.outcome.fault)) else Idle
    case Wrote(_, _) => Idle
    case Posted(_, _, _, _, Lost(_)) => Idle
    case Posted(key, body, epoch, initial, Answer(outcome, _)) =>
      if outcome.Accepted? || Releases(k, outcome, initial) || Hinted(outcome.fault)
      then Answered(key, body, outcome, initial, epoch)
      else Idle // a transient refusal: the marker stays as it is
  }

  predicate Transient(k: Config, outcome: Outcome) { outcome.Refused? && k.policy(outcome.fault) != Drop }

  /** The venue contract: re-POST idempotency (a held body is never taken again, and is answered with
      an acceptance or a transient fault), and no body is newly taken behind a refusal, save that a
      resubmission may be taken and then answered with a transient fault. */
  predicate Trustworthy(k: Config, initial: bool, holds: bool, reply: Reply) {
    && (reply.took ==> !holds)
    && (reply.Answer? ==>
          if reply.outcome.Accepted? then holds || reply.took
          else && (reply.took ==> !initial && Transient(k, reply.outcome))
               && (holds ==> Transient(k, reply.outcome)))
  }

  /** What is assumed of the venue: nothing; its contract; or that, with every POST accepted. */
  datatype Trust = Anything | Contract | Accepting

  predicate Keeps(k: Config, trust: Trust, initial: bool, holds: bool, reply: Reply) {
    match trust
    case Anything => true
    case Contract => Trustworthy(k, initial, holds, reply)
    case Accepting => Trustworthy(k, initial, holds, reply) && reply.Answer? && reply.outcome.Accepted?
  }

  predicate Honours(k: Config, trust: Trust, w: World, e: Event) {
    e.Posted? ==> Keeps(k, trust, e.initial, e.body in w.held, e.reply)
  }

  // --- Paths ---

  function Replay(w: World, es: seq<Event>): (r: World)
    ensures r.log == w.log + es
  {
    if es == [] then w else After(Replay(w, es[..|es| - 1]), es[|es| - 1])
  }

  function PhaseOf(k: Config, es: seq<Event>): Phase {
    if es == [] then Idle else PhaseAfter(k, PhaseOf(k, es[..|es| - 1]), es[|es| - 1])
  }

  /** Every event was enabled when it happened, and the venue kept what is assumed of it. */
  predicate Path(k: Config, trust: Trust, w: World, es: seq<Event>) {
    es == [] ||
    var before, last := es[..|es| - 1], es[|es| - 1];
    && Path(k, trust, w, before)
    && Enabled(k, Replay(w, before), PhaseOf(k, before), last)
    && Honours(k, trust, Replay(w, before), last)
  }

  lemma Extend(k: Config, trust: Trust, w: World, es: seq<Event>, e: Event)
    requires Path(k, trust, w, es)
    requires Enabled(k, Replay(w, es), PhaseOf(k, es), e)
    requires Honours(k, trust, Replay(w, es), e)
    ensures Path(k, trust, w, es + [e])
    ensures Replay(w, es + [e]) == After(Replay(w, es), e)
    ensures PhaseOf(k, es + [e]) == PhaseAfter(k, PhaseOf(k, es), e)
  {
  }

  /** Any prefix of a path is a path, and its next event was enabled there. */
  lemma {:induction false} PathAt(k: Config, trust: Trust, w: World, es: seq<Event>, j: nat)
    requires Path(k, trust, w, es) && j < |es|
    ensures Path(k, trust, w, es[..j])
    ensures Enabled(k, Replay(w, es[..j]), PhaseOf(k, es[..j]), es[j])
    ensures Honours(k, trust, Replay(w, es[..j]), es[j])
  {
    var n := |es| - 1;
    if j < n {
      PathAt(k, trust, w, es[..n], j);
      assert es[..n][..j] == es[..j];
    }
  }

  /** A first submission is settled to the end: unless the run is cut off there, an accepted one goes
      on to clear its refusal marker, and a refused one to apply the action its fault calls for. */
  lemma FirstSubmissionIsSettled(k: Config, trust: Trust, w: World, es: seq<Event>, i: nat)
    requires Path(k, trust, w, es) && i + 1 < |es|
    requires PhaseOf(k, es[..i]).Answered? && PhaseOf(k, es[..i]).initial
    ensures var p := PhaseOf(k, es[..i]);
      && es[i].Wrote? && es[i].op == (if p.outcome.Accepted? then Commit(p.key) else Release(p.key))
      && (p.outcome.Accepted? && !es[i].landing.Trapped? ==> es[i + 1].Wrote? && es[i + 1].op == ClearRefusal)
      && (p.outcome.Refused? && es[i].landing.Landed? ==>
            es[i + 1].Wrote? && es[i + 1].op == ApplyRetry(k.policy(p.outcome.fault)))
  {
    PathAt(k, trust, w, es, i);
    PathAt(k, trust, w, es, i + 1);
    assert es[..i + 1][..i] == es[..i];
    hide Path, Replay;
  }

  // --- The phase always agrees with the journal ---

  predicate PhaseFits(w: World, p: Phase) {
    p.Opened? || p.Answered? ==> p.key in w.journal && w.journal[p.key].Reserved? && w.journal[p.key].body == p.body
  }

  lemma {:induction false} PhaseAlwaysFits(k: Config, trust: Trust, w: World, es: seq<Event>)
    requires Path(k, trust, w, es)
    ensures PhaseFits(Replay(w, es), PhaseOf(k, es))
  {
  }

  // --- Exact POST accounting, assuming nothing of the venue ---

  predicate AcceptedFor(e: Event, key: Key) {
    e.Posted? && e.key == key && e.reply.Answer? && e.reply.outcome.Accepted?
  }

  predicate CommitMissed(e: Event, key: Key) {
    e.Wrote? && e.op == Commit(key) && !e.landing.Landed?
  }

  /** POSTs of `key` whose acceptance came back. */
  function Acceptances(es: seq<Event>, key: Key): nat {
    if es == [] then 0
    else Acceptances(es[..|es| - 1], key) + if AcceptedFor(es[|es| - 1], key) then 1 else 0
  }

  /** Commits of `key` that did not land. */
  function MissedCommits(es: seq<Event>, key: Key): nat {
    if es == [] then 0
    else MissedCommits(es[..|es| - 1], key) + if CommitMissed(es[|es| - 1], key) then 1 else 0
  }

  predicate IsCommitted(w: World, key: Key) { key in w.journal && w.journal[key].Committed? }

  predicate AwaitsCommit(p: Phase, key: Key) { p.Answered? && p.key == key && p.outcome.Accepted? }

  /** What is owed for `key`: its commit, and the one being awaited. */
  function Settlements(w: World, p: Phase, key: Key): nat {
    (if IsCommitted(w, key) then 1 else 0) + (if AwaitsCommit(p, key) then 1 else 0)
  }

  lemma AccountingStep(k: Config, w: World, p: Phase, e: Event, key: Key)
    requires Enabled(k, w, p, e) && PhaseFits(w, p)
    ensures Settlements(After(w, e), PhaseAfter(k, p, e), key) + (if CommitMissed(e, key) then 1 else 0)
         == Settlements(w, p, key) + (if AcceptedFor(e, key) then 1 else 0)
  {
  }

  lemma {:induction false} PostAccounting(k: Config, trust: Trust, w: World, es: seq<Event>, key: Key)
    requires Path(k, trust, w, es) && key !in w.journal
    ensures Acceptances(es, key) == MissedCommits(es, key) + Settlements(Replay(w, es), PhaseOf(k, es), key)
  {
    if es != [] {
      var before := es[..|es| - 1];
      PostAccounting(k, trust, w, before, key);
      PhaseAlwaysFits(k, trust, w, before);
      AccountingStep(k, Replay(w, before), PhaseOf(k, before), es[|es| - 1], key);
    }
  }

  lemma CommittedStep(k: Config, w: World, p: Phase, e: Event, key: Key)
    requires IsCommitted(w, key) && PhaseFits(w, p) && Enabled(k, w, p, e)
    ensures IsCommitted(After(w, e), key) && (e.Posted? ==> e.key != key)
  {
  }

  /** COMMITTED is absorbing: nothing un-commits a key, and no POST names it again. */
  lemma {:induction false} CommittedIsAbsorbing(k: Config, trust: Trust, w: World, es: seq<Event>, i: nat, key: Key)
    requires Path(k, trust, w, es) && i <= |es|
    requires IsCommitted(Replay(w, es[..i]), key)
    ensures IsCommitted(Replay(w, es), key)
    ensures forall j :: i <= j < |es| && es[j].Posted? ==> es[j].key != key
    decreases |es|
  {
    if i < |es| {
      var before := es[..|es| - 1];
      assert before[..i] == es[..i];
      CommittedIsAbsorbing(k, trust, w, before, i, key);
      PhaseAlwaysFits(k, trust, w, before);
      CommittedStep(k, Replay(w, before), PhaseOf(k, before), es[|es| - 1], key);
    } else {
      assert es[..i] == es;
    }
  }

  // --- Write-ahead safety, under the venue contract ---

  /** Each held body has a marker, and a RESERVED one carries that very body. */
  ghost predicate WriteAhead(k: Config, w: World) {
    forall body :: body in w.held ==> Marked(k, w, body)
  }

  predicate Marked(k: Config, w: World, body: Bytes) {
    var key := k.KeyFor(body);
    key in w.journal && (w.journal[key].Committed? || w.journal[key].body == body)
  }

  /** No body the venue holds is filed under `key`. */
  ghost predicate Unheld(k: Config, w: World, key: Key) {
    forall body :: body in w.held ==> k.KeyFor(body) != key
  }

  /** Rows are filed under their own body's key, and a committed row names a held body. */
  ghost predicate Filed(k: Config, w: World) {
    forall key :: key in w.journal ==>
      if w.journal[key].Reserved? then k.KeyFor(w.journal[key].body) == key
      else exists body :: body in w.held && k.KeyFor(body) == key
  }

  ghost predicate HeldOnce(w: World) {
    forall body :: w.held[body] <= 1
  }

  ghost predicate Sound(k: Config, w: World) {
    WriteAhead(k, w) && Filed(k, w) && HeldOnce(w)
  }

  ghost predicate PhaseSound(k: Config, w: World, p: Phase) {
    match p
    case Opened(key, _) => Unheld(k, w, key)
    case Answered(key, body, outcome, initial, _) =>
      && (outcome.Accepted? ==> body in w.held)
      && (Releases(k, outcome, initial) ==> Unheld(k, w, key))
    case _ => true
  }

  lemma {:induction false} StaysSound(k: Config, trust: Trust, w: World, es: seq<Event>)
    requires !trust.Anything? && Path(k, trust, w, es) && Sound(k, w)
    ensures Sound(k, Replay(w, es)) && PhaseSound(k, Replay(w, es), PhaseOf(k, es))
  {
    if es != [] {
      var before := es[..|es| - 1];
      StaysSound(k, trust, w, before);
      PhaseAlwaysFits(k, trust, w, before);
      SoundStep(k, Replay(w, before), PhaseOf(k, before), es[|es| - 1]);
    }
  }

  lemma SoundStep(k: Config, w: World, p: Phase, e: Event)
    requires Enabled(k, w, p, e) && Honours(k, Contract, w, e)
    requires Sound(k, w) && PhaseSound(k, w, p) && PhaseFits(w, p)
    ensures Sound(k, After(w, e)) && PhaseSound(k, After(w, e), PhaseAfter(k, p, e))
  {
    match e
    case Posted(key, body, epoch, initial, reply) => SoundPost(k, w, p, e);
    case Wrote(op, landing) =>
      if landing.Landed? { SoundWrite(k, w, p, op); }
  }

  lemma SoundWrite(k: Config, w: World, p: Phase, op: Op)
    requires Enabled(k, w, p, Wrote(op, Landed))
    requires Sound(k, w) && PhaseSound(k, w, p) && PhaseFits(w, p)
    ensures Sound(k, After(w, Wrote(op, Landed)))
    ensures PhaseSound(k, After(w, Wrote(op, Landed)), PhaseAfter(k, p, Wrote(op, Landed)))
  {
  }

  lemma SoundPost(k: Config, w: World, p: Phase, e: Event)
    requires e.Posted? && Enabled(k, w, p, e) && Honours(k, Contract, w, e)
    requires Sound(k, w) && PhaseSound(k, w, p)
    ensures Sound(k, After(w, e)) && PhaseSound(k, After(w, e), PhaseAfter(k, p, e))
  {
    assert k.KeyFor(e.body) == e.key && Marked(k, w, e.body);
    MarkedAfterPost(k, w, e);
    FiledAfterPost(k, w, e);
    if e.body !in After(w, e).held {
      UnheldAfterPost(k, w, e);
    }
  }

  lemma UnheldAfterPost(k: Config, w: World, e: Event)
    requires e.Posted? && WriteAhead(k, w) && e.body !in After(w, e).held
    requires e.key in w.journal && w.journal[e.key].Reserved? && w.journal[e.key].body == e.body
    ensures Unheld(k, After(w, e), e.key)
  {
  }

  lemma MarkedAfterPost(k: Config, w: World, e: Event)
    requires e.Posted? && WriteAhead(k, w) && Marked(k, w, e.body)
    ensures WriteAhead(k, After(w, e))
  {
  }

  lemma FiledAfterPost(k: Config, w: World, e: Event)
    requires e.Posted? && Filed(k, w)
    ensures Filed(k, After(w, e))
  {
  }

  // --- Nothing is lost at an accepting venue ---

  /** With every POST accepted no key is ever released, and the venue drops nothing. */
  lemma {:induction false} AcceptingOnlyGrows(k: Config, w: World, es: seq<Event>)
    requires Path(k, Accepting, w, es)
    ensures PhaseOf(k, es).Answered? ==> PhaseOf(k, es).outcome.Accepted?
    ensures w.journal.Keys <= Replay(w, es).journal.Keys && w.held <= Replay(w, es).held
  {
    if es != [] {
      var before := es[..|es| - 1];
      AcceptingOnlyGrows(k, w, before);
      AcceptingStep(k, Replay(w, before), PhaseOf(k, before), es[|es| - 1]);
    }
  }

  lemma AcceptingStep(k: Config, w: World, p: Phase, e: Event)
    requires Enabled(k, w, p, e) && Honours(k, Accepting, w, e)
    requires p.Answered? ==> p.outcome.Accepted?
    ensures var p' := PhaseAfter(k, p, e); p'.Answered? ==> p'.outcome.Accepted?
    ensures w.journal.Keys <= After(w, e).journal.Keys && w.held <= After(w, e).held
  {
  }

  /** A body reserved at the start is held by now, or its row still stands as it was. */
  predicate HeldOrStanding(w0: World, w: World, key: Key)
    requires key in PendingKeys(w0.journal)
  {
    w0.journal[key].body in w.held || RowOf(w, key) == Some(w0.journal[key])
  }

  lemma HeldOrStandingStep(k: Config, w0: World, w: World, p: Phase, e: Event, key: Key)
    requires key in PendingKeys(w0.journal) && HeldOrStanding(w0, w, key)
    requires Enabled(k, w, p, e) && PhaseFits(w, p)
    requires p.Answered? ==> p.outcome.Accepted? && p.body in w.held
    ensures HeldOrStanding(w0, After(w, e), key)
  {
  }

  lemma {:induction false} ReservedIsNotLost(k: Config, w: World, es: seq<Event>, key: Key)
    requires Path(k, Accepting, w, es) && Sound(k, w) && key in PendingKeys(w.journal)
    ensures HeldOrStanding(w, Replay(w, es), key)
  {
    if es != [] {
      var before := es[..|es| - 1];
      ReservedIsNotLost(k, w, before, key);
      AcceptingOnlyGrows(k, w, before);
      StaysSound(k, Accepting, w, before);
      PhaseAlwaysFits(k, Accepting, w, before);
      HeldOrStandingStep(k, w, Replay(w, before), PhaseOf(k, before), es[|es| - 1], key);
    }
  }

  // --- Back-off and the identity of the body ---

  function RowOf(w: World, key: Key): Option<Entry> {
    if key in w.journal then Some(w.journal[key]) else None
  }

  predicate IsPark(e: Event, key: Key) { e.Wrote? && e.landing.Landed? && e.op.Park? && e.op.key == key }

  predicate PostsKey(e: Event, key: Key) { e.Posted? && e.key == key }

  /** A reserved row that no phase is about changes only through a POST of its key. */
  lemma ReservedStep(k: Config, w: World, p: Phase, e: Event, key: Key)
    requires Enabled(k, w, p, e) && !PostsKey(e, key)
    requires key in PendingKeys(w.journal) && (p.Opened? || p.Answered? ==> p.key != key)
    ensures RowOf(After(w, e), key) == RowOf(w, key)
    ensures var p' := PhaseAfter(k, p, e); p'.Opened? || p'.Answered? ==> p'.key != key
  {
  }

  /** A landed park stands, deadline and body, until the key's next POST. */
  lemma {:induction false} ParkStandsUntilPosted(k: Config, trust: Trust, w: World, es: seq<Event>, i: nat, key: Key)
    requires Path(k, trust, w, es) && i < |es| && IsPark(es[i], key)
    requires forall m :: i < m < |es| ==> !PostsKey(es[m], key)
    ensures RowOf(Replay(w, es), key) == Some(Reserved(es[i].op.body, es[i].op.until))
    ensures var p := PhaseOf(k, es); p.Opened? || p.Answered? ==> p.key != key
    decreases |es|
  {
    var n := |es| - 1;
    if i < n {
      ParkStandsUntilPosted(k, trust, w, es[..n], i, key);
      ReservedStep(k, Replay(w, es[..n]), PhaseOf(k, es[..n]), es[n], key);
    }
  }

  /** After a landed park the key's next POST, by either path, waits for the deadline and carries the
      parked body: nothing can clear or rewrite the row in between. */
  lemma ParkIsHonoured(k: Config, trust: Trust, w: World, es: seq<Event>, i: nat, j: nat, key: Key)
    requires Path(k, trust, w, es) && i < j < |es|
    requires IsPark(es[i], key) && PostsKey(es[j], key)
    requires forall m :: i < m < j ==> !PostsKey(es[m], key)
    ensures es[j].epoch >= es[i].op.until && es[j].body == es[i].op.body && !es[j].initial
  {
    hide Path, Replay, PhaseOf;
    PathAt(k, trust, w, es, j);
    ParkStandsUntilPosted(k, trust, w, es[..j], i, key);
  }

  /** A park's gap is the hint rounded up to whole seconds, unless the clock saturates. */
  lemma ParkGap(k: Config, trust: Trust, w: World, es: seq<Event>, i: nat)
    requires Path(k, trust, w, es) && i < |es|
    requires es[i].Wrote? && es[i].op.Park?
    ensures var p := PhaseOf(k, es[..i]);
      && p.Answered? && p.outcome.Refused? && Hinted(p.outcome.fault)
      && var ms, gap := p.outcome.fault.retryAfterMs.value, es[i].op.until - p.epoch;
         && 0 <= gap
         && (es[i].op.until < U64_MAX ==> ms <= 1000 * gap < ms + 1000)
         && 1000 * gap < ms + 1000
  {
    PathAt(k, trust, w, es, i);
  }

  /** `key` is marked, and while it is reserved it is for `body`. */
  predicate MarkedFor(w: World, key: Key, body: Bytes) {
    key in w.journal && (w.journal[key].Reserved? ==> w.journal[key].body == body)
  }

  lemma MarkedForStep(k: Config, w: World, p: Phase, e: Event, key: Key, body: Bytes)
    requires MarkedFor(w, key, body) && PhaseFits(w, p) && Enabled(k, w, p, e)
    requires e != Wrote(Release(key), Landed)
    ensures MarkedFor(After(w, e), key, body) && (e.Posted? && e.key == key ==> e.body == body)
  {
  }

  /** From a landed first reservation until its release, every POST of the key carries that body. */
  lemma {:induction false} BodyIsStable(k: Config, trust: Trust, w: World, es: seq<Event>, i: nat, key: Key, body: Bytes)
    requires Path(k, trust, w, es) && i < |es|
    requires es[i] == Wrote(Reserve(key, body), Landed)
    requires forall m :: i < m < |es| ==> es[m] != Wrote(Release(key), Landed)
    ensures forall j :: i < j < |es| && es[j].Posted? && es[j].key == key ==> es[j].body == body
    ensures MarkedFor(Replay(w, es), key, body)
    decreases |es|
  {
    hide PhaseOf, Enabled;
    var n := |es| - 1;
    if i < n {
      BodyIsStable(k, trust, w, es[..n], i, key, body);
      PhaseAlwaysFits(k, trust, w, es[..n]);
      MarkedForStep(k, Replay(w, es[..n]), PhaseOf(k, es[..n]), es[n], key, body);
    }
  }
}
