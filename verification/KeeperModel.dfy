/**
 The vocabulary of the keeper: venue answers, retry actions, the write-ahead
 journal, and the world one keeper run acts on.

 A `World` is what survives a run: the journal rows, the bodies the venue holds
 (with multiplicity) and the trail of every write attempted and every POST made.
 An `Env` supplies everything a run does not decide itself, indexed by the length
 of the trail, so quantifying over environments covers every placement of store
 faults, traps and lost answers.
 */
module KeeperModel {
  import opened Prelude

  type Key = string

  datatype VenueFault =
    | UnknownVenue
    | InvalidBody(detail: string)
    | Unsupported
    | Denied(detail: string)
    | RateLimited(retryAfterMs: Option<U64>)
    | Unavailable(detail: string)
    | Timeout
    | InvalidReceipt
    | ReceiptMismatch

  datatype RetryAction = TryNextBlock | Backoff(seconds: U64) | Drop

  /** `retry_action`: a fault that cannot be attributed removes the commitment. */
  function DefaultRetryAction(fault: VenueFault): RetryAction {
    match fault
    case RateLimited(Some(ms)) => Backoff(DivCeil(ms, 1000))
    case RateLimited(None) => TryNextBlock
    case Timeout => TryNextBlock
    case Unavailable(_) => TryNextBlock
    case _ => Drop
  }

  /** Which fault calls for what: a throttle without a hint, a timeout and an outage are tried again, a
      throttle with one waits for the hint in whole seconds, rounded up, and every other fault drops. */
  lemma DefaultPolicyLaw(fault: VenueFault)
    ensures DefaultRetryAction(fault) == TryNextBlock <==> fault in {RateLimited(None), Timeout} || fault.Unavailable?
    ensures DefaultRetryAction(fault).Backoff? <==> fault.RateLimited? && fault.retryAfterMs.Some?
    ensures DefaultRetryAction(fault).Backoff? ==>
      fault.retryAfterMs.value <= 1000 * DefaultRetryAction(fault).seconds < fault.retryAfterMs.value + 1000
    ensures DefaultRetryAction(fault) == Drop <==>
      || fault in {UnknownVenue, Unsupported, InvalidReceipt, ReceiptMismatch}
      || fault.InvalidBody? || fault.Denied?
  {
  }

  // --- Submission keys ---

  type Digest = d: seq<Byte> | |d| == 32 witness seq(32, i => 0)

  function HexDigit(n: nat): char
    requires n < 16
  {
    if n < 10 then '0' + n as char else 'a' + (n - 10) as char
  }

  function Hex(bytes: seq<Byte>): (s: string)
    ensures |s| == 2 * |bytes|
  {
    if bytes == [] then ""
    else [HexDigit(bytes[0] / 16), HexDigit(bytes[0] % 16)] + Hex(bytes[1..])
  }

  function SubmissionKey(venue: string, digest: Digest): Key {
    venue + ":" + "0x" + Hex(digest)
  }

  lemma {:induction false} HexInjective(a: seq<Byte>, b: seq<Byte>)
    requires Hex(a) == Hex(b)
    ensures a == b
  {
    assert |a| == |b|;
    if a != [] {
      var s, t := Hex(a), Hex(b);
      assert s[0] == HexDigit(a[0] / 16) && t[0] == HexDigit(b[0] / 16);
      assert s[1] == HexDigit(a[0] % 16) && t[1] == HexDigit(b[0] % 16);
      assert a[0] / 16 == b[0] / 16 && a[0] % 16 == b[0] % 16;
      assert s[2..] == Hex(a[1..]) && t[2..] == Hex(b[1..]);
      HexInjective(a[1..], b[1..]);
      assert a == [a[0]] + a[1..] && b == [b[0]] + b[1..];
    }
  }

  /** A key names one venue and one digest, whatever characters the venue id holds. */
  lemma SubmissionKeyUnambiguous(v1: string, d1: Digest, v2: string, d2: Digest)
    requires SubmissionKey(v1, d1) == SubmissionKey(v2, d2)
    ensures v1 == v2 && d1 == d2
  {
    var a, b := SubmissionKey(v1, d1), SubmissionKey(v2, d2);
    assert |a| == |v1| + 67 && |b| == |v2| + 67;
    assert a[..|v1|] == v1 && b[..|v2|] == v2;
    assert a[|v1| + 3..] == Hex(d1) && b[|v2| + 3..] == Hex(d2);
    HexInjective(d1, d2);
  }

  function HexValue(c: char): int { if '0' <= c <= '9' then c as int - '0' as int else c as int - 'a' as int + 10 }

  /** `s` writes `bytes` in lower-case hex, high digit first. */
  predicate Spells(s: string, bytes: seq<Byte>) {
    && |s| == 2 * |bytes|
    && (forall i :: 0 <= i < |s| ==> '0' <= s[i] <= '9' || 'a' <= s[i] <= 'f')
    && forall i :: 0 <= i < |bytes| ==> bytes[i] == 16 * HexValue(s[2 * i]) + HexValue(s[2 * i + 1])
  }

  lemma {:induction false} HexSpells(bytes: seq<Byte>)
    ensures Spells(Hex(bytes), bytes)
  {
    if bytes != [] {
      var rest, s := bytes[1..], Hex(bytes);
      HexSpells(rest);
      assert forall i :: 2 <= i < |s| ==> s[i] == Hex(rest)[i - 2];
      forall i | 0 <= i < |bytes| ensures bytes[i] == 16 * HexValue(s[2 * i]) + HexValue(s[2 * i + 1]) {
        if i > 0 {
          assert bytes[i] == rest[i - 1] && s[2 * i] == Hex(rest)[2 * (i - 1)];
        }
      }
    }
  }

  /** A key is the venue id, a colon, "0x", and the 64 hex digits of the digest. */
  lemma KeySpellsDigest(venue: string, digest: Digest)
    ensures var key, n := SubmissionKey(venue, digest), |venue|;
      |key| == n + 67 && key[..n] == venue && key[n..n + 3] == ":0x" && Spells(key[n + 3..], digest)
  {
    HexSpells(digest);
    assert SubmissionKey(venue, digest)[|venue| + 3..] == Hex(digest);
  }

  // --- Configuration ---

  /** A keeper bound to its venue: how it keys a body, its fault policy, its reconcile budget. */
  datatype Config = Config(KeyFor: Bytes -> Key, policy: VenueFault -> RetryAction, budget: nat)
  {
    /** Whether a fault ends the submission: derived from the action, as the source derives it. */
    predicate Terminal(fault: VenueFault) { policy(fault).Drop? }
  }

  /** The keeper of `venue`; `digest` stands for keccak-256. */
  function Bind(venue: string, digest: Bytes -> Digest, policy: VenueFault -> RetryAction, budget: nat): Config {
    Config(body => SubmissionKey(venue, digest(body)), policy, budget)
  }

  /** At one venue, two bodies share a key exactly when they share a digest. */
  lemma KeysAreDigests(venue: string, digest: Bytes -> Digest, policy: VenueFault -> RetryAction, budget: nat, a: Bytes, b: Bytes)
    ensures var k := Bind(venue, digest, policy, budget); k.KeyFor(a) == k.KeyFor(b) <==> digest(a) == digest(b)
  {
    if SubmissionKey(venue, digest(a)) == SubmissionKey(venue, digest(b)) {
      SubmissionKeyUnambiguous(venue, digest(a), venue, digest(b));
    }
  }

  // --- The journal ---

  datatype Entry = Reserved(body: Bytes, nextEligible: U64) | Committed

  type Journal = map<Key, Entry>

  datatype Op =
    | Reserve(key: Key, body: Bytes)
    | Commit(key: Key)
    | Release(key: Key)
    | Park(key: Key, body: Bytes, until: U64)
    | ClearRefusal                        // the commitment's refusal marker
    | ApplyRetry(action: RetryAction)     // the gate or the row of a commitment
  {
    /** Writes of rows that are not the journal's. */
    predicate Outside() { ClearRefusal? || ApplyRetry? }
  }

  /** What one landed write does to the journal. */
  function Effect(j: Journal, op: Op): Journal {
    match op
    case Reserve(key, body) => j[key := Reserved(body, 0)]
    case Commit(key) => j[key := Committed]
    case Release(key) => j - {key}
    case Park(key, body, until) => j[key := Reserved(body, until)]
    case _ => j
  }

  function PendingKeys(j: Journal): set<Key> {
    set key | key in j && j[key].Reserved?
  }

  // --- The world and its environment ---

  type Tx = Bytes

  datatype Outcome = Accepted(receipt: Bytes) | RequiresSigning(tx: Tx) | Refused(fault: VenueFault)

  /** How a POST ends: an answer came back, or the tick was cut off while awaiting it.
      `took` says whether this POST made the venue hold one more copy of the body. */
  datatype Reply = Answer(outcome: Outcome, took: bool) | Lost(took: bool)

  /** How a write ends: it landed, the store faulted, or the tick was trapped at it. */
  datatype Landing = Landed | Faulted | Trapped

  datatype Event =
    | Wrote(op: Op, landing: Landing)
    | Posted(key: Key, body: Bytes, epoch: U64, initial: bool, reply: Reply)

  datatype World = World(journal: Journal, held: multiset<Bytes>, log: seq<Event>)

  datatype Env = Env(
    write: nat -> Landing,
    reply: (nat, bool, bool, Bytes) -> Reply,
    listing: Journal -> seq<Key>)

  function After(w: World, e: Event): World {
    match e
    case Wrote(op, landing) =>
      World(if landing.Landed? then Effect(w.journal, op) else w.journal, w.held, w.log + [e])
    case Posted(_, body, _, _, reply) =>
      World(w.journal, if reply.took then w.held + multiset{body} else w.held, w.log + [e])
  }

  function LandingAt(env: Env, w: World): Landing { env.write(|w.log|) }

  function Write(env: Env, w: World, op: Op): World { After(w, Wrote(op, LandingAt(env, w))) }

  function ReplyAt(env: Env, w: World, initial: bool, body: Bytes): Reply {
    env.reply(|w.log|, initial, body in w.held, body)
  }

  function Post(env: Env, w: World, key: Key, body: Bytes, epoch: U64, initial: bool): World {
    After(w, Posted(key, body, epoch, initial, ReplyAt(env, w, initial, body)))
  }

  /** `pending` lists every reserved key once, in an order of the store's choosing. */
  ghost predicate ListsPending(env: Env) {
    forall j: Journal {:trigger env.listing(j)} :: IsListing(env.listing(j), PendingKeys(j))
  }

  ghost predicate IsListing(keys: seq<Key>, s: set<Key>) {
    && (forall i, j :: 0 <= i < j < |keys| ==> keys[i] != keys[j])
    && (forall key :: key in keys <==> key in s)
  }

  /** Some listing of `s`. */
  ghost function ListingOf(s: set<Key>): (keys: seq<Key>)
    ensures IsListing(keys, s)
  {
    if s == {} then []
    else
      var key :| key in s;
      [key] + ListingOf(s - {key})
  }

  // --- What one commitment's visit meets ---

  datatype Read<+T> = Got(value: T) | ReadFault

  datatype Poll = Submit(body: Bytes) | WaitBlock | BackoffFor(seconds: U64) | DropIt

  /** The host's and the poller's answers while the sweep visits one listed commitment. */
  datatype Visit = Visit(
    wellFormed: bool,       // the key parses as a commitment reference
    ready: Read<bool>,      // the gate check
    present: Read<bool>,    // the row is there to be read
    poll: Poll,             // the poller's outcome
    markReads: bool,        // the journal mark can be read
    stillThere: Read<bool>) // the row is there after the retry action

  /** One run's inputs: its environment, its clock, and what its snapshot reads return. */
  datatype RunInput = RunInput(env: Env, epoch: U64, pendingReads: bool, listed: Read<seq<Visit>>)

  datatype ReconcileReport = ReconcileReport(committed: nat, released: nat, pending: nat, gated: nat, unsigned: seq<Tx>)

  datatype RunReport = RunReport(
    polled: nat, gated: nat, skipped: nat, submitted: nat, duplicates: nat, retried: nat, dropped: nat,
    reconciled: ReconcileReport, unsigned: seq<Tx>)

  const EMPTY_RECONCILE := ReconcileReport(0, 0, 0, 0, [])
}
