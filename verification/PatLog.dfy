/** Personal access tokens as an audited log: the stored records always equal the
    fold of the hash-chained log of issues, uses and revocations. */
module PatLog {
  import opened Common

  const LONGEST_LIFE := 31_622_400_000_000_000
  const MAXIMUM_SCOPES := 128

  /** `revokedAt` and `lastUsed` are zero while the token is live and unused. */
  datatype Record = Record(id: Name, tenant: Name, user: Name, digest: Name, scopes: seq<Name>, issuedAt: int,
                           expiresAt: int,
                           revokedAt: int, lastUsed: int, uses: nat, version: nat)

  datatype Kind = Issued | Used | Revoked

  datatype Event = Event(at: int, kind: Kind, id: Name, tenant: Name, user: Name, scope: Name)

  datatype Entry = Entry(sequence: nat, previous: Name, digest: Name, version: nat, committedAt: int, event: Event)

  /** SHA-256 over the canonical entry, and the identifier cut out of a token digest. */
  datatype Hash = Hash(entry: Entry -> Name, identify: Name -> Name)

  datatype Config = Config(tenant: Name, records: nat, entries: nat)

  datatype State = State(records: map<Name, Record>, audit: seq<Entry>)

  function EntryDigest(h: Hash, entry: Entry): Name {
    h.entry(entry.(digest := NO_NAME))
  }

  function RevokedOnce(record: Record): nat {
    if record.revokedAt != 0 then 1 else 0
  }

  /** Names are compared in one fixed total order. */
  predicate Ascending(names: seq<Name>) {
    forall i, j | 0 <= i < j < |names| :: names[i] < names[j]
  }

  predicate ValidRecord(h: Hash, config: Config, record: Record) {
    && record.tenant == config.tenant && record.digest != NO_NAME && record.id == h.identify(record.digest)
    && record.user != NO_NAME
    && 1 <= record.version <= MAXIMUM_INTEGER && record.uses < MAXIMUM_INTEGER - 1
    && ValidTime(record.issuedAt) && ValidTime(record.expiresAt)
    && record.issuedAt < record.expiresAt && record.expiresAt - record.issuedAt <= LONGEST_LIFE
    && 1 <= |record.scopes| <= MAXIMUM_SCOPES && NO_NAME !in record.scopes && Ascending(record.scopes)
    && (if record.uses == 0 then record.lastUsed == 0
        else ValidTime(record.lastUsed) && record.issuedAt <= record.lastUsed < record.expiresAt)
    && (record.revokedAt != 0
        ==> ValidTime(record.revokedAt) && record.issuedAt <= record.revokedAt && record.lastUsed <= record.revokedAt)
    && record.version == 1 + record.uses + RevokedOnce(record)
  }

  ghost predicate ValidRecords(h: Hash, config: Config, records: map<Name, Record>) {
    && |records| <= config.records
    && (forall id | id in records :: ValidRecord(h, config, records[id]) && records[id].id == id)
    && (forall id, other | id in records && other in records && id != other ::
        records[id].digest != records[other].digest)
  }

  // ----- the log -----

  /** What the entries so far say about one token. */
  datatype Occurrence = Occurrence(version: nat, uses: nat, issued: int, lastUsed: int, revoked: int)

  datatype Log = Corrupt | Log(seen: map<Name, Occurrence>, head: Name, committed: int)

  function SeenOf(seen: map<Name, Occurrence>, id: Name): Occurrence {
    if id in seen then seen[id] else Occurrence(0, 0, 0, 0, 0)
  }

  predicate MatchesEvent(record: Record, event: Event) {
    event.id == record.id && event.tenant == record.tenant && event.user == record.user && ValidTime(event.at)
  }

  predicate Linked(h: Hash, log: Log, place: nat, entry: Entry)
    requires log.Log?
  {
    && entry.sequence == place + 1 && entry.previous == log.head
    && entry.digest != NO_NAME && entry.digest == EntryDigest(h, entry)
    && ValidTime(entry.committedAt) && entry.event.at <= entry.committedAt && log.committed <= entry.committedAt
  }

  /** The entry may follow what was seen of its token. */
  predicate Follows(record: Record, seen: Occurrence, event: Event) {
    match event.kind
    case Issued => seen.version == 0 && event.scope == NO_NAME && event.at == record.issuedAt
    case Used =>
      && seen.version != 0 && seen.revoked == 0 && event.scope in record.scopes
      && seen.issued <= event.at && seen.lastUsed <= event.at && event.at < record.expiresAt
    case Revoked =>
      && seen.version != 0 && seen.revoked == 0 && event.scope == NO_NAME && seen.issued <= event.at
      && seen.lastUsed <= event.at
  }

  function Advance(seen: Occurrence, event: Event): Occurrence {
    match event.kind
    case Issued => seen.(version := seen.version + 1, issued := event.at)
    case Used => seen.(version := seen.version + 1, uses := seen.uses + 1, lastUsed := event.at)
    case Revoked => seen.(version := seen.version + 1, revoked := event.at)
  }

  predicate Fits(h: Hash, records: map<Name, Record>, log: Log, place: nat, entry: Entry)
    requires log.Log?
  {
    && entry.event.id in records && MatchesEvent(records[entry.event.id], entry.event) && Linked(h, log, place, entry)
    && entry.version == SeenOf(log.seen, entry.event.id).version + 1
    && Follows(records[entry.event.id], SeenOf(log.seen, entry.event.id), entry.event)
  }

  function Extend(h: Hash, records: map<Name, Record>, log: Log, place: nat, entry: Entry): Log {
    if log.Corrupt? || !Fits(h, records, log, place, entry) then Corrupt
    else Log(log.seen[entry.event.id := Advance(SeenOf(log.seen, entry.event.id), entry.event)], entry.digest,
             entry.committedAt)
  }

  function Replay(h: Hash, records: map<Name, Record>, audit: seq<Entry>): Log {
    if audit == [] then Log(map[], NO_NAME, 0)
    else Extend(h, records, Replay(h, records, audit[..|audit| - 1]), |audit| - 1, audit[|audit| - 1])
  }

  predicate Agrees(record: Record, seen: Occurrence) {
    seen.version == record.version && seen.uses == record.uses && seen.lastUsed == record.lastUsed
      && seen.revoked == record.revokedAt
  }

  /** Every record is what the log says about it. */
  ghost predicate Valid(h: Hash, config: Config, s: State) {
    && ValidRecords(h, config, s.records) && |s.audit| <= config.entries
    && Replay(h, s.records, s.audit).Log?
    && (forall id | id in s.records ::
        id in Replay(h, s.records, s.audit).seen && Agrees(s.records[id], Replay(h, s.records, s.audit).seen[id]))
  }

  // ----- transactions -----

  function HeadDigest(audit: seq<Entry>): Name {
    if audit == [] then NO_NAME else audit[|audit| - 1].digest
  }

  function HeadTime(audit: seq<Entry>): int {
    if audit == [] then 0 else audit[|audit| - 1].committedAt
  }

  function Row(h: Hash, audit: seq<Entry>, event: Event, version: nat, now: int): Entry {
    var blank := Entry(|audit| + 1, HeadDigest(audit), NO_NAME, version, now, event);
    blank.(digest := EntryDigest(h, blank))
  }

  predicate Appendable(config: Config, audit: seq<Entry>, now: int) {
    |audit| < config.entries && ValidTime(now) && HeadTime(audit) <= now
  }

  ghost predicate Creatable(h: Hash, config: Config, s: State, record: Record, event: Event, now: int) {
    && ValidRecord(h, config, record) && record.version == 1 && record.uses == 0 && record.revokedAt == 0
    && record.lastUsed == 0
    && MatchesEvent(record, event) && event.kind == Issued && event.scope == NO_NAME && event.at == record.issuedAt
    && event.at <= now < record.expiresAt
    && record.id !in s.records && (forall id | id in s.records :: s.records[id].digest != record.digest)
    && |s.records| < config.records && Appendable(config, s.audit, now)
  }

  ghost function CreatePAT(h: Hash, config: Config, s: State, record: Record, event: Event, now: int): State {
    if Creatable(h, config, s, record, event, now)
    then State(s.records[record.id := record], s.audit + [Row(h, s.audit, event, record.version, now)]) else s
  }

  /** The fields a use or a revocation never changes. */
  function Base(record: Record): Record {
    record.(revokedAt := 0, lastUsed := 0, uses := 0, version := 1)
  }

  predicate ValidTransition(current: Record, next: Record, event: Event, now: int) {
    && Base(next) == Base(current) && next.version == current.version + 1 && current.revokedAt == 0 && ValidTime(now)
    && event.at <= now
    && match event.kind
       case Issued => false
       case Used =>
         && next.revokedAt == 0 && next.uses == current.uses + 1 && next.lastUsed == event.at
         && current.issuedAt <= event.at && current.lastUsed <= event.at && current.issuedAt <= now < current.expiresAt
         && event.scope in current.scopes
       case Revoked =>
         && event.scope == NO_NAME && next.uses == current.uses && next.lastUsed == current.lastUsed
         && next.revokedAt == event.at && current.issuedAt <= event.at && current.lastUsed <= event.at
  }

  predicate Commits(h: Hash, config: Config, s: State, id: Name, expectedVersion: nat, next: Record, event: Event,
                    now: int) {
    && 1 <= expectedVersion < MAXIMUM_INTEGER && ValidRecord(h, config, next) && next.id == id
    && MatchesEvent(next, event)
    && id in s.records && s.records[id].version == expectedVersion
    && ValidTransition(s.records[id], next, event, now) && Appendable(config, s.audit, now)
  }

  function CommitPAT(h: Hash, config: Config, s: State, id: Name, expectedVersion: nat, next: Record, event: Event,
                     now: int): State {
    if Commits(h, config, s, id, expectedVersion, next, event, now)
    then State(s.records[id := next], s.audit + [Row(h, s.audit, event, next.version, now)]) else s
  }

  // ----- replay is preserved -----

  ghost predicate SameBase(before: map<Name, Record>, after: map<Name, Record>) {
    forall id | id in before :: id in after && Base(after[id]) == Base(before[id])
  }

  lemma BaseFields(left: Record, right: Record)
    requires Base(left) == Base(right)
    ensures left.id == right.id && left.tenant == right.tenant && left.user == right.user && left.digest == right.digest
    ensures left.scopes == right.scopes && left.issuedAt == right.issuedAt && left.expiresAt == right.expiresAt
  {
    var l, r := Base(left), Base(right);
    assert l.id == left.id && l.tenant == left.tenant && l.user == left.user && l.digest == left.digest;
    assert r.id == right.id && r.tenant == right.tenant && r.user == right.user && r.digest == right.digest;
    assert l.scopes == left.scopes && l.issuedAt == left.issuedAt && l.expiresAt == left.expiresAt;
    assert r.scopes == right.scopes && r.issuedAt == right.issuedAt && r.expiresAt == right.expiresAt;
  }

  lemma {:induction false} ReplayFrame(h: Hash, before: map<Name, Record>, after: map<Name, Record>, audit: seq<Entry>)
    requires SameBase(before, after) && Replay(h, before, audit).Log?
    ensures Replay(h, after, audit) == Replay(h, before, audit)
  {
    hide Linked;
    if audit != [] {
      var entry := audit[|audit| - 1];
      ReplayFrame(h, before, after, audit[..|audit| - 1]);
      assert entry.event.id in before;
      BaseFields(before[entry.event.id], after[entry.event.id]);
    }
  }

  lemma {:induction false} ReplayHead(h: Hash, records: map<Name, Record>, audit: seq<Entry>)
    requires Replay(h, records, audit).Log?
    ensures var log := Replay(h, records, audit);
            && log.head == HeadDigest(audit) && log.committed == HeadTime(audit)
            && (forall id | id in log.seen ::
                id in records && log.seen[id].issued == records[id].issuedAt && log.seen[id].version != 0)
  {
    hide Linked;
    if audit != [] {
      ReplayHead(h, records, audit[..|audit| - 1]);
    }
  }

  lemma ReplayAppend(h: Hash, records: map<Name, Record>, audit: seq<Entry>, row: Entry)
    ensures Replay(h, records, audit + [row]) == Extend(h, records, Replay(h, records, audit), |audit|, row)
  {
    hide Extend;
    assert (audit + [row])[..|audit|] == audit;
  }

  ghost predicate Hashes(h: Hash) {
    forall entry :: h.entry(entry) != NO_NAME
  }

  lemma RowLinked(h: Hash, config: Config, records: map<Name, Record>, audit: seq<Entry>, event: Event, version: nat,
                  now: int)
    requires Hashes(h) && Replay(h, records, audit).Log? && Appendable(config, audit, now) && event.at <= now
    ensures Linked(h, Replay(h, records, audit), |audit|, Row(h, audit, event, version, now))
  {
    hide Replay;
    ReplayHead(h, records, audit);
    var row := Row(h, audit, event, version, now);
    assert row.(digest := NO_NAME) == Entry(|audit| + 1, HeadDigest(audit), NO_NAME, version, now, event);
  }

  lemma CreateRecords(h: Hash, config: Config, s: State, record: Record, event: Event, now: int)
    requires ValidRecords(h, config, s.records) && Creatable(h, config, s, record, event, now)
    ensures ValidRecords(h, config, s.records[record.id := record])
            && SameBase(s.records, s.records[record.id := record])
  {
    hide ValidRecord;
    var after := s.records[record.id := record];
    assert after.Keys == s.records.Keys + {record.id};
    assert |after| == |after.Keys| && |s.records| == |s.records.Keys|;
  }

  lemma MoveRecords(h: Hash, config: Config, records: map<Name, Record>, id: Name, next: Record)
    requires ValidRecords(h, config, records) && id in records && ValidRecord(h, config, next)
             && Base(next) == Base(records[id])
    ensures ValidRecords(h, config, records[id := next]) && SameBase(records, records[id := next])
  {
    hide ValidRecord;
    BaseFields(next, records[id]);
    var after := records[id := next];
    assert after.Keys == records.Keys && |after| == |after.Keys| && |records| == |records.Keys|;
  }

  /** Issuing a token keeps records and log in step. */
  lemma CreateKeepsValid(h: Hash, config: Config, s: State, record: Record, event: Event, now: int)
    requires Hashes(h) && Valid(h, config, s)
    ensures Valid(h, config, CreatePAT(h, config, s, record, event, now))
  {
    hide Linked, Replay, ValidRecords, SameBase, EntryDigest;
    if Creatable(h, config, s, record, event, now) {
      var after := s.records[record.id := record];
      var row := Row(h, s.audit, event, record.version, now);
      CreateRecords(h, config, s, record, event, now);
      ReplayHead(h, s.records, s.audit);
      RowLinked(h, config, s.records, s.audit, event, record.version, now);
      ReplayFrame(h, s.records, after, s.audit);
      ReplayAppend(h, after, s.audit, row);
    }
  }

  /** A use or a revocation keeps records and log in step. */
  lemma CommitKeepsValid(h: Hash, config: Config, s: State, id: Name, expectedVersion: nat, next: Record, event: Event,
                         now: int)
    requires Hashes(h) && Valid(h, config, s)
    ensures Valid(h, config, CommitPAT(h, config, s, id, expectedVersion, next, event, now))
  {
    hide Linked, Replay, ValidRecords, SameBase, EntryDigest, ValidRecord;
    if Commits(h, config, s, id, expectedVersion, next, event, now) {
      var after := s.records[id := next];
      var row := Row(h, s.audit, event, next.version, now);
      MoveRecords(h, config, s.records, id, next);
      BaseFields(next, s.records[id]);
      ReplayHead(h, s.records, s.audit);
      RowLinked(h, config, s.records, s.audit, event, next.version, now);
      ReplayFrame(h, s.records, after, s.audit);
      ReplayAppend(h, after, s.audit, row);
    }
  }

  // ----- runs -----

  datatype Step =
    | CreateStep(record: Record, event: Event, now: int)
    | CommitStep(id: Name, expectedVersion: nat, next: Record, event: Event, now: int)

  ghost function Next(h: Hash, config: Config, s: State, step: Step): State {
    match step
    case CreateStep(record, event, now) => CreatePAT(h, config, s, record, event, now)
    case CommitStep(id, expectedVersion, next, event, now) =>
      CommitPAT(h, config, s, id, expectedVersion, next, event, now)
  }

  ghost function Run(h: Hash, config: Config, steps: seq<Step>): State {
    if steps == [] then State(map[], []) else Next(h, config, Run(h, config, steps[..|steps| - 1]), steps[|steps| - 1])
  }

  /** After any sequence of transactions the records equal the fold of the log. */
  lemma {:induction false} RunValid(h: Hash, config: Config, steps: seq<Step>)
    requires Hashes(h)
    ensures Valid(h, config, Run(h, config, steps))
  {
    hide Valid, CreatePAT, CommitPAT;
    if steps == [] {
      EmptyValid(h, config);
    } else {
      var s := Run(h, config, steps[..|steps| - 1]);
      RunValid(h, config, steps[..|steps| - 1]);
      match steps[|steps| - 1]
      case CreateStep(record, event, now) => CreateKeepsValid(h, config, s, record, event, now);
      case CommitStep(id, expectedVersion, next, event, now) =>
        CommitKeepsValid(h, config, s, id, expectedVersion, next, event, now);
    }
  }

  lemma EmptyValid(h: Hash, config: Config)
    ensures Valid(h, config, State(map[], []))
  {
  }

  // ----- what a valid log says -----

  /** How often the log records this kind of event for the token. */
  function Count(audit: seq<Entry>, id: Name, kind: Kind): nat {
    if audit == [] then 0 else
    Count(audit[..|audit| - 1], id, kind)
      + (if audit[|audit| - 1].event.id == id && audit[|audit| - 1].event.kind == kind then 1 else 0)
  }

  lemma {:induction false} SeenCounts(h: Hash, records: map<Name, Record>, audit: seq<Entry>, id: Name)
    requires Replay(h, records, audit).Log?
    ensures var seen := SeenOf(Replay(h, records, audit).seen, id);
            && seen.uses == Count(audit, id, Used)
            && (seen.revoked != 0 <==> Count(audit, id, Revoked) == 1) && Count(audit, id, Revoked) <= 1
            && (seen.version == 0 <==> Count(audit, id, Issued) == 0) && Count(audit, id, Issued) <= 1
            && seen.version == Count(audit, id, Issued) + Count(audit, id, Used) + Count(audit, id, Revoked)
  {
    hide Linked;
    if audit != [] {
      SeenCounts(h, records, audit[..|audit| - 1], id);
    }
  }

  /** A record's version is one for its issue, one for each use and one for its revocation. */
  lemma VersionCounts(h: Hash, config: Config, s: State, id: Name)
    requires Valid(h, config, s) && id in s.records
    ensures Count(s.audit, id, Issued) == 1 && s.records[id].uses == Count(s.audit, id, Used)
    ensures s.records[id].version == 1 + Count(s.audit, id, Used) + Count(s.audit, id, Revoked)
    ensures s.records[id].revokedAt != 0 <==> Count(s.audit, id, Revoked) == 1
  {
    hide Replay, Count, ValidRecord;
    SeenCounts(h, s.records, s.audit, id);
    assert s.records[id].version != 0 by {
      ReplayHead(h, s.records, s.audit);
    }
  }

  lemma ExtendNeedsLog(h: Hash, records: map<Name, Record>, log: Log, place: nat, entry: Entry)
    requires Extend(h, records, log, place, entry).Log?
    ensures log.Log?
  {
  }

  lemma {:induction false} PrefixReplays(h: Hash, records: map<Name, Record>, audit: seq<Entry>, n: nat)
    requires Replay(h, records, audit).Log? && n <= |audit|
    ensures Replay(h, records, audit[..n]).Log?
  {
    hide Extend;
    if n == |audit| {
      assert audit[..n] == audit;
    } else {
      var front := audit[..|audit| - 1];
      ExtendNeedsLog(h, records, Replay(h, records, front), |front|, audit[|audit| - 1]);
      PrefixReplays(h, records, front, n);
      assert front[..n] == audit[..n];
    }
  }

  lemma {:induction false} CountGrows(audit: seq<Entry>, id: Name, kind: Kind, i: nat, j: nat)
    requires i < j <= |audit| && audit[i].event.id == id && audit[i].event.kind == kind
    ensures 1 <= Count(audit[..j], id, kind)
    decreases j - i
  {
    assert audit[..j][..j - 1] == audit[..j - 1];
    if i < j - 1 {
      CountGrows(audit, id, kind, i, j - 1);
    }
  }

  /** Nothing follows a token's revocation in the log: no use, and no second revocation. */
  lemma NothingAfterRevocation(h: Hash, config: Config, s: State, i: nat, j: nat)
    requires Valid(h, config, s) && i < j < |s.audit|
    requires s.audit[i].event.kind == Revoked
    ensures s.audit[j].event.id != s.audit[i].event.id
  {
    hide Replay, Count, Linked, ValidRecord, ValidRecords;
    var id := s.audit[i].event.id;
    PrefixReplays(h, s.records, s.audit, j);
    PrefixReplays(h, s.records, s.audit, j + 1);
    assert s.audit[..j + 1] == s.audit[..j] + [s.audit[j]];
    ReplayAppend(h, s.records, s.audit[..j], s.audit[j]);
    CountGrows(s.audit, id, Revoked, i, j);
    SeenCounts(h, s.records, s.audit[..j], id);
  }
}
