/** Which token transactions the store accepts in every reachable state, and what every row of an accepted
    log says. */
module PatDecisions {
  import opened Common
  import opened PatLog

  // ----- transactions -----

  /** There is room for a row, and the clock has not gone back behind the last one. */
  predicate InTime(config: Config, audit: seq<Entry>, now: int) {
    && |audit| < config.entries && 0 < now && now <= LAST_INSTANT
    && (audit != [] ==> audit[|audit| - 1].committedAt <= now)
  }

  /** The log after one more row that seals this event and the row before it. */
  predicate Writes(h: Hash, before: seq<Entry>, after: seq<Entry>, event: Event, version: nat, now: int) {
    && |after| == |before| + 1 && after[..|before|] == before
    && var row := after[|before|];
       && row.sequence == |before| + 1 && row.event == event && row.committedAt == now && row.version == version
       && row.digest == h.entry(row.(digest := NO_NAME))
       && row.previous == (if before == [] then NO_NAME else before[|before| - 1].digest)
  }

  lemma RowWritten(h: Hash, audit: seq<Entry>, event: Event, version: nat, now: int)
    ensures Writes(h, audit, audit + [Row(h, audit, event, version, now)], event, version, now)
  {
    var blank := Entry(|audit| + 1, HeadDigest(audit), NO_NAME, version, now, event);
    var row := Row(h, audit, event, version, now);
    assert row.(digest := NO_NAME) == blank == blank.(digest := NO_NAME);
  }

  /** A token as it may be issued: of this tenant, named after its digest, unused, with sorted scopes and a life of
      at most 366 days that is not over, and a digest and name nobody has. */
  ghost predicate Issuable(h: Hash, config: Config, s: State, record: Record, now: int) {
    && record == Record(h.identify(record.digest), config.tenant, record.user, record.digest, record.scopes,
                        record.issuedAt, record.expiresAt, 0, 0, 0, 1)
    && record.digest != NO_NAME && record.user != NO_NAME
    && 0 < |record.scopes| && |record.scopes| <= 128
    && (forall i | 0 <= i < |record.scopes| :: record.scopes[i] != NO_NAME)
    && (forall i, j | 0 <= i < j < |record.scopes| :: record.scopes[i] < record.scopes[j])
    && 0 < record.issuedAt && record.issuedAt <= now && now < record.expiresAt && record.expiresAt <= LAST_INSTANT
    && record.expiresAt <= record.issuedAt + 366 * 86_400 * 1_000_000_000
    && |s.records| < config.records
    && (forall id | id in s.records :: id != record.id && s.records[id].digest != record.digest)
  }

  /** Exactly the issuable tokens are issued, each with its row. */
  lemma IssueDecided(h: Hash, config: Config, s: State, record: Record, event: Event, now: int)
    ensures var n := Next(h, config, s, CreateStep(record, event, now));
            if && Issuable(h, config, s, record, now) && InTime(config, s.audit, now)
               && event == Event(record.issuedAt, Issued, record.id, record.tenant, record.user, NO_NAME)
            then n.records == s.records[record.id := record] && Writes(h, s.audit, n.audit, event, 1, now)
            else n == s
  {
    hide Row, Writes, Creatable, Issuable, InTime;
    RowWritten(h, s.audit, event, record.version, now);
    IssueExactly(h, config, s, record, event, now);
  }

  lemma IssueExactly(h: Hash, config: Config, s: State, record: Record, event: Event, now: int)
    ensures Creatable(h, config, s, record, event, now)
            <==> && Issuable(h, config, s, record, now) && InTime(config, s.audit, now)
                 && event == Event(record.issuedAt, Issued, record.id, record.tenant, record.user, NO_NAME)
    ensures Creatable(h, config, s, record, event, now) ==> record.version == 1
  {
  }

  /** A live token, presented within its life for a scope it has, at no earlier time than before. */
  predicate Usable(s: State, id: Name, event: Event, now: int) {
    && id in s.records
    && var current := s.records[id];
       && current.revokedAt == 0 && event == Event(event.at, Used, id, current.tenant, current.user, event.scope)
       && event.scope in current.scopes
       && current.issuedAt <= event.at && current.lastUsed <= event.at && event.at <= now && now < current.expiresAt
       && current.uses < MAXIMUM_INTEGER - 2
  }

  /** A live token, at no earlier time than its last use. */
  predicate Revocable(s: State, id: Name, event: Event, now: int) {
    && id in s.records
    && var current := s.records[id];
       && current.revokedAt == 0 && event == Event(event.at, Revoked, id, current.tenant, current.user, NO_NAME)
       && current.issuedAt <= event.at && current.lastUsed <= event.at && event.at <= now
  }

  /** In every reachable state exactly these uses and revocations are committed: computed from the current version,
      of a live token, in order; each changes its own record and adds one row. */
  lemma CommitDecided(h: Hash, config: Config, steps: seq<Step>, id: Name, expectedVersion: nat, next: Record,
                      event: Event, now: int)
    requires Hashes(h)
    ensures var s := Run(h, config, steps);
            var n := Next(h, config, s, CommitStep(id, expectedVersion, next, event, now));
            if && InTime(config, s.audit, now)
               && (|| (&& Usable(s, id, event, now) && expectedVersion == s.records[id].version
                       && next == s.records[id].(uses := s.records[id].uses + 1, lastUsed := event.at,
                                                 version := expectedVersion + 1))
                   || (&& Revocable(s, id, event, now) && expectedVersion == s.records[id].version
                       && next == s.records[id].(revokedAt := event.at, version := expectedVersion + 1)))
            then && n.records == s.records[id := next]
                 && Writes(h, s.audit, n.audit, event, expectedVersion + 1, now)
            else n == s
  {
    hide Run, Row, Writes, Replay, Valid;
    var s := Run(h, config, steps);
    RunValid(h, config, steps);
    RowWritten(h, s.audit, event, next.version, now);
    if id in s.records {
      RecordIsValid(h, config, s, id);
      hide ValidRecord, ValidTransition, Usable, Revocable;
      UseExactly(h, config, s, id, expectedVersion, next, event, now);
      RevokeExactly(h, config, s, id, expectedVersion, next, event, now);
    }
  }

  lemma RecordIsValid(h: Hash, config: Config, s: State, id: Name)
    requires Valid(h, config, s) && id in s.records
    ensures ValidRecord(h, config, s.records[id]) && s.records[id].id == id
  {
    hide ValidRecord, Replay;
  }

  /** A record is its fixed fields and the four that move. */
  lemma FromBase(current: Record, next: Record)
    ensures Base(next) == Base(current)
            <==> next == current.(revokedAt := next.revokedAt, lastUsed := next.lastUsed, uses := next.uses,
                                  version := next.version)
  {
    var moved := current.(revokedAt := next.revokedAt, lastUsed := next.lastUsed, uses := next.uses,
                          version := next.version);
    assert Base(moved) == Base(current);
    assert next == Base(next).(revokedAt := next.revokedAt, lastUsed := next.lastUsed, uses := next.uses,
                               version := next.version);
    assert moved == Base(current).(revokedAt := next.revokedAt, lastUsed := next.lastUsed, uses := next.uses,
                                   version := next.version);
  }

  lemma UseExactly(h: Hash, config: Config, s: State, id: Name, expectedVersion: nat, next: Record, event: Event,
                   now: int)
    requires id in s.records && ValidRecord(h, config, s.records[id]) && s.records[id].id == id
    ensures event.kind == Used ==>
              (Commits(h, config, s, id, expectedVersion, next, event, now)
               <==> && InTime(config, s.audit, now) && Usable(s, id, event, now)
                    && expectedVersion == s.records[id].version
                    && next == s.records[id].(uses := s.records[id].uses + 1, lastUsed := event.at,
                                              version := expectedVersion + 1))
  {
    FromBase(s.records[id], next);
  }

  lemma RevokeExactly(h: Hash, config: Config, s: State, id: Name, expectedVersion: nat, next: Record, event: Event,
                      now: int)
    requires id in s.records && ValidRecord(h, config, s.records[id]) && s.records[id].id == id
    ensures event.kind == Revoked ==>
              (Commits(h, config, s, id, expectedVersion, next, event, now)
               <==> && InTime(config, s.audit, now) && Revocable(s, id, event, now)
                    && expectedVersion == s.records[id].version
                    && next == s.records[id].(revokedAt := event.at, version := expectedVersion + 1))
  {
    FromBase(s.records[id], next);
  }

  // ----- what an accepted log says -----

  /** The row stands where it says, seals what it holds and the row before it, and time does not run back. */
  predicate Sealed(h: Hash, audit: seq<Entry>, k: nat)
    requires k < |audit|
  {
    var row := audit[k];
    && row.sequence == k + 1 && row.previous == (if k == 0 then NO_NAME else audit[k - 1].digest)
    && row.digest != NO_NAME && row.digest == h.entry(row.(digest := NO_NAME))
    && 0 < row.event.at && row.event.at <= row.committedAt && row.committedAt <= LAST_INSTANT
    && (k > 0 ==> audit[k - 1].committedAt <= row.committedAt)
  }

  predicate Tells(audit: seq<Entry>, j: int, id: Name, kind: Kind) {
    0 <= j < |audit| && audit[j].event.id == id && audit[j].event.kind == kind
  }

  /** The row is of a stored token and numbered by the rows of that token before it: its issue comes first and once;
      a use is for a scope of the token, within its life and not before an earlier use; nothing follows a revocation. */
  ghost predicate Told(records: map<Name, Record>, audit: seq<Entry>, k: nat)
    requires k < |audit|
  {
    var row, before := audit[k], audit[..k];
    var id := row.event.id;
    && id in records && row.event.tenant == records[id].tenant && row.event.user == records[id].user
    && row.version == 1 + Count(before, id, Issued) + Count(before, id, Used) + Count(before, id, Revoked)
    && (forall j :: !Tells(before, j, id, Revoked))
    && (row.event.kind == Issued <==> forall j :: !Tells(before, j, id, Issued))
    && (row.event.kind == Issued ==> row.event.at == records[id].issuedAt)
    && (row.event.kind != Issued ==>
          && records[id].issuedAt <= row.event.at
          && (forall j | Tells(before, j, id, Used) :: before[j].event.at <= row.event.at))
    && (if row.event.kind == Used then row.event.scope in records[id].scopes && row.event.at < records[id].expiresAt
        else row.event.scope == NO_NAME)
  }

  /** Every row of a log the loader accepts is sealed and tells a possible story of its token. */
  lemma RowsAccounted(h: Hash, records: map<Name, Record>, audit: seq<Entry>, k: nat)
    requires Replay(h, records, audit).Log? && k < |audit|
    ensures Sealed(h, audit, k) && Told(records, audit, k)
  {
    hide Replay, Extend, Sealed, Told, Count, Tells;
    var id := audit[k].event.id;
    PrefixReplays(h, records, audit, k);
    PrefixReplays(h, records, audit, k + 1);
    assert audit[..k + 1] == audit[..k] + [audit[k]];
    ReplayAppend(h, records, audit[..k], audit[k]);
    ReplayHead(h, records, audit[..k]);
    SeenCounts(h, records, audit[..k], id);
    SeenLast(h, records, audit[..k], id);
    RowSealed(h, records, Replay(h, records, audit[..k]), audit, k);
    RowTold(h, records, Replay(h, records, audit[..k]), audit, k);
  }

  /** The fold remembers the latest use. */
  lemma {:induction false} SeenLast(h: Hash, records: map<Name, Record>, audit: seq<Entry>, id: Name)
    requires Replay(h, records, audit).Log?
    ensures var seen := SeenOf(Replay(h, records, audit).seen, id);
            forall j | Tells(audit, j, id, Used) :: audit[j].event.at <= seen.lastUsed
  {
    hide Linked;
    if audit != [] {
      SeenLast(h, records, audit[..|audit| - 1], id);
      assert forall j | Tells(audit, j, id, Used) && j < |audit| - 1 :: Tells(audit[..|audit| - 1], j, id, Used);
    }
  }

  lemma {:induction false} CountTells(audit: seq<Entry>, id: Name, kind: Kind)
    ensures Count(audit, id, kind) == 0 <==> forall j :: !Tells(audit, j, id, kind)
  {
    if audit != [] {
      var front := audit[..|audit| - 1];
      CountTells(front, id, kind);
      assert Tells(audit, |audit| - 1, id, kind)
             <==> audit[|audit| - 1].event.id == id && audit[|audit| - 1].event.kind == kind;
      assert forall j | Tells(front, j, id, kind) :: Tells(audit, j, id, kind);
      assert forall j | Tells(audit, j, id, kind) :: j == |audit| - 1 || Tells(front, j, id, kind);
    }
  }

  lemma RowSealed(h: Hash, records: map<Name, Record>, log: Log, audit: seq<Entry>, k: nat)
    requires k < |audit| && log.Log? && Extend(h, records, log, k, audit[k]).Log?
    requires log.head == HeadDigest(audit[..k]) && log.committed == HeadTime(audit[..k])
    ensures Sealed(h, audit, k)
  {
    hide Follows;
  }

  lemma RowTold(h: Hash, records: map<Name, Record>, log: Log, audit: seq<Entry>, k: nat)
    requires k < |audit| && log.Log? && Extend(h, records, log, k, audit[k]).Log?
    requires var before, id := audit[..k], audit[k].event.id;
             var seen := SeenOf(log.seen, id);
             && (seen.revoked != 0 <==> Count(before, id, Revoked) == 1) && Count(before, id, Revoked) <= 1
             && (seen.version == 0 <==> Count(before, id, Issued) == 0)
             && seen.version == Count(before, id, Issued) + Count(before, id, Used) + Count(before, id, Revoked)
             && (forall j | Tells(before, j, id, Used) :: before[j].event.at <= seen.lastUsed)
             && (id in log.seen ==> id in records && log.seen[id].issued == records[id].issuedAt)
    ensures Told(records, audit, k)
  {
    hide Linked, Count, Tells;
    CountTells(audit[..k], audit[k].event.id, Issued);
    CountTells(audit[..k], audit[k].event.id, Revoked);
  }

  /** In every reachable state the store keeps to its limits, no two tokens share a digest, and every record is named
      after its digest, belongs to the tenant and was last used within its life. */
  lemma RunBounded(h: Hash, config: Config, steps: seq<Step>)
    requires Hashes(h)
    ensures var s := Run(h, config, steps);
            && |s.records| <= config.records && |s.audit| <= config.entries
            && (forall id, other | id in s.records && other in s.records
                                   && s.records[id].digest == s.records[other].digest :: id == other)
            && (forall id | id in s.records ::
                  && id == h.identify(s.records[id].digest) && s.records[id].tenant == config.tenant
                  && (s.records[id].uses == 0 <==> s.records[id].lastUsed == 0)
                  && s.records[id].lastUsed < s.records[id].expiresAt
                  && (s.records[id].revokedAt != 0 ==> s.records[id].lastUsed <= s.records[id].revokedAt))
  {
    hide Run, Replay;
    RunValid(h, config, steps);
  }
}
