/** The token store's working state: a slice of records sorted by identifier and a
    slice of audit rows, checked by scanning the one and replaying the other. */
module PatStore {
  import opened Common
  import opened PatLog

  ghost predicate Ordered(records: seq<Record>) {
    forall i, j | 0 <= i < j < |records| :: records[i].id < records[j].id
  }

  ghost predicate Distinct(records: seq<Record>) {
    forall i, j | 0 <= i < j < |records| :: records[i].id != records[j].id
  }

  ghost function ById(records: seq<Record>): map<Name, Record>
    requires Distinct(records)
  {
    map i | 0 <= i < |records| :: records[i].id := records[i]
  }

  lemma OrderedDistinct(records: seq<Record>)
    requires Ordered(records)
    ensures Distinct(records)
  {
  }

  lemma ByIdLast(records: seq<Record>)
    requires Distinct(records) && records != []
    ensures var front, last := records[..|records| - 1], records[|records| - 1];
            Distinct(front) && last.id !in ById(front) && ById(records) == ById(front)[last.id := last]
  {
    var front := records[..|records| - 1];
    assert forall i | 0 <= i < |front| :: front[i] == records[i];
  }

  lemma {:induction false} ByIdCount(records: seq<Record>)
    requires Distinct(records)
    ensures |ById(records)| == |records|
  {
    if records != [] {
      ByIdLast(records);
      hide ById;
      var front, last := records[..|records| - 1], records[|records| - 1];
      ByIdCount(front);
      var before, after := ById(front), ById(records);
      assert after.Keys == before.Keys + {last.id};
      assert |after| == |after.Keys| && |before| == |before.Keys|;
    }
  }

  /** The whole stored state: records in order, and equal to what the log says. */
  ghost predicate ValidDurable(h: Hash, config: Config, records: seq<Record>, audit: seq<Entry>) {
    Ordered(records) && Distinct(records) && Valid(h, config, State(ById(records), audit))
  }

  // ----- validateState -----

  ghost predicate SoundRecords(h: Hash, config: Config, records: seq<Record>) {
    && Ordered(records)
    && (forall i | 0 <= i < |records| :: ValidRecord(h, config, records[i]))
    && (forall i, j | 0 <= i < j < |records| :: records[i].digest != records[j].digest)
  }

  lemma SoundRecordsMap(h: Hash, config: Config, records: seq<Record>)
    requires Ordered(records) && Distinct(records)
    ensures ValidRecords(h, config, ById(records)) <==> |records| <= config.records && SoundRecords(h, config, records)
  {
    hide ValidRecord;
    ByIdCount(records);
    var m := ById(records);
    assert forall i | 0 <= i < |records| :: records[i].id in m && m[records[i].id] == records[i];
    if ValidRecords(h, config, m) {
      forall i, j | 0 <= i < j < |records| ensures records[i].digest != records[j].digest {
        assert records[i].id != records[j].id;
        assert m[records[i].id] == records[i] && m[records[j].id] == records[j];
      }
      forall i | 0 <= i < |records| ensures ValidRecord(h, config, records[i]) {
        assert m[records[i].id] == records[i];
      }
    }
  }

  /** The scan over the records. */
  method CheckRecords(h: Hash, config: Config, records: seq<Record>) returns (ok: bool)
    ensures ok <==> SoundRecords(h, config, records)
  {
    hide ValidRecord;
    var digests: set<Name> := {};
    for i := 0 to |records|
      invariant SoundRecords(h, config, records[..i])
      invariant forall digest :: digest in digests <==> exists j :: 0 <= j < i && records[j].digest == digest
    {
      var record := records[i];
      if !ValidRecord(h, config, record) || record.digest in digests || (i > 0 && record.id <= records[i - 1].id) {
        return false;
      }
      OneMore(h, config, records, i);
      digests := digests + {record.digest};
    }
    assert records[..|records|] == records;
    return true;
  }

  method Index(records: seq<Record>) returns (byId: map<Name, Record>)
    requires Distinct(records)
    ensures byId == ById(records)
  {
    byId := map[];
    for i := 0 to |records|
      invariant byId == ById(records[..i])
    {
      ByIdLast(records[..i + 1]);
      assert records[..i + 1][..i] == records[..i];
      byId := byId[records[i].id := records[i]];
    }
    assert records[..|records|] == records;
  }

  lemma OneMore(h: Hash, config: Config, records: seq<Record>, i: nat)
    requires i < |records| && SoundRecords(h, config, records[..i]) && ValidRecord(h, config, records[i])
    requires forall j | 0 <= j < i :: records[j].digest != records[i].digest
    requires i > 0 ==> records[i - 1].id < records[i].id
    ensures SoundRecords(h, config, records[..i + 1])
    ensures forall j | 0 <= j < i :: records[j].id < records[i].id
  {
    hide ValidRecord;
    var front, more := records[..i], records[..i + 1];
    forall j | 0 <= j < i ensures more[j] == front[j] && more[j].id < more[i].id {
      assert j == i - 1 || front[j].id < front[i - 1].id;
    }
  }

  /** One row of the replay loop. */
  method CheckEntry(h: Hash, records: map<Name, Record>, log: Log, place: nat, entry: Entry) returns (next: Log)
    requires log.Log?
    ensures next == Extend(h, records, log, place, entry)
  {
    hide EntryDigest;
    var event := entry.event;
    if event.id !in records || !MatchesEvent(records[event.id], event) || entry.sequence != place + 1
       || entry.previous != log.head
       || entry.digest == NO_NAME || !ValidTime(entry.committedAt) || entry.committedAt < event.at
       || entry.committedAt < log.committed {
      return Corrupt;
    }
    if EntryDigest(h, entry) != entry.digest {
      return Corrupt;
    }
    var record, history := records[event.id], SeenOf(log.seen, event.id);
    if entry.version != history.version + 1 {
      return Corrupt;
    }
    match event.kind {
      case Issued =>
        if history.version != 0 || event.scope != NO_NAME || event.at != record.issuedAt {
          return Corrupt;
        }
        history := history.(issued := event.at);
      case Used =>
        if history.version == 0 || history.revoked != 0 || event.scope !in record.scopes
           || event.at < history.issued || event.at < history.lastUsed || record.expiresAt <= event.at {
          return Corrupt;
        }
        history := history.(uses := history.uses + 1, lastUsed := event.at);
      case Revoked =>
        if history.version == 0 || history.revoked != 0 || event.scope != NO_NAME || event.at < history.issued
           || event.at < history.lastUsed {
          return Corrupt;
        }
        history := history.(revoked := event.at);
    }
    history := history.(version := history.version + 1);
    return Log(log.seen[event.id := history], entry.digest, entry.committedAt);
  }

  method ReplayRows(h: Hash, records: map<Name, Record>, audit: seq<Entry>) returns (log: Log)
    ensures log == Replay(h, records, audit)
  {
    hide Extend;
    log := Log(map[], NO_NAME, 0);
    for i := 0 to |audit|
      invariant log.Log? && log == Replay(h, records, audit[..i])
    {
      assert audit[..i + 1][..i] == audit[..i];
      log := CheckEntry(h, records, log, i, audit[i]);
      if log.Corrupt? {
        CorruptStays(h, records, audit, i + 1);
        return;
      }
    }
    assert audit[..|audit|] == audit;
  }

  lemma CorruptStays(h: Hash, records: map<Name, Record>, audit: seq<Entry>, n: nat)
    requires n <= |audit| && Replay(h, records, audit[..n]).Corrupt?
    ensures Replay(h, records, audit).Corrupt?
  {
    if Replay(h, records, audit).Log? {
      PrefixReplays(h, records, audit, n);
    }
  }

  ghost predicate AllAgree(records: map<Name, Record>, seen: map<Name, Occurrence>) {
    forall id | id in records :: id in seen && Agrees(records[id], seen[id])
  }

  /** Every record is compared with what the log says about it. */
  method CheckAgreement(records: seq<Record>, seen: map<Name, Occurrence>) returns (ok: bool)
    requires Distinct(records)
    ensures ok <==> AllAgree(ById(records), seen)
  {
    hide Agrees;
    assert forall i | 0 <= i < |records| ::
           records[i].id in ById(records) && ById(records)[records[i].id] == records[i];
    for i := 0 to |records|
      invariant forall j | 0 <= j < i :: records[j].id in seen && Agrees(records[j], seen[records[j].id])
    {
      if records[i].id !in seen || !Agrees(records[i], seen[records[i].id]) {
        return false;
      }
    }
    return true;
  }

  /** The whole check: bounds, records, replay, and records equal to the replay. */
  method ValidateState(h: Hash, config: Config, records: seq<Record>, audit: seq<Entry>) returns (ok: bool)
    ensures ok <==> ValidDurable(h, config, records, audit)
  {
    hide Replay, ValidRecords, SoundRecords;
    var sound := CheckRecords(h, config, records);
    if !sound || |records| > config.records || |audit| > config.entries {
      Unsound(h, config, records, audit);
      return false;
    }
    SoundIsOrdered(h, config, records);
    OrderedDistinct(records);
    SoundRecordsMap(h, config, records);
    var byId := Index(records);
    var log := ReplayRows(h, byId, audit);
    if log.Corrupt? {
      return false;
    }
    ok := CheckAgreement(records, log.seen);
  }

  lemma SoundIsOrdered(h: Hash, config: Config, records: seq<Record>)
    requires SoundRecords(h, config, records)
    ensures Ordered(records)
  {
  }

  lemma Unsound(h: Hash, config: Config, records: seq<Record>, audit: seq<Entry>)
    requires !SoundRecords(h, config, records) || |records| > config.records || |audit| > config.entries
    ensures !ValidDurable(h, config, records, audit)
  {
    hide Replay, ValidRecords, SoundRecords;
    if ValidDurable(h, config, records, audit) {
      SoundRecordsMap(h, config, records);
    }
  }

  // ----- sorting by identifier -----

  ghost predicate Sorted(records: seq<Record>) {
    forall i, j | 0 <= i < j < |records| :: records[i].id <= records[j].id
  }

  /** The slice with one more record at a place. */
  function Splice(records: seq<Record>, place: nat, record: Record): seq<Record>
    requires place <= |records|
  {
    records[..place] + [record] + records[place..]
  }

  lemma SpliceSorted(records: seq<Record>, place: nat, record: Record)
    requires Sorted(records) && place <= |records|
    requires place > 0 ==> records[place - 1].id <= record.id
    requires place < |records| ==> record.id <= records[place].id
    ensures Sorted(Splice(records, place, record))
  {
    var after := Splice(records, place, record);
    forall i, j | 0 <= i < j < |after| ensures after[i].id <= after[j].id {
      if i < place {
        assert after[i] == records[i] && (i == place - 1 || records[i].id <= records[place - 1].id);
      }
      if j > place {
        assert after[j] == records[j - 1] && (j - 1 == place || records[place].id <= records[j - 1].id);
      }
    }
  }

  lemma SpliceContents(records: seq<Record>, place: nat, record: Record)
    requires place <= |records|
    ensures multiset(Splice(records, place, record)) == multiset(records) + multiset{record}
  {
    assert records == records[..place] + records[place..];
  }

  method InsertById(records: seq<Record>, record: Record) returns (sorted: seq<Record>)
    requires Sorted(records)
    ensures Sorted(sorted) && multiset(sorted) == multiset(records) + multiset{record}
  {
    hide Sorted, Splice;
    var place := |records|;
    while place > 0 && record.id < records[place - 1].id
      invariant 0 <= place <= |records|
      invariant place < |records| ==> record.id <= records[place].id
    {
      place := place - 1;
    }
    SpliceSorted(records, place, record);
    SpliceContents(records, place, record);
    sorted := Splice(records, place, record);
  }

  method SortById(records: seq<Record>) returns (sorted: seq<Record>)
    ensures Sorted(sorted) && multiset(sorted) == multiset(records)
  {
    hide Sorted;
    sorted := [];
    NothingSorted();
    for i := 0 to |records|
      invariant Sorted(sorted) && multiset(sorted) == multiset(records[..i])
    {
      assert records[..i + 1] == records[..i] + [records[i]];
      sorted := InsertById(sorted, records[i]);
    }
    assert records[..|records|] == records;
  }

  lemma NothingSorted()
    ensures Sorted([])
  {
  }

  lemma SomewhereIn(records: seq<Record>, other: seq<Record>, i: nat)
    requires multiset(records) == multiset(other) && i < |records|
    ensures records[i] in other
  {
    assert records[i] in multiset(records);
  }

  lemma HalfById(left: seq<Record>, right: seq<Record>)
    requires Distinct(left) && Distinct(right) && forall i | 0 <= i < |left| :: left[i] in right
    ensures forall id | id in ById(left) :: id in ById(right) && ById(right)[id] == ById(left)[id]
  {
    forall id | id in ById(left) ensures id in ById(right) && ById(right)[id] == ById(left)[id] {
      var i :| 0 <= i < |left| && left[i].id == id;
      var j :| 0 <= j < |right| && right[j] == left[i];
      assert right[j].id == id;
    }
  }

  /** Records in another order are the same map. */
  lemma SameById(left: seq<Record>, right: seq<Record>)
    requires Distinct(left) && Distinct(right) && multiset(left) == multiset(right)
    ensures ById(left) == ById(right)
  {
    hide ById;
    forall i | 0 <= i < |left| ensures left[i] in right {
      SomewhereIn(left, right, i);
    }
    forall i | 0 <= i < |right| ensures right[i] in left {
      SomewhereIn(right, left, i);
    }
    HalfById(left, right);
    HalfById(right, left);
  }
}
