/** The token store over its durable bytes: every transaction decodes and re-checks
    the whole state, applies one change, and writes the re-encoded state back. */
module PatDatabase {
  import opened Common
  import opened PatLog
  import opened PatStore
  import opened PatCodec
  import CanonicalForm
  import Codec = Canonical

  type Octets = CanonicalForm.Octets

  /** The library functions and the configuration of one store. */
  datatype Environment = Environment(u: CanonicalForm.Unicode, c: Spelling, h: Hash, config: Config, stateBytes: nat) {
    ghost predicate Lawful() {
      && u.Lawful() && c.Lawful(u) && AsciiIsNormal(u) && Hashes(h)
      && config.entries <= ENTRIES_LIMIT && stateBytes <= STATE_BYTES_LIMIT
    }

    function Bounds(): CanonicalForm.Limits {
      CanonicalForm.Limits(12, stateBytes, 1_000_000)
    }
  }

  datatype Saving = Saved(bytes: Octets) | InvalidState | TooLarge

  datatype Loading = Loaded(records: seq<Record>, audit: seq<Entry>) | CorruptState | OverCapacity

  /** These bytes are the stored form of this state. */
  ghost predicate Stores(env: Environment, records: seq<Record>, audit: seq<Entry>, bytes: Octets) {
    && ValidDurable(env.h, env.config, records, audit)
    && Codec.Encodes(env.u, PrintState(env.c, env.config.tenant, records, audit), env.Bounds(), bytes)
  }

  method EncodeState(env: Environment, records: seq<Record>, audit: seq<Entry>)
    returns (saving: Saving, sorted: seq<Record>)
    requires env.Lawful()
    ensures Sorted(sorted) && multiset(sorted) == multiset(records)
    ensures saving.Saved? ==> Stores(env, sorted, audit, saving.bytes)
    ensures saving.InvalidState? <==> !ValidDurable(env.h, env.config, sorted, audit)
    ensures saving.TooLarge? ==> forall bytes :: !Stores(env, sorted, audit, bytes)
  {
    hide Sorted, ValidDurable, Codec.Within, CanonicalForm.Encodable, CanonicalForm.Normal, CanonicalForm.Canonical,
         PrintState, AllWritable, CanonicalForm.Bytes;
    sorted := SortById(records);
    var valid := ValidateState(env.h, env.config, sorted, audit);
    if !valid {
      return InvalidState, sorted;
    }
    var value := PrintState(env.c, env.config.tenant, sorted, audit);
    ValidIsWritable(env.h, env.config, sorted, audit);
    StatePrinted(env.u, env.c, env.config.tenant, sorted, audit);
    CanonicalForm.CanonicalIsNormal(env.u, value);
    var encoding := Codec.Encode(env.u, value, env.Bounds());
    if encoding.NotEncoded? {
      return TooLarge, sorted;
    }
    return Saved(encoding.bytes), sorted;
  }

  /** Two states with the same stored form are the same. */
  lemma StoredOnce(env: Environment, bytes: Octets, records: seq<Record>, audit: seq<Entry>, otherRecords: seq<Record>,
                   otherAudit: seq<Entry>)
    requires env.Lawful() && Stores(env, records, audit, bytes) && Stores(env, otherRecords, otherAudit, bytes)
    ensures records == otherRecords && audit == otherAudit
  {
    hide ValidDurable, PrintState, Codec.Encodes, AllWritable, CanonicalForm.Canonical, StateRead;
    ValidIsWritable(env.h, env.config, records, audit);
    ValidIsWritable(env.h, env.config, otherRecords, otherAudit);
    var value := PrintState(env.c, env.config.tenant, records, audit);
    var other := PrintState(env.c, env.config.tenant, otherRecords, otherAudit);
    Codec.EncodesOnce(env.u, env.Bounds(), bytes, value, other);
    StatePrinted(env.u, env.c, env.config.tenant, records, audit);
    StatePrinted(env.u, env.c, env.config.tenant, otherRecords, otherAudit);
    ReadOnce(env.c, env.config.tenant, value, records, audit, otherRecords, otherAudit);
  }

  lemma ReadOnce(c: Spelling, tenant: Name, value: CanonicalForm.Value, records: seq<Record>, audit: seq<Entry>,
                 otherRecords: seq<Record>, otherAudit: seq<Entry>)
    requires StateRead(c, tenant, value, records, audit) && StateRead(c, tenant, value, otherRecords, otherAudit)
    ensures records == otherRecords && audit == otherAudit
  {
    hide ReadRecord, ReadEntry, Exact;
    forall i | 0 <= i < |records| ensures records[i] == otherRecords[i] {
      assert GoodRecord(records[i]) == GoodRecord(otherRecords[i]);
    }
    forall i | 0 <= i < |audit| ensures audit[i] == otherAudit[i] {
      assert GoodEntry(audit[i]) == GoodEntry(otherAudit[i]);
    }
  }

  method ReadRecords(c: Spelling, values: seq<CanonicalForm.Value>) returns (ok: bool, records: seq<Record>)
    ensures ok ==> RecordsRead(c, values, records)
    ensures !ok ==> forall others :: !RecordsRead(c, values, others)
  {
    hide ReadRecord;
    records := [];
    for i := 0 to |values|
      invariant RecordsRead(c, values[..i], records)
    {
      var read := ReadRecord(c, values[i]);
      if read.BadRecord? {
        return false, records;
      }
      records := records + [read.record];
    }
    assert values[..|values|] == values;
    return true, records;
  }

  method ReadEntries(c: Spelling, values: seq<CanonicalForm.Value>) returns (ok: bool, audit: seq<Entry>)
    ensures ok ==> EntriesRead(c, values, audit)
    ensures !ok ==> forall others :: !EntriesRead(c, values, others)
  {
    hide ReadEntry;
    audit := [];
    for i := 0 to |values|
      invariant EntriesRead(c, values[..i], audit)
    {
      var read := ReadEntry(c, values[i]);
      if read.BadEntry? {
        return false, audit;
      }
      audit := audit + [read.entry];
    }
    assert values[..|values|] == values;
    return true, audit;
  }

  /** Reads the fields of a stored value, without the replay. */
  method ReadState(c: Spelling, config: Config, value: CanonicalForm.Value)
    returns (ok: bool, records: seq<Record>, audit: seq<Entry>)
    ensures ok ==> StateRead(c, config.tenant, value, records, audit)
    ensures !ok ==> forall rs, es | |rs| <= config.records && |es| <= config.entries ::
            !StateRead(c, config.tenant, value, rs, es)
  {
    hide RecordsRead, EntriesRead, Exact;
    records, audit := [], [];
    if !Exact(StateNames(), value) {
      return false, records, audit;
    }
    var f := Fields(StateNames(), value);
    if f[0] != CanonicalForm.Number(1) || f[1] != CanonicalForm.Text(c.text(config.tenant)) || !f[2].List?
       || !f[3].List? {
      return false, records, audit;
    }
    if |f[2].items| > config.records || |f[3].items| > config.entries {
      ReadLengths(c, f[2].items, f[3].items);
      return false, records, audit;
    }
    ok, records := ReadRecords(c, f[2].items);
    if !ok {
      return false, records, audit;
    }
    ok, audit := ReadEntries(c, f[3].items);
    if !ok {
      return false, records, audit;
    }
    if f[4] != CanonicalForm.Number(|audit|) || f[5] != CanonicalForm.Text(c.digestText(HeadDigest(audit))) {
      ReadUnique(c, f[3].items, audit);
      return false, records, audit;
    }
    return true, records, audit;
  }

  lemma ReadLengths(c: Spelling, records: seq<CanonicalForm.Value>, audit: seq<CanonicalForm.Value>)
    ensures forall rs | RecordsRead(c, records, rs) :: |rs| == |records|
    ensures forall es | EntriesRead(c, audit, es) :: |es| == |audit|
  {
  }

  lemma ReadUnique(c: Spelling, values: seq<CanonicalForm.Value>, audit: seq<Entry>)
    requires EntriesRead(c, values, audit)
    ensures forall es | EntriesRead(c, values, es) :: es == audit
  {
    hide ReadEntry;
    forall es | EntriesRead(c, values, es) ensures es == audit {
      forall i | 0 <= i < |es| ensures es[i] == audit[i] {
        assert GoodEntry(es[i]) == GoodEntry(audit[i]);
      }
    }
  }

  method DecodeState(env: Environment, bytes: Octets) returns (loading: Loading)
    requires env.Lawful()
    ensures bytes == [] ==> loading == Loaded([], [])
    ensures bytes != [] && loading.Loaded? ==> Stores(env, loading.records, loading.audit, bytes)
    ensures bytes != [] && !loading.Loaded? ==> forall records, audit :: !Stores(env, records, audit, bytes)
  {
    hide ValidDurable, PrintState, Codec.Within, CanonicalForm.Canonical, AllWritable, StateRead, CanonicalForm.Bytes;
    if bytes == [] {
      return Loaded([], []);
    }
    if |bytes| > env.stateBytes {
      LargeIsNot(env, bytes);
      return OverCapacity;
    }
    var outcome := Codec.Decode(env.u, bytes, env.Bounds());
    if outcome.Failure? {
      return CorruptState;
    }
    var ok, records, audit := ReadState(env.c, env.config, outcome.value);
    if !ok {
      Unread(env, bytes, outcome.value);
      return CorruptState;
    }
    EncodedIsCanonical(env, outcome.value, bytes);
    StateReadBack(env.u, env.c, env.config.tenant, outcome.value, records, audit);
    ok := ValidateState(env.h, env.config, records, audit);
    if !ok {
      OnlyReading(env, bytes, outcome.value, records, audit);
      return CorruptState;
    }
    return Loaded(records, audit);
  }

  lemma EncodedIsCanonical(env: Environment, value: CanonicalForm.Value, bytes: Octets)
    requires Codec.Encodes(env.u, value, env.Bounds(), bytes)
    ensures CanonicalForm.Canonical(env.u, value)
  {
    hide CanonicalForm.Canonical, CanonicalForm.Bytes;
  }

  lemma LargeIsNot(env: Environment, bytes: Octets)
    requires |bytes| > env.stateBytes
    ensures forall records, audit :: !Stores(env, records, audit, bytes)
  {
    hide ValidDurable, PrintState, CanonicalForm.Canonical, CanonicalForm.Bytes;
  }

  /** A state with this stored form would have been read. */
  lemma StoredIsRead(env: Environment, bytes: Octets, value: CanonicalForm.Value, records: seq<Record>,
                     audit: seq<Entry>)
    requires env.Lawful() && Codec.Encodes(env.u, value, env.Bounds(), bytes) && Stores(env, records, audit, bytes)
    ensures StateRead(env.c, env.config.tenant, value, records, audit) && |records| <= env.config.records
            && |audit| <= env.config.entries
  {
    hide PrintState, Codec.Encodes, AllWritable, CanonicalForm.Canonical, StateRead, Replay;
    ValidIsWritable(env.h, env.config, records, audit);
    Codec.EncodesOnce(env.u, env.Bounds(), bytes, value, PrintState(env.c, env.config.tenant, records, audit));
    StatePrinted(env.u, env.c, env.config.tenant, records, audit);
    ByIdCount(records);
  }

  lemma Unread(env: Environment, bytes: Octets, value: CanonicalForm.Value)
    requires env.Lawful() && Codec.Encodes(env.u, value, env.Bounds(), bytes)
    requires forall rs, es | |rs| <= env.config.records && |es| <= env.config.entries ::
             !StateRead(env.c, env.config.tenant, value, rs, es)
    ensures forall records, audit :: !Stores(env, records, audit, bytes)
  {
    hide Stores, StateRead, Codec.Encodes;
    forall records, audit ensures !Stores(env, records, audit, bytes) {
      if Stores(env, records, audit, bytes) {
        StoredIsRead(env, bytes, value, records, audit);
      }
    }
  }

  lemma OnlyReading(env: Environment, bytes: Octets, value: CanonicalForm.Value, records: seq<Record>,
                    audit: seq<Entry>)
    requires env.Lawful() && Codec.Encodes(env.u, value, env.Bounds(), bytes)
    requires StateRead(env.c, env.config.tenant, value, records, audit)
             && !ValidDurable(env.h, env.config, records, audit)
    ensures forall rs, es :: !Stores(env, rs, es, bytes)
  {
    hide Codec.Encodes, StateRead, ValidDurable, PrintState;
    forall rs, es ensures !Stores(env, rs, es, bytes) {
      if Stores(env, rs, es, bytes) {
        StoredIsRead(env, bytes, value, rs, es);
        ReadOnce(env.c, env.config.tenant, value, records, audit, rs, es);
      }
    }
  }

  /** Loading what was saved restores the state, with its records in order. */
  method SaveThenLoad(env: Environment, records: seq<Record>, audit: seq<Entry>)
    returns (saving: Saving, loading: Loading)
    requires env.Lawful()
    ensures saving.Saved? ==>
              && loading.Loaded? && loading.audit == audit && multiset(loading.records) == multiset(records)
              && Ordered(loading.records) && ValidDurable(env.h, env.config, loading.records, audit)
  {
    hide Sorted, PrintState, Codec.Encodes, Valid;
    var sorted;
    saving, sorted := EncodeState(env, records, audit);
    if !saving.Saved? {
      return saving, CorruptState;
    }
    StoredIsNotEmpty(env, sorted, audit, saving.bytes);
    loading := DecodeState(env, saving.bytes);
    StoredOnce(env, saving.bytes, loading.records, loading.audit, sorted, audit);
  }

  /** Saving what was loaded gives back exactly the bytes. */
  method LoadThenSave(env: Environment, bytes: Octets) returns (loading: Loading, saving: Saving)
    requires env.Lawful() && bytes != []
    ensures loading.Loaded? ==> saving == Saved(bytes)
  {
    hide PrintState, Codec.Within, Valid, CanonicalForm.Bytes;
    loading := DecodeState(env, bytes);
    if !loading.Loaded? {
      return loading, InvalidState;
    }
    var sorted;
    saving, sorted := EncodeState(env, loading.records, loading.audit);
    SortedOnce(loading.records, sorted);
  }

  lemma StoredIsNotEmpty(env: Environment, records: seq<Record>, audit: seq<Entry>, bytes: Octets)
    requires Stores(env, records, audit, bytes)
    ensures bytes != []
  {
    hide ValidDurable, StateFields, CanonicalForm.Canonical, CanonicalForm.EntryBytes, CanonicalForm.Ascending;
  }

  /** A sorted permutation of strictly ordered records is those records. */
  lemma {:induction false} SortedOnce(records: seq<Record>, sorted: seq<Record>)
    requires Ordered(records) && Sorted(sorted) && multiset(sorted) == multiset(records)
    ensures sorted == records
    decreases |records|
  {
    assert |multiset(sorted)| == |sorted| && |multiset(records)| == |records|;
    if records != [] {
      LeastFirst(records, sorted);
      assert records == [records[0]] + records[1..] && sorted == [sorted[0]] + sorted[1..];
      assert multiset(records[1..]) == multiset(records) - multiset{records[0]};
      assert multiset(sorted[1..]) == multiset(sorted) - multiset{sorted[0]};
      SortedOnce(records[1..], sorted[1..]);
    }
  }

  lemma LeastFirst(records: seq<Record>, sorted: seq<Record>)
    requires Ordered(records) && Sorted(sorted) && multiset(sorted) == multiset(records) && records != []
             && sorted != []
    ensures sorted[0] == records[0]
  {
    SomewhereIn(sorted, records, 0);
    SomewhereIn(records, sorted, 0);
    var i :| 0 <= i < |records| && records[i] == sorted[0];
    var j :| 0 <= j < |sorted| && sorted[j] == records[0];
    assert sorted[0].id <= records[0].id;
    assert forall k | 0 < k < |records| :: records[0].id < records[k].id;
  }

  // ----- the store -----

  datatype Refusal = InvalidCredential | Conflict | NotFound | VersionConflict | Full | Unavailable

  datatype Reply = Committed | Refused(why: Refusal)

  class Store {
    const env: Environment
    var bytes: Octets
    ghost var records: seq<Record>
    ghost var audit: seq<Entry>

    ghost predicate Valid()
      reads this
    {
      && env.Lawful()
      && (if bytes == [] then records == [] && audit == [] else Stores(env, records, audit, bytes))
    }

    ghost function View(): State
      requires Valid()
      reads this
    {
      ValidStored(env, records, audit, bytes);
      State(ById(records), audit)
    }

    constructor (env: Environment)
      requires env.Lawful()
      ensures Valid() && View() == State(map[], [])
    {
      this.env := env;
      bytes, records, audit := [], [], [];
    }

    /** The state a transaction starts from. */
    method Load() returns (loaded: seq<Record>, rows: seq<Entry>)
      requires Valid()
      ensures loaded == records && rows == audit
    {
      hide Stores;
      var loading := DecodeState(env, bytes);
      if bytes != [] {
        StoredOnce(env, bytes, loading.records, loading.audit, records, audit);
      }
      return loading.records, loading.audit;
    }

    /** The end of a transaction that changed something: nothing is written unless the new state is valid and fits. */
    method Save(next: seq<Record>, rows: seq<Entry>) returns (reply: Reply)
      requires Valid() && Distinct(next) && PatLog.Valid(env.h, env.config, State(ById(next), rows))
      modifies this
      ensures Valid()
      ensures reply.Committed? ==> View() == State(ById(next), rows)
      ensures !reply.Committed? ==> reply == Refused(Full) && View() == old(View()) && bytes == old(bytes)
    {
      hide Sorted, PrintState, Codec.Encodes, PatLog.Valid, ById;
      var saving, sorted := EncodeState(env, next, rows);
      if !saving.Saved? {
        return Refused(Full);
      }
      StoredIsNotEmpty(env, sorted, rows, saving.bytes);
      SameById(sorted, next);
      bytes, records, audit := saving.bytes, sorted, rows;
      return Committed;
    }

    method CreatePAT(record: Record, event: Event, now: int) returns (reply: Reply)
      requires Valid()
      modifies this
      ensures Valid()
      ensures reply.Committed? ==> Creatable(env.h, env.config, old(View()), record, event, now)
      ensures reply.Committed? ==> View() == PatLog.CreatePAT(env.h, env.config, old(View()), record, event, now)
      ensures reply.Refused? ==> View() == old(View()) && bytes == old(bytes)
      ensures reply.Refused? && reply.why != Full ==> !Creatable(env.h, env.config, old(View()), record, event, now)
    {
      hide Stores, Row, PatLog.Valid, Creatable, ById, Issuable, TakenIn, PatLog.CreatePAT;
      ValidStored(env, records, audit, bytes);
      CreatableIs(env, records, audit, record, event, now);
      if !Issuable(env.h, env.config, record, event) {
        return Refused(InvalidCredential);
      }
      var current, rows := Load();
      if !ValidTime(now) || now < event.at || record.expiresAt <= now {
        return Refused(InvalidCredential);
      }
      var taken := Taken(current, record);
      if taken {
        return Refused(Conflict);
      }
      if |current| >= env.config.records || |rows| >= env.config.entries {
        return Refused(Full);
      }
      if now < HeadTime(rows) {
        return Refused(Unavailable);
      }
      CreatesRow(env, records, audit, record, event, now);
      reply := Save(current + [record], rows + [Row(env.h, rows, event, record.version, now)]);
    }

    method CommitPAT(id: Name, expectedVersion: nat, next: Record, event: Event, now: int) returns (reply: Reply)
      requires Valid()
      modifies this
      ensures Valid()
      ensures reply.Committed? ==> Commits(env.h, env.config, old(View()), id, expectedVersion, next, event, now)
      ensures reply.Committed?
              ==> View() == PatLog.CommitPAT(env.h, env.config, old(View()), id, expectedVersion, next, event, now)
      ensures reply.Refused? ==> View() == old(View()) && bytes == old(bytes)
      ensures reply.Refused? && reply.why != Full
              ==> !Commits(env.h, env.config, old(View()), id, expectedVersion, next, event, now)
    {
      hide Stores, Row, PatLog.Valid, Commits, ById, ValidTransition, Presentable, PatLog.CommitPAT;
      ValidStored(env, records, audit, bytes);
      CommitsIs(env, records, audit, id, expectedVersion, next, event, now);
      if !Presentable(env.h, env.config, id, expectedVersion, next, event) {
        return Refused(InvalidCredential);
      }
      var current, rows := Load();
      var index := Find(current, id);
      if index < 0 {
        return Refused(NotFound);
      }
      if current[index].version != expectedVersion {
        return Refused(VersionConflict);
      }
      if !ValidTransition(current[index], next, event, now) {
        return Refused(InvalidCredential);
      }
      if |rows| >= env.config.entries {
        return Refused(Full);
      }
      if !ValidTime(now) || now < HeadTime(rows) {
        return Refused(Unavailable);
      }
      CommitsRow(env, records, audit, index, expectedVersion, next, event, now);
      reply := Save(current[index := next], rows + [Row(env.h, rows, event, next.version, now)]);
    }
  }

  predicate Issuable(h: Hash, config: Config, record: Record, event: Event) {
    && ValidRecord(h, config, record) && record.version == 1 && record.uses == 0 && record.revokedAt == 0
    && record.lastUsed == 0
    && MatchesEvent(record, event) && event.kind == Issued && event.scope == NO_NAME && event.at == record.issuedAt
  }

  ghost predicate TakenIn(records: seq<Record>, record: Record) {
    exists i :: 0 <= i < |records| && (records[i].id == record.id || records[i].digest == record.digest)
  }

  /** Whether a record's identifier or digest is in use. */
  method Taken(records: seq<Record>, record: Record) returns (taken: bool)
    ensures taken <==> TakenIn(records, record)
  {
    for i := 0 to |records|
      invariant forall j | 0 <= j < i :: records[j].id != record.id && records[j].digest != record.digest
    {
      if records[i].id == record.id || records[i].digest == record.digest {
        return true;
      }
    }
    return false;
  }

  lemma TakenInMap(records: seq<Record>, record: Record)
    requires Distinct(records)
    ensures TakenIn(records, record)
            <==> record.id in ById(records)
                 || exists id :: id in ById(records) && ById(records)[id].digest == record.digest
  {
    if i :| 0 <= i < |records| && records[i].digest == record.digest {
      assert ById(records)[records[i].id] == records[i];
    }
  }

  /** The checks of CreatePAT, on the slice, are exactly its precondition on the map. */
  lemma CreatableIs(env: Environment, records: seq<Record>, audit: seq<Entry>, record: Record, event: Event, now: int)
    requires Distinct(records)
    ensures Creatable(env.h, env.config, State(ById(records), audit), record, event, now)
            <==> && Issuable(env.h, env.config, record, event)
                 && event.at <= now < record.expiresAt && !TakenIn(records, record)
                 && |records| < env.config.records && Appendable(env.config, audit, now)
  {
    hide ById, TakenIn, ValidRecord, MatchesEvent, Appendable;
    TakenInMap(records, record);
    ByIdCount(records);
  }

  lemma CreatesRow(env: Environment, records: seq<Record>, audit: seq<Entry>, record: Record, event: Event, now: int)
    requires Hashes(env.h) && Distinct(records) && PatLog.Valid(env.h, env.config, State(ById(records), audit))
    requires Creatable(env.h, env.config, State(ById(records), audit), record, event, now)
    ensures Distinct(records + [record])
    ensures var s := State(ById(records + [record]), audit + [Row(env.h, audit, event, record.version, now)]);
            PatLog.Valid(env.h, env.config, s)
              && s == PatLog.CreatePAT(env.h, env.config, State(ById(records), audit), record, event, now)
  {
    hide ById, PatLog.Valid, Row, ValidRecord;
    TakenInMap(records, record);
    CreateKeepsValid(env.h, env.config, State(ById(records), audit), record, event, now);
    OneMoreById(records, record);
  }

  lemma OneMoreById(records: seq<Record>, record: Record)
    requires Distinct(records) && !TakenIn(records, record)
    ensures Distinct(records + [record]) && ById(records + [record]) == ById(records)[record.id := record]
  {
    hide ById;
    var all := records + [record];
    ByIdLast(all);
    assert all[..|all| - 1] == records;
  }

  predicate Presentable(h: Hash, config: Config, id: Name, expectedVersion: nat, next: Record, event: Event) {
    1 <= expectedVersion < MAXIMUM_INTEGER && ValidRecord(h, config, next) && next.id == id && MatchesEvent(next, event)
  }

  method Find(records: seq<Record>, id: Name) returns (index: int)
    ensures -1 <= index < |records|
    ensures index >= 0 ==> records[index].id == id
    ensures index < 0 ==> forall i | 0 <= i < |records| :: records[i].id != id
  {
    for i := 0 to |records|
      invariant forall j | 0 <= j < i :: records[j].id != id
    {
      if records[i].id == id {
        return i;
      }
    }
    return -1;
  }

  /** The checks of CommitPAT, on the slice, are exactly its precondition on the map. */
  lemma CommitsIs(env: Environment, records: seq<Record>, audit: seq<Entry>, id: Name, expectedVersion: nat,
                  next: Record, event: Event, now: int)
    requires Distinct(records)
    ensures Commits(env.h, env.config, State(ById(records), audit), id, expectedVersion, next, event, now)
            <==> && Presentable(env.h, env.config, id, expectedVersion, next, event)
                 && Appendable(env.config, audit, now)
                 && exists i ::
                    0 <= i < |records| && records[i].id == id && records[i].version == expectedVersion
                      && ValidTransition(records[i], next, event, now)
  {
    hide ValidRecord, MatchesEvent, Appendable, ValidTransition;
    if i :| 0 <= i < |records| && records[i].id == id {
      assert ById(records)[records[i].id] == records[i];
    }
  }

  lemma CommitsRow(env: Environment, records: seq<Record>, audit: seq<Entry>, i: nat, expectedVersion: nat,
                   next: Record, event: Event, now: int)
    requires Hashes(env.h) && Distinct(records) && PatLog.Valid(env.h, env.config, State(ById(records), audit))
    requires i < |records| && Commits(env.h, env.config, State(ById(records), audit), records[i].id, expectedVersion,
                                      next, event, now)
    ensures Distinct(records[i := next])
    ensures var s := State(ById(records[i := next]), audit + [Row(env.h, audit, event, next.version, now)]);
            && PatLog.Valid(env.h, env.config, s)
            && s == PatLog.CommitPAT(env.h, env.config, State(ById(records), audit), records[i].id, expectedVersion,
                                     next, event, now)
  {
    hide ById, PatLog.Valid, Row, ValidRecord, ValidTransition;
    CommitKeepsValid(env.h, env.config, State(ById(records), audit), records[i].id, expectedVersion, next, event, now);
    ReplacedById(records, i, next);
  }

  lemma ReplacedById(records: seq<Record>, i: nat, next: Record)
    requires Distinct(records) && i < |records| && next.id == records[i].id
    ensures Distinct(records[i := next]) && ById(records[i := next]) == ById(records)[next.id := next]
  {
    var after := records[i := next];
    forall j, k | 0 <= j < k < |after| ensures after[j].id != after[k].id {
      assert records[j].id != records[k].id;
    }
    var was, held, want := ById(records), ById(after), ById(records)[next.id := next];
    forall j | 0 <= j < |records|
      ensures after[j].id == records[j].id && held[after[j].id] == after[j] && want[after[j].id] == after[j] {
      assert was[records[j].id] == records[j];
    }
  }

  lemma ValidStored(env: Environment, records: seq<Record>, audit: seq<Entry>, bytes: Octets)
    requires if bytes == [] then records == [] && audit == [] else Stores(env, records, audit, bytes)
    ensures Ordered(records) && Distinct(records) && PatLog.Valid(env.h, env.config, State(ById(records), audit))
  {
    hide PrintState, Codec.Encodes;
    if bytes == [] {
      EmptyValid(env.h, env.config);
      assert ById(records) == map[];
    }
  }
}
