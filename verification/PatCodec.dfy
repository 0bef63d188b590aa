/** The stored form of the token state: records and audit rows as canonical objects
    with exactly their field names. Printing and strict reading are inverse to each
    other, so stored bytes stand for one state. */
module PatCodec {
  import opened Common
  import opened PatLog
  import PatStore
  import opened CanonicalForm

  const STATE_BYTES_LIMIT := 0x100_0000
  const ENTRIES_LIMIT := 65_536

  /** How names, digests and instants are written; `name`, `digest` and `instant` read them. */
  datatype Spelling = Spelling(text: Name -> Octets, name: Octets -> Name, digestText: Name -> Octets,
                               digest: Octets -> Name,
                               instantText: int -> Octets, instant: Octets -> int)
  {
    ghost predicate Lawful(u: Unicode) {
      && (forall n :: u.Normalised(text(n)) && name(text(n)) == n)
      && (forall t | u.Normalised(t) :: text(name(t)) == t)
      && (forall n :: u.Normalised(digestText(n)) && digest(digestText(n)) == n)
      && (forall t | u.Normalised(t) :: digestText(digest(t)) == t)
      && (forall at | ValidTime(at) :: u.Normalised(instantText(at)) && instant(instantText(at)) == at)
    }
  }

  /** ASCII text is valid and its own normal form. */
  ghost predicate AsciiIsNormal(u: Unicode) {
    forall t: Octets | Ascii(t) :: u.Normalised(t)
  }

  predicate Ascii(text: Octets) {
    forall i | 0 <= i < |text| :: text[i] < 128
  }

  // ----- objects with fixed field names -----

  predicate Apart(names: seq<Octets>) {
    forall i, j | 0 <= i < j < |names| :: names[i] != names[j]
  }

  function Object(names: seq<Octets>, values: seq<Value>): Value
    requires Apart(names) && |names| == |values|
  {
    Dict(map i | 0 <= i < |names| :: names[i] := values[i])
  }

  /** The value has these fields and no others. */
  predicate Exact(names: seq<Octets>, value: Value) {
    value.Dict? && |value.entries| == |names| && forall i | 0 <= i < |names| :: names[i] in value.entries
  }

  function Fields(names: seq<Octets>, value: Value): (fields: seq<Value>)
    requires Exact(names, value)
    ensures |fields| == |names|
  {
    seq(|names|, i requires 0 <= i < |names| => value.entries[names[i]])
  }

  ghost function Members(names: seq<Octets>): set<Octets> {
    set i | 0 <= i < |names| :: names[i]
  }

  lemma {:induction false} MembersCount(names: seq<Octets>)
    requires Apart(names)
    ensures |Members(names)| == |names|
  {
    if names != [] {
      var front, last := names[..|names| - 1], names[|names| - 1];
      MembersCount(front);
      assert forall i | 0 <= i < |front| :: front[i] == names[i];
      assert Members(names) == Members(front) + {last};
    }
  }

  lemma FieldsOfObject(names: seq<Octets>, values: seq<Value>)
    requires Apart(names) && |names| == |values|
    ensures Exact(names, Object(names, values)) && Fields(names, Object(names, values)) == values
  {
    MembersCount(names);
    var entries := Object(names, values).entries;
    assert entries.Keys == Members(names);
    assert |entries| == |entries.Keys|;
  }

  lemma {:induction false} SubsetOfSameSize(small: set<Octets>, large: set<Octets>)
    requires small <= large && |small| == |large|
    ensures small == large
  {
    if small != {} {
      var x :| x in small;
      SubsetOfSameSize(small - {x}, large - {x});
    }
  }

  lemma ObjectOfFields(names: seq<Octets>, value: Value)
    requires Apart(names) && Exact(names, value)
    ensures Object(names, Fields(names, value)) == value
  {
    MembersCount(names);
    assert |value.entries| == |value.entries.Keys|;
    SubsetOfSameSize(Members(names), value.entries.Keys);
    var entries := Object(names, Fields(names, value)).entries;
    assert entries.Keys == Members(names);
    forall key | key in entries ensures entries[key] == value.entries[key] {
      var i :| 0 <= i < |names| && names[i] == key;
    }
  }

  ghost predicate AllNormalised(u: Unicode, names: seq<Octets>) {
    forall i | 0 <= i < |names| :: u.Normalised(names[i])
  }

  ghost predicate AllCanonical(u: Unicode, values: seq<Value>) {
    forall i | 0 <= i < |values| :: CanonicalForm.Canonical(u, values[i])
  }

  lemma ObjectCanonical(u: Unicode, names: seq<Octets>, values: seq<Value>)
    requires Apart(names) && |names| == |values| && AllNormalised(u, names)
    ensures CanonicalForm.Canonical(u, Object(names, values)) <==> AllCanonical(u, values)
  {
    var entries := Object(names, values).entries;
    assert forall i | 0 <= i < |names| :: names[i] in entries && entries[names[i]] == values[i];
    if AllCanonical(u, values) {
      forall key | key in entries ensures u.Normalised(key) && CanonicalForm.Canonical(u, entries[key]) {
        var i :| 0 <= i < |names| && names[i] == key;
      }
    }
  }

  lemma FieldsCanonical(u: Unicode, names: seq<Octets>, value: Value)
    requires Exact(names, value) && CanonicalForm.Canonical(u, value)
    ensures AllCanonical(u, Fields(names, value))
  {
  }

  // ----- scalars -----

  /** An optional instant: null while it has not happened. */
  function Moment(c: Spelling, at: int): Value {
    if at == 0 then Null else Text(c.instantText(at))
  }

  predicate IsInstant(c: Spelling, value: Value) {
    value.Text? && ValidTime(c.instant(value.text)) && c.instantText(c.instant(value.text)) == value.text
  }

  predicate IsMoment(c: Spelling, value: Value) {
    value.Null? || IsInstant(c, value)
  }

  function MomentOf(c: Spelling, value: Value): int
    requires IsMoment(c, value)
  {
    if value.Null? then 0 else c.instant(value.text)
  }

  predicate IsCount(value: Value) {
    value.Number? && 0 <= value.number <= MAXIMUM_INTEGER
  }

  predicate Happened(at: int) {
    at == 0 || ValidTime(at)
  }

  predicate AllText(values: seq<Value>) {
    forall i | 0 <= i < |values| :: values[i].Text?
  }

  function Texts(c: Spelling, names: seq<Name>): (values: seq<Value>)
    ensures |values| == |names| && AllText(values)
  {
    seq(|names|, i requires 0 <= i < |names| => Text(c.text(names[i])))
  }

  function NamesOf(c: Spelling, values: seq<Value>): (names: seq<Name>)
    requires AllText(values)
    ensures |names| == |values|
  {
    seq<Name>(|values|, i requires 0 <= i < |values| => c.name(values[i].text))
  }

  lemma NamesOfTexts(u: Unicode, c: Spelling, names: seq<Name>)
    requires c.Lawful(u)
    ensures NamesOf(c, Texts(c, names)) == names && CanonicalForm.Canonical(u, List(Texts(c, names)))
  {
  }

  lemma TextsOfNames(u: Unicode, c: Spelling, values: seq<Value>)
    requires c.Lawful(u) && AllText(values) && CanonicalForm.Canonical(u, List(values))
    ensures Texts(c, NamesOf(c, values)) == values
  {
    forall i | 0 <= i < |values| ensures Texts(c, NamesOf(c, values))[i] == values[i] {
      assert CanonicalForm.Canonical(u, values[i]);
    }
  }

  // ----- records -----

  const ID: Octets := [0x69, 0x64]
  const TENANT_ID: Octets := [0x74, 0x65, 0x6e, 0x61, 0x6e, 0x74, 0x49, 0x64]
  const USER_ID: Octets := [0x75, 0x73, 0x65, 0x72, 0x49, 0x64]
  const DIGEST: Octets := [0x64, 0x69, 0x67, 0x65, 0x73, 0x74]
  const SCOPES: Octets := [0x73, 0x63, 0x6f, 0x70, 0x65, 0x73]
  const ISSUED_AT: Octets := [0x69, 0x73, 0x73, 0x75, 0x65, 0x64, 0x41, 0x74]
  const EXPIRES_AT: Octets := [0x65, 0x78, 0x70, 0x69, 0x72, 0x65, 0x73, 0x41, 0x74]
  const REVOKED_AT: Octets := [0x72, 0x65, 0x76, 0x6f, 0x6b, 0x65, 0x64, 0x41, 0x74]
  const LAST_USED_AT: Octets := [0x6c, 0x61, 0x73, 0x74, 0x55, 0x73, 0x65, 0x64, 0x41, 0x74]
  const USE_COUNT: Octets := [0x75, 0x73, 0x65, 0x43, 0x6f, 0x75, 0x6e, 0x74]
  const VERSION: Octets := [0x76, 0x65, 0x72, 0x73, 0x69, 0x6f, 0x6e]

  function RecordNames(): (names: seq<Octets>)
    ensures |names| == 11 && Apart(names)
  {
    [ID, TENANT_ID, USER_ID, DIGEST, SCOPES, ISSUED_AT, EXPIRES_AT, REVOKED_AT, LAST_USED_AT, USE_COUNT, VERSION]
  }

  function RecordFields(c: Spelling, r: Record): (fields: seq<Value>)
    ensures |fields| == 11
  {
    [Text(c.text(r.id)), Text(c.text(r.tenant)), Text(c.text(r.user)), Text(c.digestText(r.digest)),
     List(Texts(c, r.scopes)),
     Text(c.instantText(r.issuedAt)), Text(c.instantText(r.expiresAt)), Moment(c, r.revokedAt), Moment(c, r.lastUsed),
     Number(r.uses), Number(r.version)]
  }

  function PrintRecord(c: Spelling, r: Record): Value {
    Object(RecordNames(), RecordFields(c, r))
  }

  /** What the record's reader checks, field by field. */
  predicate RecordShaped(c: Spelling, f: seq<Value>)
    requires |f| == 11
  {
    && f[0].Text? && f[1].Text? && f[2].Text? && f[3].Text?
    && f[4].List? && 1 <= |f[4].items| <= MAXIMUM_SCOPES && AllText(f[4].items)
    && IsInstant(c, f[5]) && IsInstant(c, f[6]) && IsMoment(c, f[7]) && IsMoment(c, f[8]) && IsCount(f[9])
    && IsCount(f[10])
  }

  function RecordOf(c: Spelling, f: seq<Value>): Record
    requires |f| == 11 && RecordShaped(c, f)
  {
    Record(c.name(f[0].text), c.name(f[1].text), c.name(f[2].text), c.digest(f[3].text), NamesOf(c, f[4].items),
           c.instant(f[5].text), c.instant(f[6].text), MomentOf(c, f[7]), MomentOf(c, f[8]), f[9].number, f[10].number)
  }

  datatype RecordRead = BadRecord | GoodRecord(record: Record)

  function ReadRecord(c: Spelling, value: Value): RecordRead {
    if Exact(RecordNames(), value) && RecordShaped(c, Fields(RecordNames(), value))
    then GoodRecord(RecordOf(c, Fields(RecordNames(), value))) else BadRecord
  }

  /** A record every field of which can be read back. */
  predicate Writable(r: Record) {
    && 1 <= |r.scopes| <= MAXIMUM_SCOPES && ValidTime(r.issuedAt) && ValidTime(r.expiresAt) && Happened(r.revokedAt)
    && Happened(r.lastUsed)
    && r.uses <= MAXIMUM_INTEGER && r.version <= MAXIMUM_INTEGER
  }

  lemma FieldsOfRecord(u: Unicode, c: Spelling, r: Record)
    requires c.Lawful(u) && Writable(r)
    ensures RecordShaped(c, RecordFields(c, r)) && RecordOf(c, RecordFields(c, r)) == r
            && AllCanonical(u, RecordFields(c, r))
  {
    hide Texts, NamesOf;
    NamesOfTexts(u, c, r.scopes);
  }

  lemma RecordOfFields(u: Unicode, c: Spelling, f: seq<Value>)
    requires c.Lawful(u) && |f| == 11 && RecordShaped(c, f) && AllCanonical(u, f)
    ensures RecordFields(c, RecordOf(c, f)) == f && Writable(RecordOf(c, f))
  {
    hide Texts, NamesOf;
    TextsOfNames(u, c, f[4].items);
  }

  /** Reading what was printed gives the record back. */
  lemma ReadPrinted(u: Unicode, c: Spelling, r: Record)
    requires c.Lawful(u) && Writable(r)
    ensures ReadRecord(c, PrintRecord(c, r)) == GoodRecord(r)
  {
    hide Object, Fields, Exact, RecordFields, RecordShaped, RecordOf, RecordNames;
    FieldsOfRecord(u, c, r);
    FieldsOfObject(RecordNames(), RecordFields(c, r));
  }

  /** A canonical value that is read is the printed form of what was read. */
  lemma PrintRead(u: Unicode, c: Spelling, value: Value)
    requires c.Lawful(u) && CanonicalForm.Canonical(u, value) && ReadRecord(c, value).GoodRecord?
    ensures PrintRecord(c, ReadRecord(c, value).record) == value && Writable(ReadRecord(c, value).record)
  {
    hide Object, Fields, Exact, RecordFields, RecordShaped, RecordOf, RecordNames, Writable, CanonicalForm.Canonical;
    FieldsCanonical(u, RecordNames(), value);
    RecordOfFields(u, c, Fields(RecordNames(), value));
    ObjectOfFields(RecordNames(), value);
  }

  lemma PrintedCanonical(u: Unicode, c: Spelling, r: Record)
    requires c.Lawful(u) && AsciiIsNormal(u) && Writable(r)
    ensures CanonicalForm.Canonical(u, PrintRecord(c, r))
  {
    hide Object, RecordFields, CanonicalForm.Canonical;
    FieldsOfRecord(u, c, r);
    RecordNamesNormal(u);
    ObjectCanonical(u, RecordNames(), RecordFields(c, r));
  }

  lemma RecordNamesNormal(u: Unicode)
    requires AsciiIsNormal(u)
    ensures AllNormalised(u, RecordNames())
  {
    assert forall i | 0 <= i < 11 :: Ascii(RecordNames()[i]);
  }

  // ----- audit rows -----

  const AT: Octets := [0x61, 0x74]
  const KIND: Octets := [0x6b, 0x69, 0x6e, 0x64]
  const PAT_ID: Octets := [0x70, 0x61, 0x74, 0x49, 0x64]
  const SCOPE: Octets := [0x73, 0x63, 0x6f, 0x70, 0x65]
  const SEQUENCE: Octets := [0x73, 0x65, 0x71, 0x75, 0x65, 0x6e, 0x63, 0x65]
  const PREVIOUS_DIGEST: Octets := [0x70, 0x72, 0x65, 0x76, 0x69, 0x6f, 0x75, 0x73, 0x44, 0x69, 0x67, 0x65, 0x73, 0x74]
  const CREDENTIAL_VERSION: Octets :=
    [0x63, 0x72, 0x65, 0x64, 0x65, 0x6e, 0x74, 0x69, 0x61, 0x6c, 0x56, 0x65, 0x72, 0x73, 0x69, 0x6f, 0x6e]
  const COMMITTED_AT: Octets := [0x63, 0x6f, 0x6d, 0x6d, 0x69, 0x74, 0x74, 0x65, 0x64, 0x41, 0x74]
  const EVENT: Octets := [0x65, 0x76, 0x65, 0x6e, 0x74]
  const ISSUED: Octets := [0x69, 0x73, 0x73, 0x75, 0x65, 0x64]
  const USED: Octets := [0x75, 0x73, 0x65, 0x64]
  const REVOKED: Octets := [0x72, 0x65, 0x76, 0x6f, 0x6b, 0x65, 0x64]

  function KindText(kind: Kind): Octets {
    match kind case Issued => ISSUED case Used => USED case Revoked => REVOKED
  }

  predicate IsKind(value: Value) {
    value.Text? && (value.text == ISSUED || value.text == USED || value.text == REVOKED)
  }

  function KindOf(value: Value): (kind: Kind)
    requires IsKind(value)
    ensures KindText(kind) == value.text
  {
    if value.text == ISSUED then Issued else if value.text == USED then Used else Revoked
  }

  lemma KindsRead(u: Unicode, kind: Kind)
    requires AsciiIsNormal(u)
    ensures IsKind(Text(KindText(kind))) && KindOf(Text(KindText(kind))) == kind && u.Normalised(KindText(kind))
  {
    assert Ascii(ISSUED) && Ascii(USED) && Ascii(REVOKED);
  }

  function EventNames(): (names: seq<Octets>)
    ensures |names| == 6 && Apart(names)
  {
    [AT, KIND, PAT_ID, TENANT_ID, USER_ID, SCOPE]
  }

  function EventFields(c: Spelling, e: Event): (fields: seq<Value>)
    ensures |fields| == 6
  {
    [Text(c.instantText(e.at)), Text(KindText(e.kind)), Text(c.text(e.id)), Text(c.text(e.tenant)),
     Text(c.text(e.user)), Text(c.text(e.scope))]
  }

  predicate EventShaped(c: Spelling, f: seq<Value>)
    requires |f| == 6
  {
    IsInstant(c, f[0]) && IsKind(f[1]) && f[2].Text? && f[3].Text? && f[4].Text? && f[5].Text?
  }

  function EventOf(c: Spelling, f: seq<Value>): Event
    requires |f| == 6 && EventShaped(c, f)
  {
    Event(c.instant(f[0].text), KindOf(f[1]), c.name(f[2].text), c.name(f[3].text), c.name(f[4].text),
          c.name(f[5].text))
  }

  function PrintEvent(c: Spelling, e: Event): Value {
    Object(EventNames(), EventFields(c, e))
  }

  predicate IsEvent(c: Spelling, value: Value) {
    Exact(EventNames(), value) && EventShaped(c, Fields(EventNames(), value))
  }

  function ReadEvent(c: Spelling, value: Value): Event
    requires IsEvent(c, value)
  {
    EventOf(c, Fields(EventNames(), value))
  }

  lemma EventPrinted(u: Unicode, c: Spelling, e: Event)
    requires c.Lawful(u) && AsciiIsNormal(u) && ValidTime(e.at)
    ensures IsEvent(c, PrintEvent(c, e)) && ReadEvent(c, PrintEvent(c, e)) == e
            && CanonicalForm.Canonical(u, PrintEvent(c, e))
  {
    hide Object, Fields, Exact, KindText, IsKind, KindOf;
    var f := EventFields(c, e);
    KindsRead(u, e.kind);
    assert EventShaped(c, f) && EventOf(c, f) == e && AllCanonical(u, f);
    FieldsOfObject(EventNames(), f);
    EventNamesNormal(u);
    ObjectCanonical(u, EventNames(), f);
  }

  lemma EventNamesNormal(u: Unicode)
    requires AsciiIsNormal(u)
    ensures AllNormalised(u, EventNames())
  {
    assert forall i | 0 <= i < 6 :: Ascii(EventNames()[i]);
  }

  lemma EventRead(u: Unicode, c: Spelling, value: Value)
    requires c.Lawful(u) && CanonicalForm.Canonical(u, value) && IsEvent(c, value)
    ensures PrintEvent(c, ReadEvent(c, value)) == value && ValidTime(ReadEvent(c, value).at)
  {
    hide Object, Fields, Exact, KindText, IsKind, KindOf, EventNames, CanonicalForm.Canonical;
    FieldsCanonical(u, EventNames(), value);
    EventOfFields(u, c, Fields(EventNames(), value));
    ObjectOfFields(EventNames(), value);
  }

  lemma EventOfFields(u: Unicode, c: Spelling, f: seq<Value>)
    requires c.Lawful(u) && |f| == 6 && EventShaped(c, f) && AllCanonical(u, f)
    ensures EventFields(c, EventOf(c, f)) == f && ValidTime(EventOf(c, f).at)
  {
    hide KindText;
  }

  function EntryNames(): (names: seq<Octets>)
    ensures |names| == 6 && Apart(names)
  {
    [SEQUENCE, PREVIOUS_DIGEST, CREDENTIAL_VERSION, COMMITTED_AT, EVENT, DIGEST]
  }

  function EntryFields(c: Spelling, e: Entry): (fields: seq<Value>)
    ensures |fields| == 6
  {
    [Number(e.sequence), Text(c.digestText(e.previous)), Number(e.version), Text(c.instantText(e.committedAt)),
     PrintEvent(c, e.event),
     Text(c.digestText(e.digest))]
  }

  predicate EntryShaped(c: Spelling, f: seq<Value>)
    requires |f| == 6
  {
    IsCount(f[0]) && f[1].Text? && IsCount(f[2]) && IsInstant(c, f[3]) && IsEvent(c, f[4]) && f[5].Text?
  }

  function EntryOf(c: Spelling, f: seq<Value>): Entry
    requires |f| == 6 && EntryShaped(c, f)
  {
    Entry(f[0].number, c.digest(f[1].text), c.digest(f[5].text), f[2].number, c.instant(f[3].text), ReadEvent(c, f[4]))
  }

  function PrintEntry(c: Spelling, e: Entry): Value {
    Object(EntryNames(), EntryFields(c, e))
  }

  datatype EntryRead = BadEntry | GoodEntry(entry: Entry)

  function ReadEntry(c: Spelling, value: Value): EntryRead {
    if Exact(EntryNames(), value) && EntryShaped(c, Fields(EntryNames(), value))
    then GoodEntry(EntryOf(c, Fields(EntryNames(), value))) else BadEntry
  }

  predicate WritableEntry(e: Entry) {
    e.sequence <= MAXIMUM_INTEGER && e.version <= MAXIMUM_INTEGER && ValidTime(e.committedAt) && ValidTime(e.event.at)
  }

  lemma EntryPrinted(u: Unicode, c: Spelling, e: Entry)
    requires c.Lawful(u) && AsciiIsNormal(u) && WritableEntry(e)
    ensures ReadEntry(c, PrintEntry(c, e)) == GoodEntry(e) && CanonicalForm.Canonical(u, PrintEntry(c, e))
  {
    hide Object, Fields, Exact, PrintEvent, IsEvent, ReadEvent;
    var f := EntryFields(c, e);
    EventPrinted(u, c, e.event);
    assert EntryShaped(c, f) && EntryOf(c, f) == e && AllCanonical(u, f);
    FieldsOfObject(EntryNames(), f);
    EntryNamesNormal(u);
    ObjectCanonical(u, EntryNames(), f);
  }

  lemma EntryNamesNormal(u: Unicode)
    requires AsciiIsNormal(u)
    ensures AllNormalised(u, EntryNames())
  {
    assert forall i | 0 <= i < 6 :: Ascii(EntryNames()[i]);
  }

  lemma EntryReadBack(u: Unicode, c: Spelling, value: Value)
    requires c.Lawful(u) && CanonicalForm.Canonical(u, value) && ReadEntry(c, value).GoodEntry?
    ensures PrintEntry(c, ReadEntry(c, value).entry) == value && WritableEntry(ReadEntry(c, value).entry)
  {
    hide Object, Fields, Exact, EntryNames, CanonicalForm.Canonical, EntryShaped, EntryOf, EntryFields, WritableEntry;
    FieldsCanonical(u, EntryNames(), value);
    EntryOfFields(u, c, Fields(EntryNames(), value));
    ObjectOfFields(EntryNames(), value);
  }

  lemma EntryOfFields(u: Unicode, c: Spelling, f: seq<Value>)
    requires c.Lawful(u) && |f| == 6 && EntryShaped(c, f) && AllCanonical(u, f)
    ensures EntryFields(c, EntryOf(c, f)) == f && WritableEntry(EntryOf(c, f))
  {
    hide PrintEvent, ReadEvent, IsEvent;
    assert CanonicalForm.Canonical(u, f[1]) && CanonicalForm.Canonical(u, f[5]);
    EventRead(u, c, f[4]);
  }

  // ----- the state -----

  const RECORDS: Octets := [0x72, 0x65, 0x63, 0x6f, 0x72, 0x64, 0x73]
  const AUDIT: Octets := [0x61, 0x75, 0x64, 0x69, 0x74]
  const HEAD_SEQUENCE: Octets := [0x68, 0x65, 0x61, 0x64, 0x53, 0x65, 0x71, 0x75, 0x65, 0x6e, 0x63, 0x65]
  const HEAD_DIGEST: Octets := [0x68, 0x65, 0x61, 0x64, 0x44, 0x69, 0x67, 0x65, 0x73, 0x74]

  function StateNames(): (names: seq<Octets>)
    ensures |names| == 6 && Apart(names)
  {
    [VERSION, TENANT_ID, RECORDS, AUDIT, HEAD_SEQUENCE, HEAD_DIGEST]
  }

  function PrintRecords(c: Spelling, records: seq<Record>): (values: seq<Value>)
    ensures |values| == |records|
  {
    seq(|records|, i requires 0 <= i < |records| => PrintRecord(c, records[i]))
  }

  function PrintEntries(c: Spelling, audit: seq<Entry>): (values: seq<Value>)
    ensures |values| == |audit|
  {
    seq(|audit|, i requires 0 <= i < |audit| => PrintEntry(c, audit[i]))
  }

  function StateFields(c: Spelling, tenant: Name, records: seq<Record>, audit: seq<Entry>): (fields: seq<Value>)
    ensures |fields| == 6
  {
    [Number(1), Text(c.text(tenant)), List(PrintRecords(c, records)), List(PrintEntries(c, audit)), Number(|audit|),
     Text(c.digestText(HeadDigest(audit)))]
  }

  function PrintState(c: Spelling, tenant: Name, records: seq<Record>, audit: seq<Entry>): Value {
    Object(StateNames(), StateFields(c, tenant, records, audit))
  }

  ghost predicate AllWritable(records: seq<Record>, audit: seq<Entry>) {
    && (forall i | 0 <= i < |records| :: Writable(records[i]))
    && (forall i | 0 <= i < |audit| :: WritableEntry(audit[i]))
    && |audit| <= MAXIMUM_INTEGER
  }

  ghost predicate RecordsRead(c: Spelling, values: seq<Value>, records: seq<Record>) {
    |values| == |records| && forall i | 0 <= i < |values| :: ReadRecord(c, values[i]) == GoodRecord(records[i])
  }

  ghost predicate EntriesRead(c: Spelling, values: seq<Value>, audit: seq<Entry>) {
    |values| == |audit| && forall i | 0 <= i < |values| :: ReadEntry(c, values[i]) == GoodEntry(audit[i])
  }

  /** What the state's reader checks before the replay. */
  ghost predicate StateRead(c: Spelling, tenant: Name, value: Value, records: seq<Record>, audit: seq<Entry>) {
    && Exact(StateNames(), value)
    && var f := Fields(StateNames(), value);
       && f[0] == Number(1) && f[1] == Text(c.text(tenant)) && f[2].List? && f[3].List?
       && RecordsRead(c, f[2].items, records) && EntriesRead(c, f[3].items, audit)
       && f[4] == Number(|audit|) && f[5] == Text(c.digestText(HeadDigest(audit)))
  }

  lemma RecordsPrinted(u: Unicode, c: Spelling, records: seq<Record>)
    requires c.Lawful(u) && AsciiIsNormal(u) && forall i | 0 <= i < |records| :: Writable(records[i])
    ensures RecordsRead(c, PrintRecords(c, records), records) && AllCanonical(u, PrintRecords(c, records))
  {
    hide Writable, PrintRecord, ReadRecord, CanonicalForm.Canonical;
    forall i | 0 <= i < |records|
      ensures ReadRecord(c, PrintRecords(c, records)[i]) == GoodRecord(records[i])
              && CanonicalForm.Canonical(u, PrintRecords(c, records)[i])
    {
      ReadPrinted(u, c, records[i]);
      PrintedCanonical(u, c, records[i]);
    }
  }

  lemma EntriesPrinted(u: Unicode, c: Spelling, audit: seq<Entry>)
    requires c.Lawful(u) && AsciiIsNormal(u) && forall i | 0 <= i < |audit| :: WritableEntry(audit[i])
    ensures EntriesRead(c, PrintEntries(c, audit), audit) && AllCanonical(u, PrintEntries(c, audit))
  {
    hide WritableEntry, PrintEntry, ReadEntry, CanonicalForm.Canonical;
    forall i | 0 <= i < |audit|
      ensures ReadEntry(c, PrintEntries(c, audit)[i]) == GoodEntry(audit[i])
              && CanonicalForm.Canonical(u, PrintEntries(c, audit)[i])
    {
      EntryPrinted(u, c, audit[i]);
    }
  }

  /** The printed state is canonical and is read back as it was. */
  lemma StatePrinted(u: Unicode, c: Spelling, tenant: Name, records: seq<Record>, audit: seq<Entry>)
    requires c.Lawful(u) && AsciiIsNormal(u) && AllWritable(records, audit)
    ensures CanonicalForm.Canonical(u, PrintState(c, tenant, records, audit))
    ensures StateRead(c, tenant, PrintState(c, tenant, records, audit), records, audit)
  {
    hide Object, Fields, Exact, PrintRecords, PrintEntries, RecordsRead, EntriesRead, Writable, WritableEntry;
    RecordsPrinted(u, c, records);
    EntriesPrinted(u, c, audit);
    var f := StateFields(c, tenant, records, audit);
    assert AllCanonical(u, f);
    FieldsOfObject(StateNames(), f);
    StateNamesNormal(u);
    ObjectCanonical(u, StateNames(), f);
  }

  lemma StateNamesNormal(u: Unicode)
    requires AsciiIsNormal(u)
    ensures AllNormalised(u, StateNames())
  {
    assert forall i | 0 <= i < 6 :: Ascii(StateNames()[i]);
  }

  lemma RecordsReadBack(u: Unicode, c: Spelling, values: seq<Value>, records: seq<Record>)
    requires c.Lawful(u) && AllCanonical(u, values) && RecordsRead(c, values, records)
    ensures PrintRecords(c, records) == values && forall i | 0 <= i < |records| :: Writable(records[i])
  {
    hide Writable, PrintRecord, ReadRecord, CanonicalForm.Canonical;
    forall i | 0 <= i < |records| ensures PrintRecords(c, records)[i] == values[i] && Writable(records[i]) {
      PrintRead(u, c, values[i]);
    }
  }

  lemma EntriesReadBack(u: Unicode, c: Spelling, values: seq<Value>, audit: seq<Entry>)
    requires c.Lawful(u) && AllCanonical(u, values) && EntriesRead(c, values, audit)
    ensures PrintEntries(c, audit) == values && forall i | 0 <= i < |audit| :: WritableEntry(audit[i])
  {
    hide WritableEntry, PrintEntry, ReadEntry, CanonicalForm.Canonical;
    forall i | 0 <= i < |audit| ensures PrintEntries(c, audit)[i] == values[i] && WritableEntry(audit[i]) {
      EntryReadBack(u, c, values[i]);
    }
  }

  lemma ListCanonical(u: Unicode, values: seq<Value>)
    requires CanonicalForm.Canonical(u, List(values))
    ensures AllCanonical(u, values)
  {
  }

  /** A canonical value that is read as a state is the printed form of that state. */
  lemma StateReadBack(u: Unicode, c: Spelling, tenant: Name, value: Value, records: seq<Record>, audit: seq<Entry>)
    requires c.Lawful(u) && CanonicalForm.Canonical(u, value) && StateRead(c, tenant, value, records, audit)
    ensures value == PrintState(c, tenant, records, audit)
  {
    hide Object, Fields, Exact, PrintRecords, PrintEntries, RecordsRead, EntriesRead, StateNames,
         CanonicalForm.Canonical, Writable, WritableEntry;
    var f := Fields(StateNames(), value);
    FieldsCanonical(u, StateNames(), value);
    assert CanonicalForm.Canonical(u, f[2]) && CanonicalForm.Canonical(u, f[3]);
    ListCanonical(u, f[2].items);
    ListCanonical(u, f[3].items);
    RecordsReadBack(u, c, f[2].items, records);
    EntriesReadBack(u, c, f[3].items, audit);
    ObjectOfFields(StateNames(), value);
    assert f == StateFields(c, tenant, records, audit);
  }

  // ----- valid states can be written -----

  lemma {:induction false} RowsWritable(h: Hash, records: map<Name, Record>, audit: seq<Entry>)
    requires Replay(h, records, audit).Log? && |audit| <= MAXIMUM_INTEGER
    ensures forall i | 0 <= i < |audit| :: WritableEntry(audit[i])
    ensures forall id | id in Replay(h, records, audit).seen :: Replay(h, records, audit).seen[id].version <= |audit|
  {
    hide EntryDigest;
    if audit != [] {
      RowsWritable(h, records, audit[..|audit| - 1]);
      assert WritableEntry(audit[|audit| - 1]);
      forall i | 0 <= i < |audit| ensures WritableEntry(audit[i]) {
        assert i == |audit| - 1 || audit[i] == audit[..|audit| - 1][i];
      }
    }
  }

  lemma ValidIsWritable(h: Hash, config: Config, records: seq<Record>, audit: seq<Entry>)
    requires config.entries <= ENTRIES_LIMIT && PatStore.ValidDurable(h, config, records, audit)
    ensures AllWritable(records, audit)
  {
    hide Replay, WritableEntry;
    RowsWritable(h, PatStore.ById(records), audit);
    forall i | 0 <= i < |records| ensures Writable(records[i]) {
      assert records[i].id in PatStore.ById(records) && PatStore.ById(records)[records[i].id] == records[i];
    }
  }
}
