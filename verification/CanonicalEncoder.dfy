/** The encoder as it runs: a bounded output buffer and an item count. */
module CanonicalEncoder {
  import opened CanonicalForm
  import CanonicalReading

  datatype Status = Done | Refused(why: Failure)

  /** A map entry with its key already encoded. */
  datatype Entry = Entry(key: Octets, encoded: Octets, value: Value)

  // ----- the sort -----

  ghost predicate Ascends(entries: seq<Entry>) {
    forall i, j | 0 <= i < j < |entries| :: LengthFirst(entries[i].encoded, entries[j].encoded)
  }

  ghost predicate Apart(entries: seq<Entry>) {
    forall i, j | 0 <= i < j < |entries| :: entries[i].encoded != entries[j].encoded
  }

  function InsertEntry(entries: seq<Entry>, entry: Entry): (result: seq<Entry>)
    requires Ascends(entries) && forall other | other in entries :: other.encoded != entry.encoded
    ensures |result| == |entries| + 1 && Ascends(result)
    ensures forall other :: other in result <==> other == entry || other in entries
  {
    if entries == [] then [entry]
    else
      OrderTotal(entry.encoded, entries[0].encoded);
      if LengthFirst(entry.encoded, entries[0].encoded) then
        OrderOpens(entry, entries);
        [entry] + entries
      else
        var rest := InsertEntry(entries[1..], entry);
        assert entries == [entries[0]] + entries[1..];
        OrderLeads(entries[0], rest);
        [entries[0]] + rest
  }

  lemma OrderTotal(left: Octets, right: Octets)
    ensures left == right || LengthFirst(left, right) || LengthFirst(right, left)
  {
    LexicalTotal(left, right);
  }

  lemma OrderLeads(entry: Entry, entries: seq<Entry>)
    requires Ascends(entries) && forall other | other in entries :: LengthFirst(entry.encoded, other.encoded)
    ensures Ascends([entry] + entries)
  {
  }

  lemma OrderOpens(entry: Entry, entries: seq<Entry>)
    requires Ascends(entries) && entries != [] && LengthFirst(entry.encoded, entries[0].encoded)
    ensures Ascends([entry] + entries)
  {
    hide LengthFirst;
    forall j | 0 < j < |entries| ensures LengthFirst(entry.encoded, entries[j].encoded) {
      LengthFirstTransitive(entry.encoded, entries[0].encoded, entries[j].encoded);
    }
  }

  /** The library sort, as far as the encoder relies on it. */
  function SortEntries(entries: seq<Entry>): (sorted: seq<Entry>)
    requires Apart(entries)
    ensures |sorted| == |entries| && Ascends(sorted)
    ensures forall entry :: entry in sorted <==> entry in entries
  {
    if entries == [] then []
    else
      var last := entries[|entries| - 1];
      assert entries == entries[..|entries| - 1] + [last];
      InsertEntry(SortEntries(entries[..|entries| - 1]), last)
  }

  // ----- the writer -----

  /** What the encoder accepts at this point of the output. */
  ghost predicate Admits(u: Unicode, value: Value, depth: int, items: int, size: int) {
    var normal := Normal(u, value);
    Encodable(u, value) && Shallow(normal, depth) && Items(normal) <= items && |Bytes(normal)| <= size
  }

  /** The same for the elements of an array, after its head. */
  ghost predicate AdmitsItems(u: Unicode, all: seq<Value>, depth: int, items: int, size: int) {
    var normal := Normal(u, List(all)).items;
    && (forall i | 0 <= i < |all| :: Encodable(u, all[i]) && Shallow(normal[i], depth))
    && ListItems(normal) <= items && |ListBytes(normal)| <= size
  }

  lemma ListAdmits(u: Unicode, all: seq<Value>, depth: int, items: int, size: int)
    ensures Admits(u, List(all), depth, items, size)
       <==> 0 <= depth && AdmitsItems(u, all, depth - 1, items - 1, size - |Head(4, |all|)|)
  {
    hide ListItems, ListBytes, Head;
  }

  /** The elements up to and including i are part of the whole. */
  lemma {:induction false} ListPart(all: seq<Value>, i: nat)
    requires i < |all|
    ensures ListItems(all[..i]) + Items(all[i]) <= ListItems(all)
    ensures |ListBytes(all[..i])| + |Bytes(all[i])| <= |ListBytes(all)|
  {
    hide Bytes, Items;
    var front := all[..|all| - 1];
    if i < |all| - 1 {
      assert front[..i] == all[..i];
      ListPart(front, i);
    }
  }

  lemma ItemRefused(u: Unicode, all: seq<Value>, i: nat, depth: int, items: int, size: int)
    requires i < |all|
    requires var normal := Normal(u, List(all)).items;
             !Admits(u, all[i], depth, items - ListItems(normal[..i]), size - |ListBytes(normal[..i])|)
    ensures !AdmitsItems(u, all, depth, items, size)
  {
    hide Bytes, Items, ListBytes, ListItems, Encodable, Shallow;
    ListPart(Normal(u, List(all)).items, i);
  }

  // ----- map entries -----

  function EntryFor(u: Unicode, entries: map<Octets, Value>, key: Octets): Entry
    requires key in entries
  {
    Entry(u.nfc(key), KeyBytes(u.nfc(key)), entries[key])
  }

  /** Valid keys that stay distinct when normalised. */
  ghost predicate KeysFine(u: Unicode, keys: set<Octets>) {
    && (forall key | key in keys :: u.valid(key))
    && (forall left, right | left in keys && right in keys && left != right :: u.nfc(left) != u.nfc(right))
  }

  /** The list holds one entry for each of these keys. */
  ghost predicate Collected(u: Unicode, entries: map<Octets, Value>, keys: set<Octets>, list: seq<Entry>)
    requires keys <= entries.Keys
  {
    && (forall entry | entry in list :: exists key :: key in keys && entry == EntryFor(u, entries, key))
    && (forall key | key in keys :: EntryFor(u, entries, key) in list)
  }

  lemma CollectNext(u: Unicode, entries: map<Octets, Value>, keys: set<Octets>, list: seq<Entry>, key: Octets)
    requires keys <= entries.Keys && key in entries && key !in keys
    requires KeysFine(u, keys) && Collected(u, entries, keys, list) && Apart(list)
    requires u.valid(key) && forall other | other in keys :: u.nfc(other) != u.nfc(key)
    ensures KeysFine(u, keys + {key}) && Collected(u, entries, keys + {key}, list + [EntryFor(u, entries, key)])
    ensures Apart(list + [EntryFor(u, entries, key)])
  {
    hide KeyBytes;
    var added := EntryFor(u, entries, key);
    forall i | 0 <= i < |list| ensures list[i].encoded != added.encoded {
      assert list[i] in list;
      var other :| other in keys && list[i] == EntryFor(u, entries, other);
      DistinctKeys(u.nfc(other), u.nfc(key));
    }
    forall entry | entry in list + [added]
      ensures exists k :: k in keys + {key} && entry == EntryFor(u, entries, k)
    {
      if entry != added {
        assert entry in list;
        var k :| k in keys && entry == EntryFor(u, entries, k);
        assert k in keys + {key};
      } else {
        assert key in keys + {key};
      }
    }
  }

  lemma DistinctKeys(left: Octets, right: Octets)
    requires left != right
    ensures KeyBytes(left) != KeyBytes(right)
  {
    if KeyBytes(left) == KeyBytes(right) {
      KeyBytesInjective(left, right);
    }
  }

  function KeysOf(entries: seq<Entry>): seq<Octets> {
    seq(|entries|, i requires 0 <= i < |entries| => entries[i].key)
  }

  ghost function NormalEntries(u: Unicode, entries: map<Octets, Value>): map<Octets, Value> {
    Normal(u, Dict(entries)).entries
  }

  /** An entry of the normalised map, with its key encoded. */
  ghost predicate Ready(u: Unicode, entries: map<Octets, Value>, entry: Entry) {
    && entry.key in NormalEntries(u, entries)
    && NormalEntries(u, entries)[entry.key] == Normal(u, entry.value)
    && entry.encoded == KeyBytes(entry.key)
    && exists key :: key in entries && entries[key] == entry.value
  }

  ghost predicate Includes(sorted: seq<Entry>, key: Octets, value: Value) {
    exists i :: 0 <= i < |sorted| && sorted[i].key == key && sorted[i].value == value
  }

  /** All entries, in the order of the byte form. */
  ghost predicate Prepared(u: Unicode, entries: map<Octets, Value>, sorted: seq<Entry>) {
    && KeysOf(sorted) == Ascending(NormalEntries(u, entries).Keys)
    && (forall i | 0 <= i < |sorted| :: Ready(u, entries, sorted[i]))
    && (forall key | key in entries :: Includes(sorted, u.nfc(key), entries[key]))
  }

  lemma NormalLookup(u: Unicode, entries: map<Octets, Value>, key: Octets)
    requires KeysFine(u, entries.Keys) && key in entries
    ensures u.nfc(key) in NormalEntries(u, entries)
    ensures NormalEntries(u, entries)[u.nfc(key)] == Normal(u, entries[key])
  {
    assert u.nfc(key) in NormalKeys(u, entries);
    assert Original(u, entries, u.nfc(key)) == key;
  }

  lemma SortPrepares(u: Unicode, entries: map<Octets, Value>, list: seq<Entry>, sorted: seq<Entry>)
    requires KeysFine(u, entries.Keys) && Collected(u, entries, entries.Keys, list)
    requires Ascends(sorted) && forall entry :: entry in sorted <==> entry in list
    ensures Prepared(u, entries, sorted)
  {
    hide Ready, Includes, KeysOf, Ascends, Ascending, NormalEntries, EntryFor, KeysFine;
    forall i | 0 <= i < |sorted| ensures Ready(u, entries, sorted[i]) {
      assert sorted[i] in sorted;
      var key :| key in entries.Keys && sorted[i] == EntryFor(u, entries, key);
      EntryReady(u, entries, key);
    }
    forall key | key in entries ensures Includes(sorted, u.nfc(key), entries[key]) {
      assert EntryFor(u, entries, key) in sorted;
      EntryIncluded(u, entries, key, sorted);
    }
    SortedKeysListed(u, entries, sorted);
  }

  lemma EntryReady(u: Unicode, entries: map<Octets, Value>, key: Octets)
    requires KeysFine(u, entries.Keys) && key in entries
    ensures Ready(u, entries, EntryFor(u, entries, key))
  {
    NormalLookup(u, entries, key);
  }

  lemma EntryIncluded(u: Unicode, entries: map<Octets, Value>, key: Octets, sorted: seq<Entry>)
    requires key in entries && EntryFor(u, entries, key) in sorted
    ensures Includes(sorted, u.nfc(key), entries[key])
  {
  }

  lemma SortedKeysListed(u: Unicode, entries: map<Octets, Value>, sorted: seq<Entry>)
    requires Ascends(sorted)
    requires forall i | 0 <= i < |sorted| :: Ready(u, entries, sorted[i])
    requires forall key | key in entries :: Includes(sorted, u.nfc(key), entries[key])
    ensures KeysOf(sorted) == Ascending(NormalEntries(u, entries).Keys)
  {
    hide KeyBytes, LengthFirst, Ascending, Ready, NormalEntries, Includes;
    var keys := KeysOf(sorted);
    var members := NormalEntries(u, entries).Keys;
    forall i | 0 <= i < |sorted|
      ensures sorted[i].key in members && sorted[i].encoded == KeyBytes(sorted[i].key)
    {
      ReadyKey(u, entries, sorted[i]);
    }
    forall i, j | 0 <= i < j < |keys| ensures Precedes(keys[i], keys[j]) {
      assert LengthFirst(sorted[i].encoded, sorted[j].encoded);
    }
    forall key | key in members ensures key in keys {
      var original := OriginalKey(u, entries, key);
      assert Includes(sorted, key, entries[original]);
      IncludedKey(sorted, key, entries[original]);
    }
    AscendingIs(keys, members);
  }

  lemma ReadyKey(u: Unicode, entries: map<Octets, Value>, entry: Entry)
    requires Ready(u, entries, entry)
    ensures entry.key in NormalEntries(u, entries) && entry.encoded == KeyBytes(entry.key)
  {
  }

  lemma OriginalKey(u: Unicode, entries: map<Octets, Value>, key: Octets) returns (original: Octets)
    requires key in NormalEntries(u, entries)
    ensures original in entries && u.nfc(original) == key
  {
    original := Original(u, entries, key);
  }

  lemma IncludedKey(sorted: seq<Entry>, key: Octets, value: Value)
    requires Includes(sorted, key, value)
    ensures key in KeysOf(sorted)
  {
    var i :| 0 <= i < |sorted| && sorted[i].key == key && sorted[i].value == value;
    assert KeysOf(sorted)[i] == key;
  }

  /** What the map loop accepts after the head. */
  ghost predicate AdmitsEntries(u: Unicode, entries: map<Octets, Value>, sorted: seq<Entry>, depth: int, items: int,
                                size: int)
    requires Prepared(u, entries, sorted)
  {
    var normal := NormalEntries(u, entries);
    && (forall i | 0 <= i < |sorted| :: Encodable(u, sorted[i].value) && Shallow(Normal(u, sorted[i].value), depth))
    && EntryItems(normal, KeysOf(sorted)) <= items && |EntryBytes(normal, KeysOf(sorted))| <= size
  }

  lemma DictAdmits(u: Unicode, entries: map<Octets, Value>, sorted: seq<Entry>, depth: int, items: int, size: int)
    requires KeysFine(u, entries.Keys) && Prepared(u, entries, sorted)
    ensures Admits(u, Dict(entries), depth, items, size)
       <==> 0 <= depth && AdmitsEntries(u, entries, sorted, depth - 1, items - 1, size - |Head(5, |sorted|)|)
    ensures Bytes(Normal(u, Dict(entries))) == Head(5, |sorted|) + EntryBytes(NormalEntries(u, entries), KeysOf(sorted))
    ensures Items(Normal(u, Dict(entries))) == 1 + EntryItems(NormalEntries(u, entries), KeysOf(sorted))
  {
    hide EntryItems, EntryBytes, Head, Sorted, Normal, Ready, Includes, NormalEntries;
    var normal := NormalEntries(u, entries);
    DictNormal(u, entries);
    SortedCount(KeysOf(sorted), normal.Keys);
    assert |normal| == |normal.Keys|;
    ShallowAgrees(u, entries, sorted, depth - 1);
    EncodableAgrees(u, entries, sorted);
  }

  lemma ShallowAgrees(u: Unicode, entries: map<Octets, Value>, sorted: seq<Entry>, depth: int)
    requires Prepared(u, entries, sorted)
    ensures (forall key | key in NormalEntries(u, entries) :: Shallow(NormalEntries(u, entries)[key], depth))
       <==> (forall i | 0 <= i < |sorted| :: Shallow(Normal(u, sorted[i].value), depth))
  {
    hide Normal, NormalEntries, Shallow, Includes, Sorted;
    var normal := NormalEntries(u, entries);
    forall key | key in normal ensures exists i :: 0 <= i < |sorted| && sorted[i].key == key {
      assert key in KeysOf(sorted);
    }
  }

  lemma EncodableAgrees(u: Unicode, entries: map<Octets, Value>, sorted: seq<Entry>)
    requires Prepared(u, entries, sorted)
    ensures (forall key | key in entries :: Encodable(u, entries[key]))
       <==> (forall i | 0 <= i < |sorted| :: Encodable(u, sorted[i].value))
  {
    hide Normal, NormalEntries, Encodable, Ascending;
  }

  lemma DictNormal(u: Unicode, entries: map<Octets, Value>)
    ensures Normal(u, Dict(entries)) == Dict(NormalEntries(u, entries))
  {
  }

  lemma {:induction false} EntryPart(entries: map<Octets, Value>, keys: seq<Octets>, i: nat)
    requires i < |keys| && forall key | key in keys :: key in entries
    ensures EntryItems(entries, keys[..i]) + 1 + Items(entries[keys[i]]) <= EntryItems(entries, keys)
    ensures |EntryBytes(entries, keys[..i])| + |KeyBytes(keys[i])| + |Bytes(entries[keys[i]])|
            <= |EntryBytes(entries, keys)|
    decreases |keys|
  {
    hide Bytes, Items, KeyBytes;
    var front := keys[..|keys| - 1];
    if i < |keys| - 1 {
      assert front[..i] == keys[..i];
      EntryPart(entries, front, i);
    }
  }

  class Writer {
    var encoded: Octets
    var items: nat
    const maxBytes: int
    const maxItems: int

    constructor (maxBytes: int, maxItems: int)
      ensures encoded == [] && items == 0 && this.maxBytes == maxBytes && this.maxItems == maxItems
    {
      encoded, items, this.maxBytes, this.maxItems := [], 0, maxBytes, maxItems;
    }

    method AppendBytes(value: Octets) returns (ok: bool)
      modifies this`encoded
      ensures ok <==> |old(encoded)| + |value| <= maxBytes
      ensures encoded == if ok then old(encoded) + value else old(encoded)
    {
      if |value| > maxBytes - |encoded| {
        return false;
      }
      encoded := encoded + value;
      return true;
    }

    /** The shortest head: the branches of the source, over the library's big-endian stores. */
    method AppendHead(major: nat, value: nat) returns (ok: bool)
      requires major < 8
      modifies this`encoded
      ensures ok <==> |old(encoded)| + |Head(major, value)| <= maxBytes
      ensures encoded == if ok then old(encoded) + Head(major, value) else old(encoded)
    {
      var header: Octets;
      if value < 24 {
        header := [major * 32 + value];
      } else if value <= 0xff {
        header := [major * 32 + 24, value];
        assert BigEndian(value / 256, 0) == [];
      } else if value <= 0xffff {
        header := [major * 32 + 25] + BigEndian(value, 2);
      } else if value <= 0xffff_ffff {
        header := [major * 32 + 26] + BigEndian(value, 4);
      } else {
        header := [major * 32 + 27] + BigEndian(value, 8);
      }
      assert header == Head(major, value);
      ok := AppendBytes(header);
    }

    /** The checks every value passes before it is written. */
    method Enter(depth: nat, maxDepth: int) returns (ok: bool)
      modifies this`items
      ensures ok <==> depth <= maxDepth && old(items) < maxItems
      ensures items == if ok then old(items) + 1 else old(items)
    {
      if depth > maxDepth {
        return false;
      }
      if items >= maxItems {
        return false;
      }
      items := items + 1;
      return true;
    }

    /** A head followed by its payload. */
    method PutString(major: nat, value: Octets) returns (status: Status)
      requires major < 8
      modifies this`encoded
      ensures status == if |old(encoded)| + |Head(major, |value|) + value| <= maxBytes then Done
              else Refused(LimitExceeded)
      ensures status.Done? ==> encoded == old(encoded) + (Head(major, |value|) + value)
    {
      hide Head;
      var ok := AppendHead(major, |value|);
      if !ok {
        return Refused(LimitExceeded);
      }
      ok := AppendBytes(value);
      return if ok then Done else Refused(LimitExceeded);
    }

    method EncodeText(u: Unicode, text: Octets, depth: nat, maxDepth: int) returns (status: Status)
      modifies this
      ensures status.Done?
              <==> u.valid(text) && depth <= maxDepth && old(items) < maxItems
                   && |old(encoded)| + |KeyBytes(u.nfc(text))| <= maxBytes
      ensures status.Done? ==> encoded == old(encoded) + KeyBytes(u.nfc(text)) && items == old(items) + 1
      ensures status.Refused? ==> status.why == LimitExceeded || (status.why == InvalidValue && !u.valid(text))
    {
      hide Head;
      var ok := Enter(depth, maxDepth);
      if !ok {
        return Refused(LimitExceeded);
      }
      if !u.valid(text) {
        return Refused(InvalidValue);
      }
      status := PutString(3, u.nfc(text));
    }

    method EncodeNumber(number: int) returns (status: Status)
      modifies this`encoded
      ensures status.Done?
              <==> -MAX_SAFE_INTEGER <= number <= MAX_SAFE_INTEGER
                   && |old(encoded)| + |Bytes(Number(number))| <= maxBytes
      ensures status.Done? ==> encoded == old(encoded) + Bytes(Number(number))
      ensures status.Refused? ==> status.why == LimitExceeded
                                  || (status.why == InvalidValue && !(-MAX_SAFE_INTEGER <= number <= MAX_SAFE_INTEGER))
    {
      hide Head;
      var ok;
      if number >= 0 {
        if number > MAX_SAFE_INTEGER {
          return Refused(InvalidValue);
        }
        ok := AppendHead(0, number);
      } else {
        if number < -MAX_SAFE_INTEGER {
          return Refused(InvalidValue);
        }
        ok := AppendHead(1, -1 - number);
      }
      return if ok then Done else Refused(LimitExceeded);
    }

    method Encode(u: Unicode, value: Value, depth: nat, maxDepth: int) returns (status: Status)
      requires u.Lawful()
      modifies this
      ensures status.Done? <==> Admits(u, value, maxDepth - depth, maxItems - old(items), maxBytes - |old(encoded)|)
      ensures status.Done?
              ==> encoded == old(encoded) + Bytes(Normal(u, value)) && items == old(items) + Items(Normal(u, value))
      ensures status.Refused?
              ==> status.why == LimitExceeded
                  || ((status.why == InvalidValue || status.why == DuplicateKey) && !Encodable(u, value))
      decreases value, 2
    {
      hide Head, ListBytes, ListItems, EntryBytes, EntryItems, Ascending;
      if value.Text? {
        status := EncodeText(u, value.text, depth, maxDepth);
        return;
      }
      if value.List? {
        status := EncodeList(u, value.items, depth, maxDepth);
        return;
      }
      if value.Dict? {
        status := EncodeDict(u, value.entries, depth, maxDepth);
        return;
      }
      var ok := Enter(depth, maxDepth);
      if !ok {
        return Refused(LimitExceeded);
      }
      match value {
        case Null =>
          ok := AppendBytes([0xf6]);
          return if ok then Done else Refused(LimitExceeded);
        case Flag(flag) =>
          ok := AppendBytes(if flag then [0xf5] else [0xf4]);
          return if ok then Done else Refused(LimitExceeded);
        case Number(number) =>
          status := EncodeNumber(number);
        case Blob(bytes) =>
          status := PutString(2, bytes);
        case Unsupported =>
          return Refused(InvalidValue);
      }
    }

    method EncodeList(u: Unicode, all: seq<Value>, depth: nat, maxDepth: int) returns (status: Status)
      requires u.Lawful()
      modifies this
      ensures status.Done? <==> Admits(u, List(all), maxDepth - depth, maxItems - old(items), maxBytes - |old(encoded)|)
      ensures status.Done?
              ==> encoded == old(encoded) + Bytes(Normal(u, List(all)))
                  && items == old(items) + Items(Normal(u, List(all)))
      ensures status.Refused?
              ==> status.why == LimitExceeded
                  || ((status.why == InvalidValue || status.why == DuplicateKey) && !Encodable(u, List(all)))
      decreases List(all), 1
    {
      hide Head, ListBytes, ListItems;
      ListAdmits(u, all, maxDepth - depth, maxItems - items, maxBytes - |encoded|);
      var ok := Enter(depth, maxDepth);
      if !ok {
        return Refused(LimitExceeded);
      }
      if |all| > maxItems - items {
        return Refused(LimitExceeded);
      }
      ok := AppendHead(4, |all|);
      if !ok {
        return Refused(LimitExceeded);
      }
      status := EncodeItems(u, all, depth, maxDepth);
    }

    method EncodeItems(u: Unicode, all: seq<Value>, depth: nat, maxDepth: int) returns (status: Status)
      requires u.Lawful() && items <= maxItems && |encoded| <= maxBytes
      modifies this
      ensures status.Done?
              <==> AdmitsItems(u, all, maxDepth - depth - 1, maxItems - old(items), maxBytes - |old(encoded)|)
      ensures status.Done?
              ==> encoded == old(encoded) + ListBytes(Normal(u, List(all)).items)
                  && items == old(items) + ListItems(Normal(u, List(all)).items)
      ensures status.Refused?
              ==> status.why == LimitExceeded
                  || ((status.why == InvalidValue || status.why == DuplicateKey) && !Encodable(u, List(all)))
      decreases all, 1
    {
      hide ListBytes, ListItems, Bytes, Items, Shallow;
      ghost var normal := Normal(u, List(all)).items;
      EmptyList();
      for i := 0 to |all|
        invariant encoded == old(encoded) + ListBytes(normal[..i]) && items == old(items) + ListItems(normal[..i])
        invariant ListItems(normal[..i]) <= maxItems - old(items)
                  && |ListBytes(normal[..i])| <= maxBytes - |old(encoded)|
        invariant forall j | 0 <= j < i :: Encodable(u, all[j]) && Shallow(normal[j], maxDepth - depth - 1)
      {
        status := Encode(u, all[i], depth + 1, maxDepth);
        if status.Refused? {
          ItemRefused(u, all, i, maxDepth - depth - 1, maxItems - old(items), maxBytes - |old(encoded)|);
          return;
        }
        assert normal[..i + 1] == normal[..i] + [normal[i]];
        CanonicalReading.ListAppend(normal[..i], normal[i]);
      }
      assert normal[..|all|] == normal;
      return Done;
    }

    method EncodeDict(u: Unicode, entries: map<Octets, Value>, depth: nat, maxDepth: int) returns (status: Status)
      requires u.Lawful()
      modifies this
      ensures status.Done?
              <==> Admits(u, Dict(entries), maxDepth - depth, maxItems - old(items), maxBytes - |old(encoded)|)
      ensures status.Done?
              ==> encoded == old(encoded) + Bytes(Normal(u, Dict(entries)))
                  && items == old(items) + Items(Normal(u, Dict(entries)))
      ensures status.Refused?
              ==> status.why == LimitExceeded
                  || ((status.why == InvalidValue || status.why == DuplicateKey) && !Encodable(u, Dict(entries)))
      decreases Dict(entries), 1
    {
      hide Head, EntryBytes, EntryItems, Ascending, Prepared, KeysFine, Collected, Ascends, Apart, AdmitsEntries,
           Admits, SortEntries, KeysOf, Bytes, Items, Normal, NormalEntries, Encodable;
      DictNeeds(u, entries, maxDepth - depth, maxItems - items, maxBytes - |encoded|);
      var ok := Enter(depth, maxDepth);
      if !ok {
        return Refused(LimitExceeded);
      }
      if |entries| > (maxItems - items) / 2 {
        return Refused(LimitExceeded);
      }
      var list;
      status, list := Collect(u, entries, depth, maxDepth);
      if status.Refused? {
        return;
      }
      var sorted := SortEntries(list);
      SortPrepares(u, entries, list, sorted);
      DictAdmits(u, entries, sorted, maxDepth - depth, maxItems - old(items), maxBytes - |encoded|);
      ok := AppendHead(5, |sorted|);
      if !ok {
        EntriesNeedRoom(u, entries, sorted, maxDepth - depth - 1, maxItems - items,
                        maxBytes - |encoded| - |Head(5, |sorted|)|);
        return Refused(LimitExceeded);
      }
      status := EncodeEntries(u, entries, sorted, depth, maxDepth);
    }

    method EncodeEntry(u: Unicode, entry: Entry, depth: nat, maxDepth: int) returns (status: Status)
      requires u.Lawful() && items <= maxItems && |encoded| <= maxBytes
      modifies this
      ensures status.Done? <==>
                && old(items) < maxItems && |old(encoded)| + |entry.encoded| <= maxBytes
                && Admits(u, entry.value, maxDepth - depth - 1, maxItems - old(items) - 1,
                          maxBytes - |old(encoded)| - |entry.encoded|)
      ensures status.Done? ==> encoded == old(encoded) + entry.encoded + Bytes(Normal(u, entry.value))
      ensures status.Done? ==> items == old(items) + 1 + Items(Normal(u, entry.value))
      ensures status.Refused?
              ==> status.why == LimitExceeded
                  || ((status.why == InvalidValue || status.why == DuplicateKey) && !Encodable(u, entry.value))
      decreases entry.value, 3
    {
      hide Bytes, Items, Normal, Encodable, Admits;
      if items >= maxItems {
        return Refused(LimitExceeded);
      }
      items := items + 1;
      var ok := AppendBytes(entry.encoded);
      if !ok {
        return Refused(LimitExceeded);
      }
      status := Encode(u, entry.value, depth + 1, maxDepth);
    }

    method EncodeEntries(u: Unicode, ghost entries: map<Octets, Value>, sorted: seq<Entry>, depth: nat, maxDepth: int)
      returns (status: Status)
      requires u.Lawful() && Prepared(u, entries, sorted) && items <= maxItems && |encoded| <= maxBytes
      modifies this
      ensures status.Done?
              <==> AdmitsEntries(u, entries, sorted, maxDepth - depth - 1, maxItems - old(items),
                                 maxBytes - |old(encoded)|)
      ensures status.Done? ==>
                && encoded == old(encoded) + EntryBytes(NormalEntries(u, entries), KeysOf(sorted))
                && items == old(items) + EntryItems(NormalEntries(u, entries), KeysOf(sorted))
      ensures status.Refused?
              ==> status.why == LimitExceeded
                  || ((status.why == InvalidValue || status.why == DuplicateKey) && !Encodable(u, Dict(entries)))
      decreases Dict(entries), 0
    {
      hide EntryBytes, EntryItems, Bytes, Items, Shallow, KeyBytes, Normal, NormalEntries, Encodable, Ascending,
           Prepared, AdmitsEntries, KeysOf;
      ghost var normal, keys := NormalEntries(u, entries), KeysOf(sorted);
      PreparedKeys(u, entries, sorted);
      EmptyEntries(normal);
      assert keys[..0] == [];
      for i := 0 to |sorted|
        invariant encoded == old(encoded) + EntryBytes(normal, keys[..i])
                  && items == old(items) + EntryItems(normal, keys[..i])
        invariant items <= maxItems && |encoded| <= maxBytes
        invariant forall j | 0 <= j < i ::
                  Encodable(u, sorted[j].value) && Shallow(Normal(u, sorted[j].value), maxDepth - depth - 1)
      {
        EntryRoom(u, entries, sorted, i, maxDepth - depth - 1, maxItems - old(items), maxBytes - |old(encoded)|);
        ValueSmaller(u, entries, sorted, i);
        status := EncodeEntry(u, sorted[i], depth, maxDepth);
        if status.Refused? {
          return;
        }
        EntryWritten(u, entries, sorted, i);
      }
      assert keys[..|sorted|] == keys;
      AllWritten(u, entries, sorted, maxDepth - depth - 1, maxItems - old(items), maxBytes - |old(encoded)|);
      return Done;
    }
  }

  /** Encodes one map key in a writer of its own; the bounds of that writer are never met. */
  method EncodeKey(u: Unicode, key: Octets, depth: nat, maxDepth: int) returns (status: Status, encoded: Octets)
    requires u.Lawful() && u.valid(key)
    ensures status == if depth <= maxDepth then Done else Refused(LimitExceeded)
    ensures status.Done? ==> encoded == KeyBytes(u.nfc(key))
  {
    var normal := u.nfc(key);
    var writer := new Writer(|normal| + 9, 1);
    assert |KeyBytes(u.nfc(normal))| <= |normal| + 9;
    status := writer.EncodeText(u, normal, depth, maxDepth);
    encoded := writer.encoded;
  }

  /** Walks the map in any order, normalising and encoding its keys. */
  method Collect(u: Unicode, entries: map<Octets, Value>, depth: nat, maxDepth: int)
    returns (status: Status, list: seq<Entry>)
    requires u.Lawful()
    ensures status.Done? ==> KeysFine(u, entries.Keys) && Collected(u, entries, entries.Keys, list) && Apart(list)
    ensures status.Done? ==> entries == map[] || depth + 1 <= maxDepth
    ensures status.Refused? ==>
              || (status.why == LimitExceeded && depth + 1 > maxDepth && entries != map[])
              || ((status.why == InvalidValue || status.why == DuplicateKey) && !KeysFine(u, entries.Keys))
  {
    hide KeyBytes;
    list := [];
    var seen: set<Octets> := {};
    var rest := entries.Keys;
    ghost var done: set<Octets> := {};
    while rest != {}
      invariant done + rest == entries.Keys && done !! rest
      invariant KeysFine(u, done) && Collected(u, entries, done, list) && Apart(list)
      invariant forall normal :: normal in seen <==> exists key :: key in done && u.nfc(key) == normal
      invariant done == {} || depth + 1 <= maxDepth
    {
      var key :| key in rest;
      if !u.valid(key) {
        return Refused(InvalidValue), [];
      }
      var normal := u.nfc(key);
      if normal in seen {
        return Refused(DuplicateKey), [];
      }
      seen := seen + {normal};
      var encoded;
      status, encoded := EncodeKey(u, key, depth + 1, maxDepth);
      if status.Refused? {
        return status, [];
      }
      CollectNext(u, entries, done, list, key);
      list := list + [Entry(normal, encoded, entries[key])];
      done, rest := done + {key}, rest - {key};
    }
    assert done == entries.Keys;
    status := Done;
  }

  lemma EmptyEntries(entries: map<Octets, Value>)
    ensures EntryBytes(entries, []) == [] && EntryItems(entries, []) == 0
  {
  }

  lemma {:induction false} NormalCount(u: Unicode, keys: set<Octets>)
    requires KeysFine(u, keys)
    ensures |set key | key in keys :: u.nfc(key)| == |keys|
    decreases |keys|
  {
    var normal := set key | key in keys :: u.nfc(key);
    if keys == {} {
      assert normal == {};
    } else {
      var key :| key in keys;
      var rest := keys - {key};
      NormalCount(u, rest);
      var others := set other | other in rest :: u.nfc(other);
      assert normal == others + {u.nfc(key)} && u.nfc(key) !in others;
    }
  }

  /** What a map needs before any of its values is looked at. */
  lemma DictNeeds(u: Unicode, entries: map<Octets, Value>, depth: int, items: int, size: int)
    ensures Admits(u, Dict(entries), depth, items, size) ==>
              && KeysFine(u, entries.Keys) && 0 <= depth && 1 + 2 * |entries| <= items
              && (entries != map[] ==> 1 <= depth)
    ensures Encodable(u, Dict(entries)) ==> KeysFine(u, entries.Keys)
  {
    hide EntryBytes, EntryItems, Ascending, Sorted, Head;
    if Admits(u, Dict(entries), depth, items, size) {
      var normal := NormalEntries(u, entries);
      DictNormal(u, entries);
      NormalCount(u, entries.Keys);
      assert normal.Keys == set key | key in entries.Keys :: u.nfc(key);
      SortedCount(Ascending(normal.Keys), normal.Keys);
      assert |entries| == |entries.Keys|;
      if entries != map[] {
        var key :| key in entries;
        assert u.nfc(key) in normal;
        assert Shallow(normal[u.nfc(key)], depth - 1);
      }
    }
  }

  lemma EntriesNeedRoom(u: Unicode, entries: map<Octets, Value>, sorted: seq<Entry>, depth: int, items: int, size: int)
    requires Prepared(u, entries, sorted) && size < 0
    ensures !AdmitsEntries(u, entries, sorted, depth, items, size)
  {
  }

  /** Room for the whole is room for entry i after the entries before it. */
  lemma EntryRoom(u: Unicode, entries: map<Octets, Value>, sorted: seq<Entry>, i: nat, depth: int, items: int,
                  size: int)
    requires Prepared(u, entries, sorted) && i < |sorted|
    ensures forall key | key in KeysOf(sorted)[..i] :: key in NormalEntries(u, entries)
    ensures AdmitsEntries(u, entries, sorted, depth, items, size) ==>
              var before := KeysOf(sorted)[..i];
              var itemsLeft := items - EntryItems(NormalEntries(u, entries), before) - 1;
              var sizeLeft := size - |EntryBytes(NormalEntries(u, entries), before)| - |sorted[i].encoded|;
              Admits(u, sorted[i].value, depth, itemsLeft, sizeLeft) && 0 <= itemsLeft && 0 <= sizeLeft
  {
    hide EntryBytes, EntryItems, Bytes, Items, Shallow, Encodable, KeyBytes, Normal, NormalEntries, Sorted, Includes;
    EntryPart(NormalEntries(u, entries), KeysOf(sorted), i);
    assert Ready(u, entries, sorted[i]);
  }

  lemma ReadyValue(u: Unicode, entries: map<Octets, Value>, entry: Entry)
    requires Ready(u, entries, entry)
    ensures exists key :: key in entries && entries[key] == entry.value
  {
  }

  lemma ValueSmaller(u: Unicode, entries: map<Octets, Value>, sorted: seq<Entry>, i: nat)
    requires Prepared(u, entries, sorted) && i < |sorted|
    ensures sorted[i].value < Dict(entries)
    ensures !Encodable(u, sorted[i].value) ==> !Encodable(u, Dict(entries))
  {
    hide Ready, Includes, KeysOf, NormalEntries, Ascending;
    ReadyValue(u, entries, sorted[i]);
    var key :| key in entries && entries[key] == sorted[i].value;
  }

  lemma EntryWritten(u: Unicode, entries: map<Octets, Value>, sorted: seq<Entry>, i: nat)
    requires Prepared(u, entries, sorted) && i < |sorted|
    requires forall key | key in KeysOf(sorted) :: key in NormalEntries(u, entries)
    ensures var normal, keys, value := NormalEntries(u, entries), KeysOf(sorted), Normal(u, sorted[i].value);
            && EntryBytes(normal, keys[..i + 1]) == EntryBytes(normal, keys[..i]) + sorted[i].encoded + Bytes(value)
            && EntryItems(normal, keys[..i + 1]) == EntryItems(normal, keys[..i]) + 1 + Items(value)
  {
    hide Bytes, Items, KeyBytes, Normal, NormalEntries, Sorted, Includes, Ascending;
    assert Ready(u, entries, sorted[i]);
    assert KeysOf(sorted)[..i + 1][..i] == KeysOf(sorted)[..i];
  }

  lemma AllWritten(u: Unicode, entries: map<Octets, Value>, sorted: seq<Entry>, depth: int, items: int, size: int)
    requires Prepared(u, entries, sorted)
    requires forall i | 0 <= i < |sorted| :: Encodable(u, sorted[i].value) && Shallow(Normal(u, sorted[i].value), depth)
    requires forall key | key in KeysOf(sorted) :: key in NormalEntries(u, entries)
    requires EntryItems(NormalEntries(u, entries), KeysOf(sorted)) <= items
    requires |EntryBytes(NormalEntries(u, entries), KeysOf(sorted))| <= size
    ensures AdmitsEntries(u, entries, sorted, depth, items, size)
  {
  }

  lemma PreparedKeys(u: Unicode, entries: map<Octets, Value>, sorted: seq<Entry>)
    requires Prepared(u, entries, sorted)
    ensures |KeysOf(sorted)| == |sorted| && forall key | key in KeysOf(sorted) :: key in NormalEntries(u, entries)
  {
  }
}
