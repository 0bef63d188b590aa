/** The reading accepts exactly the canonical byte forms: what it returns re-encodes
    to the bytes it consumed, and every canonical form within limits is read back. */
module CanonicalReading {
  import opened CanonicalForm
  import opened CanonicalParser

  /** A canonical value that starts at `at` and ends where the reading ends. */
  ghost predicate Reads(u: Unicode, b: Octets, limits: Limits, at: nat, items: nat, depth: nat, reading: Reading)
    requires reading.Read?
  {
    && at <= reading.at <= |b|
    && Canonical(u, reading.value)
    && Shallow(reading.value, limits.depth - depth)
    && reading.items == items + Items(reading.value)
    && reading.items <= limits.items
    && b[at..reading.at] == Bytes(reading.value)
  }

  lemma Join(b: Octets, from: nat, mid: nat, to: nat)
    requires from <= mid <= to <= |b|
    ensures b[from..to] == b[from..mid] + b[mid..to]
  {
  }

  lemma {:induction false} ParseSound(u: Unicode, b: Octets, limits: Limits, at: nat, items: nat, depth: nat)
    requires at <= |b|
    requires Parse(u, b, limits, at, items, depth).Read?
    ensures Reads(u, b, limits, at, items, depth, Parse(u, b, limits, at, items, depth))
    decreases |b| - at, 0
  {
    hide Lexical, Ascending, Sorted, Lists;
    var reading := Parse(u, b, limits, at, items, depth);
    if b[at] / 32 == 7 {
      assert b[at..reading.at] == [b[at]];
    } else {
      ArgumentSound(b, at);
      var argument := ReadArgument(b, at + 1, b[at] % 32);
      Join(b, at, argument.at, reading.at);
      BodySound(u, b, limits, at, b[at] / 32, argument.value, argument.at, items, depth);
    }
  }

  lemma {:induction false} BodySound(u: Unicode, b: Octets, limits: Limits, start: nat, major: nat, argument: nat,
                                     at: nat, items: nat, depth: nat)
    requires start < at <= |b| && major <= 5 && depth <= limits.depth && items < limits.items
    requires b[start..at] == Head(major, argument)
    requires ParseBody(u, b, limits, major, argument, at, items + 1, depth).Read?
    ensures Reads(u, b, limits, start, items, depth, ParseBody(u, b, limits, major, argument, at, items + 1, depth))
    decreases |b| - at, 3
  {
    hide Lexical, Ascending, Sorted, Lists, Head, EntryBytes, EntryItems, ListBytes, ListItems, ParseList, ParseDict,
         ListSoFar, DictSoFar;
    var reading := ParseBody(u, b, limits, major, argument, at, items + 1, depth);
    Join(b, start, at, reading.at);
    if major == 4 {
      ListStart(u, b, limits, at, items + 1, depth);
      ListSound(u, b, limits, at, at, items + 1, items + 1, depth, argument, []);
      ListReads(u, b, limits, start, argument, at, items, depth, reading);
    } else if major == 5 {
      DictStart(u, b, limits, at, items + 1, depth);
      DictSound(u, b, limits, at, at, items + 1, items + 1, depth, argument, map[], []);
      DictReads(u, b, limits, start, argument, at, items, depth, reading);
    }
  }

  lemma ListReads(u: Unicode, b: Octets, limits: Limits, start: nat, argument: nat, at: nat, items: nat, depth: nat,
                  reading: Reading)
    requires start <= at <= |b| && b[start..at] == Head(4, argument) && depth <= limits.depth
    requires reading.Read? && reading.value.List? && |reading.value.items| == argument
    requires ListSoFar(u, b, limits, at, reading.at, items + 1, reading.items, depth, reading.value.items)
    ensures Reads(u, b, limits, start, items, depth, reading)
  {
    hide Head, ListBytes, ListItems;
    Join(b, start, at, reading.at);
  }

  lemma DictReads(u: Unicode, b: Octets, limits: Limits, start: nat, argument: nat, at: nat, items: nat, depth: nat,
                  reading: Reading)
    requires start <= at <= |b| && b[start..at] == Head(5, argument) && depth <= limits.depth
    requires reading.Read? && reading.value.Dict? && |reading.value.entries| == argument
    requires DictSoFar(u, b, limits, at, reading.at, items + 1, reading.items, depth, reading.value.entries,
                       Ascending(reading.value.entries.Keys))
    ensures Reads(u, b, limits, start, items, depth, reading)
  {
    hide Head, EntryBytes, EntryItems, Ascending, Sorted;
    Join(b, start, at, reading.at);
  }

  lemma ListStart(u: Unicode, b: Octets, limits: Limits, at: nat, items: nat, depth: nat)
    requires at <= |b| && items <= limits.items
    ensures ListSoFar(u, b, limits, at, at, items, items, depth, [])
  {
  }

  lemma DictStart(u: Unicode, b: Octets, limits: Limits, at: nat, items: nat, depth: nat)
    requires at <= |b| && items <= limits.items
    ensures DictSoFar(u, b, limits, at, at, items, items, depth, map[], []) && LastKey([]) == []
  {
  }

  ghost predicate AllCanonical(u: Unicode, items: seq<Value>, depth: int) {
    forall i | 0 <= i < |items| :: Canonical(u, items[i]) && Shallow(items[i], depth)
  }

  /** What the array loop keeps: the bytes since `start` are those of the elements read. */
  ghost predicate ListSoFar(u: Unicode, b: Octets, limits: Limits, start: nat, at: nat, before: nat, items: nat,
                            depth: nat, done: seq<Value>) {
    && start <= at <= |b| && items <= limits.items
    && b[start..at] == ListBytes(done) && items == before + ListItems(done)
    && AllCanonical(u, done, limits.depth - depth - 1)
  }

  lemma ListAppend(done: seq<Value>, value: Value)
    ensures ListBytes(done + [value]) == ListBytes(done) + Bytes(value)
    ensures ListItems(done + [value]) == ListItems(done) + Items(value)
  {
    hide Bytes, Items;
    assert (done + [value])[..|done|] == done;
  }

  lemma ListNext(u: Unicode, b: Octets, limits: Limits, start: nat, at: nat, before: nat, items: nat, depth: nat,
                 done: seq<Value>, next: Reading)
    requires ListSoFar(u, b, limits, start, at, before, items, depth, done)
    requires next.Read? && Reads(u, b, limits, at, items, depth + 1, next)
    ensures ListSoFar(u, b, limits, start, next.at, before, next.items, depth, done + [next.value])
  {
    hide Canonical, Shallow, Bytes, Items, ListBytes, ListItems;
    Join(b, start, at, next.at);
    ListAppend(done, next.value);
  }

  lemma {:induction false} ListSound(u: Unicode, b: Octets, limits: Limits, start: nat, at: nat, before: nat,
                                     items: nat, depth: nat, left: nat, done: seq<Value>)
    requires at <= |b| && ListSoFar(u, b, limits, start, at, before, items, depth, done)
    requires ParseList(u, b, limits, at, items, depth, left, done).Read?
    ensures var reading := ParseList(u, b, limits, at, items, depth, left, done);
            && reading.value.List? && |reading.value.items| == |done| + left
            && ListSoFar(u, b, limits, start, reading.at, before, reading.items, depth, reading.value.items)
    decreases |b| - at, 2
  {
    hide ListSoFar, Reads, Parse;
    if left != 0 {
      var next := Parse(u, b, limits, at, items, depth + 1);
      ParseSound(u, b, limits, at, items, depth + 1);
      ListNext(u, b, limits, start, at, before, items, depth, done, next);
      ListSound(u, b, limits, start, next.at, before, next.items, depth, left - 1, done + [next.value]);
    }
  }

  ghost predicate EntriesCanonical(u: Unicode, entries: map<Octets, Value>, depth: int) {
    forall key | key in entries :: u.Normalised(key) && Canonical(u, entries[key]) && Shallow(entries[key], depth)
  }

  /** A later entry does not disturb the bytes and counts of the earlier keys. */
  lemma {:induction false} EntryFrame(entries: map<Octets, Value>, keys: seq<Octets>, key: Octets, value: Value)
    requires key !in keys && forall k | k in keys :: k in entries
    ensures EntryBytes(entries[key := value], keys) == EntryBytes(entries, keys)
    ensures EntryItems(entries[key := value], keys) == EntryItems(entries, keys)
    decreases |keys|
  {
    hide Bytes, Items;
    if keys != [] {
      EntryFrame(entries, keys[..|keys| - 1], key, value);
    }
  }

  lemma EntryNext(entries: map<Octets, Value>, keys: seq<Octets>, key: Octets, value: Value)
    requires key !in keys && Lists(keys, entries.Keys)
    ensures EntryBytes(entries[key := value], keys + [key]) == EntryBytes(entries, keys) + KeyBytes(key) + Bytes(value)
    ensures EntryItems(entries[key := value], keys + [key]) == EntryItems(entries, keys) + 1 + Items(value)
  {
    hide Bytes, Items;
    EntryFrame(entries, keys, key, value);
    assert (keys + [key])[..|keys|] == keys;
  }

  /** What the map loop keeps: the keys read so far are sorted, are the keys of the
      result, and the bytes since `start` are those of the entries. */
  ghost predicate DictSoFar(u: Unicode, b: Octets, limits: Limits, start: nat, at: nat, before: nat, items: nat,
                            depth: nat, done: map<Octets, Value>, keys: seq<Octets>)
  {
    && start <= at <= |b| && items <= limits.items
    && Sorted(keys) && Lists(keys, done.Keys)
    && b[start..at] == EntryBytes(done, keys) && items == before + EntryItems(done, keys)
    && EntriesCanonical(u, done, limits.depth - depth - 1)
  }

  lemma DictNext(u: Unicode, b: Octets, limits: Limits, start: nat, at: nat, before: nat, items: nat, depth: nat,
                 done: map<Octets, Value>, keys: seq<Octets>, text: Octets, mid: nat, next: Reading)
    requires DictSoFar(u, b, limits, start, at, before, items, depth, done, keys)
    requires text !in keys && Sorted(keys + [text]) && Lists(keys + [text], done.Keys + {text}) && u.Normalised(text)
    requires at <= mid <= |b| && b[at..mid] == KeyBytes(text)
    requires next.Read? && Reads(u, b, limits, mid, items + 1, depth + 1, next)
    ensures DictSoFar(u, b, limits, start, next.at, before, next.items, depth, done[text := next.value], keys + [text])
  {
    hide Canonical, Shallow, Bytes, Items, Sorted, KeyBytes, EntryBytes, EntryItems;
    EntryNext(done, keys, text, next.value);
    Join(b, start, at, next.at);
    Join(b, at, mid, next.at);
    assert done[text := next.value].Keys == done.Keys + {text};
  }

  lemma {:induction false} DictSound(u: Unicode, b: Octets, limits: Limits, start: nat, at: nat, before: nat,
                                     items: nat, depth: nat, left: nat, done: map<Octets, Value>, keys: seq<Octets>)
    requires at <= |b| && DictSoFar(u, b, limits, start, at, before, items, depth, done, keys)
    requires ParseDict(u, b, limits, at, items, depth, left, done, LastKey(keys)).Read?
    ensures var reading := ParseDict(u, b, limits, at, items, depth, left, done, LastKey(keys));
            && reading.value.Dict? && |reading.value.entries| == |keys| + left
            && DictSoFar(u, b, limits, start, reading.at, before, reading.items, depth, reading.value.entries,
                         Ascending(reading.value.entries.Keys))
    decreases |b| - at, 2
  {
    hide DictSoFar, Reads, Parse, ParseKey, Sorted, Lists, KeyBytes, Ascending, LastKey;
    if left == 0 {
      assert Sorted(keys) && Lists(keys, done.Keys) by {
        SoFarListed(u, b, limits, start, at, before, items, depth, done, keys);
      }
      SortedCount(keys, done.Keys);
      AscendingIs(keys, done.Keys);
    } else {
      SoFarListed(u, b, limits, start, at, before, items, depth, done, keys);
      var key := ParseKey(u, b, limits, at, items, depth, done, LastKey(keys));
      KeySound(u, b, limits, at, items, depth, done, keys);
      var next := Parse(u, b, limits, key.at, key.items, depth + 1);
      ParseSound(u, b, limits, key.at, key.items, depth + 1);
      var text := key.value.text;
      DictNext(u, b, limits, start, at, before, items, depth, done, keys, text, key.at, next);
      DictSound(u, b, limits, start, next.at, before, next.items, depth, left - 1, done[text := next.value],
                keys + [text]);
    }
  }

  lemma SoFarListed(u: Unicode, b: Octets, limits: Limits, start: nat, at: nat, before: nat, items: nat, depth: nat,
                    done: map<Octets, Value>, keys: seq<Octets>)
    requires DictSoFar(u, b, limits, start, at, before, items, depth, done, keys)
    ensures Sorted(keys) && Lists(keys, done.Keys)
  {
  }

  /** The encoding the next key is compared with; empty before the first. */
  ghost function LastKey(keys: seq<Octets>): Octets {
    if keys == [] then [] else KeyBytes(keys[|keys| - 1])
  }

  lemma {:induction false} KeySound(u: Unicode, b: Octets, limits: Limits, at: nat, items: nat, depth: nat,
                                    done: map<Octets, Value>, keys: seq<Octets>)
    requires at <= |b| && Sorted(keys) && Lists(keys, done.Keys)
    requires ParseKey(u, b, limits, at, items, depth, done, LastKey(keys)).Read?
    ensures var key := ParseKey(u, b, limits, at, items, depth, done, LastKey(keys));
            && u.Normalised(key.value.text) && key.value.text !in keys
            && key.items == items + 1 <= limits.items && depth + 1 <= limits.depth
            && b[at..key.at] == KeyBytes(key.value.text)
            && Sorted(keys + [key.value.text]) && Lists(keys + [key.value.text], done.Keys + {key.value.text})
            && LastKey(keys + [key.value.text]) == b[at..key.at]
    decreases |b| - at, 1
  {
    hide Sorted, KeyBytes, LengthFirst, Parse;
    ParseSound(u, b, limits, at, items, depth + 1);
    var key := ParseKey(u, b, limits, at, items, depth, done, LastKey(keys));
    SortedEnds(keys, key.value.text);
  }
}
