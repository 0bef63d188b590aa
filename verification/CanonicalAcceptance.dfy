/** Every canonical byte form within the limits is read back to its value. */
module CanonicalAcceptance {
  import opened CanonicalForm
  import opened CanonicalParser
  import opened CanonicalReading

  /** The canonical value stands at `at`, and the limits leave room for it. */
  ghost predicate Fits(u: Unicode, b: Octets, limits: Limits, at: nat, items: nat, depth: nat, value: Value) {
    && |b| <= MAX_INT
    && Canonical(u, value)
    && Shallow(value, limits.depth - depth)
    && items + Items(value) <= limits.items
    && Occurs(b, at, Bytes(value))
  }

  ghost function Whole(at: nat, items: nat, value: Value): Reading {
    Read(value, at + |Bytes(value)|, items + Items(value))
  }

  lemma OccursSplit(b: Octets, at: nat, front: Octets, back: Octets)
    requires Occurs(b, at, front + back)
    ensures Occurs(b, at, front) && Occurs(b, at + |front|, back)
  {
    var part := b[at..at + |front + back|];
    assert part == front + back;
    assert b[at..at + |front|] == part[..|front|];
    assert b[at + |front|..at + |front| + |back|] == part[|front|..];
  }

  lemma TextComplete(u: Unicode, b: Octets, limits: Limits, at: nat, items: nat, depth: nat, text: Octets)
    requires |b| <= MAX_INT && u.Normalised(text) && depth <= limits.depth && items < limits.items
    requires Occurs(b, at, KeyBytes(text))
    ensures at < |b| && b[at] / 32 == 3
    ensures Parse(u, b, limits, at, items, depth) == Read(Text(text), at + |KeyBytes(text)|, items + 1)
  {
    OccursSplit(b, at, Head(3, |text|), text);
    ArgumentComplete(b, at, 3, |text|);
  }

  lemma SimpleComplete(u: Unicode, b: Octets, limits: Limits, at: nat, items: nat, depth: nat, value: Value)
    requires Fits(u, b, limits, at, items, depth, value) && (value.Null? || value.Flag?)
    ensures at <= |b| && Parse(u, b, limits, at, items, depth) == Whole(at, items, value)
  {
    hide ReadArgument, Head, ParseList, ParseDict, ParseBody;
    assert b[at] == b[at..at + 1][0];
  }

  lemma NumberComplete(u: Unicode, b: Octets, limits: Limits, at: nat, items: nat, depth: nat, n: int)
    requires Fits(u, b, limits, at, items, depth, Number(n))
    ensures at <= |b| && Parse(u, b, limits, at, items, depth) == Whole(at, items, Number(n))
  {
    hide ReadArgument, Head, ParseList, ParseDict;
    ArgumentComplete(b, at, if n >= 0 then 0 else 1, if n >= 0 then n else -1 - n);
  }

  lemma BlobComplete(u: Unicode, b: Octets, limits: Limits, at: nat, items: nat, depth: nat, bytes: Octets)
    requires Fits(u, b, limits, at, items, depth, Blob(bytes))
    ensures at <= |b| && Parse(u, b, limits, at, items, depth) == Whole(at, items, Blob(bytes))
  {
    hide ReadArgument, Head, ParseList, ParseDict;
    OccursSplit(b, at, Head(2, |bytes|), bytes);
    ArgumentComplete(b, at, 2, |bytes|);
  }

  lemma {:induction false} ParseComplete(u: Unicode, b: Octets, limits: Limits, at: nat, items: nat, depth: nat,
                                         value: Value)
    requires Fits(u, b, limits, at, items, depth, value)
    ensures at <= |b| && Parse(u, b, limits, at, items, depth) == Whole(at, items, value)
    decreases value, 1
  {
    hide Parse, Head, Lexical, Ascending, Sorted, Lists;
    match value
    case Null => SimpleComplete(u, b, limits, at, items, depth, value);
    case Flag(_) => SimpleComplete(u, b, limits, at, items, depth, value);
    case Number(n) => NumberComplete(u, b, limits, at, items, depth, n);
    case Text(text) => TextComplete(u, b, limits, at, items, depth, text);
    case Blob(bytes) => BlobComplete(u, b, limits, at, items, depth, bytes);
    case List(all) => ListParses(u, b, limits, at, items, depth, all);
    case Dict(entries) => DictParses(u, b, limits, at, items, depth, entries);
  }

  lemma {:induction false} BytesPositive(u: Unicode, value: Value)
    requires Canonical(u, value)
    ensures 1 <= |Bytes(value)|
  {
    hide EntryBytes, Ascending;
  }

  // ----- arrays -----

  lemma {:induction false} ListBounds(u: Unicode, all: seq<Value>, depth: int)
    requires AllCanonical(u, all, depth)
    ensures |all| <= |ListBytes(all)|
  {
    hide Bytes, Canonical, Shallow;
    if all != [] {
      ListBounds(u, all[..|all| - 1], depth);
      BytesPositive(u, all[|all| - 1]);
    }
  }

  /** Element i stands right after the bytes of the elements before it. */
  lemma {:induction false} ListOccurs(b: Octets, start: nat, all: seq<Value>, i: nat)
    requires i < |all| && Occurs(b, start, ListBytes(all))
    ensures Occurs(b, start + |ListBytes(all[..i])|, Bytes(all[i]))
    ensures ListItems(all[..i]) + Items(all[i]) <= ListItems(all)
  {
    hide Bytes, Items, Occurs;
    var front := all[..|all| - 1];
    OccursSplit(b, start, ListBytes(front), Bytes(all[|all| - 1]));
    if i < |all| - 1 {
      assert front[..i] == all[..i];
      ListOccurs(b, start, front, i);
    }
  }

  lemma {:induction false} ListComplete(u: Unicode, b: Octets, limits: Limits, start: nat, items: nat, depth: nat,
                                        all: seq<Value>, i: nat)
    requires |b| <= MAX_INT && i <= |all| && AllCanonical(u, all, limits.depth - depth - 1)
    requires Occurs(b, start, ListBytes(all)) && items + ListItems(all) <= limits.items
    ensures var at := start + |ListBytes(all[..i])|;
            at <= |b| && ParseList(u, b, limits, at, items + ListItems(all[..i]), depth, |all| - i, all[..i])
                         == Read(List(all), start + |ListBytes(all)|, items + ListItems(all))
    decreases all, 0, |all| - i
  {
    hide Bytes, Items, Canonical, Shallow, Parse, ListBytes, ListItems;
    if i == |all| {
      assert all[..i] == all;
    } else {
      ListOccurs(b, start, all, i);
      var at := start + |ListBytes(all[..i])|;
      ParseComplete(u, b, limits, at, items + ListItems(all[..i]), depth + 1, all[i]);
      assert all[..i + 1] == all[..i] + [all[i]];
      ListAppend(all[..i], all[i]);
      ListComplete(u, b, limits, start, items, depth, all, i + 1);
    }
  }

  lemma {:induction false} ListParses(u: Unicode, b: Octets, limits: Limits, at: nat, items: nat, depth: nat,
                                      all: seq<Value>)
    requires Fits(u, b, limits, at, items, depth, List(all))
    ensures at <= |b| && Parse(u, b, limits, at, items, depth) == Whole(at, items, List(all))
    decreases List(all), 0
  {
    hide ReadArgument, Head, ParseList, ListBytes, ListItems, ParseDict;
    OccursSplit(b, at, Head(4, |all|), ListBytes(all));
    assert AllCanonical(u, all, limits.depth - depth - 1);
    ListBounds(u, all, limits.depth - depth - 1);
    ArgumentComplete(b, at, 4, |all|);
    assert all[..0] == [];
    EmptyList();
    assert |all| > 0 ==> Shallow(all[0], limits.depth - depth - 1);
    ListComplete(u, b, limits, at + |Head(4, |all|)|, items + 1, depth, all, 0);
  }

  // ----- maps -----

  lemma {:induction false} EntryBounds(u: Unicode, entries: map<Octets, Value>, keys: seq<Octets>, depth: int)
    requires EntriesCanonical(u, entries, depth) && forall key | key in keys :: key in entries
    ensures 2 * |keys| <= |EntryBytes(entries, keys)|
    decreases |keys|
  {
    hide Bytes, Canonical, Shallow, KeyBytes;
    if keys != [] {
      EntryBounds(u, entries, keys[..|keys| - 1], depth);
      BytesPositive(u, entries[keys[|keys| - 1]]);
    }
  }

  /** Entry i stands right after the bytes of the entries before it. */
  lemma {:induction false} EntryOccurs(b: Octets, start: nat, entries: map<Octets, Value>, keys: seq<Octets>, i: nat)
    requires i < |keys| && forall key | key in keys :: key in entries
    requires Occurs(b, start, EntryBytes(entries, keys))
    ensures var at := start + |EntryBytes(entries, keys[..i])|;
            && Occurs(b, at, KeyBytes(keys[i]))
            && Occurs(b, at + |KeyBytes(keys[i])|, Bytes(entries[keys[i]]))
    ensures EntryItems(entries, keys[..i]) + 1 + Items(entries[keys[i]]) <= EntryItems(entries, keys)
    decreases |keys|
  {
    hide Bytes, Items, Occurs, KeyBytes;
    var front := keys[..|keys| - 1];
    var last := keys[|keys| - 1];
    OccursSplit(b, start, EntryBytes(entries, front) + KeyBytes(last), Bytes(entries[last]));
    OccursSplit(b, start, EntryBytes(entries, front), KeyBytes(last));
    if i < |keys| - 1 {
      assert front[..i] == keys[..i];
      EntryOccurs(b, start, entries, front, i);
    }
  }

  /** The entries read before key i. */
  ghost function Earlier(entries: map<Octets, Value>, keys: seq<Octets>, i: nat): map<Octets, Value>
    requires i <= |keys| && forall key | key in keys :: key in entries
  {
    map key | key in keys[..i] :: entries[key]
  }

  lemma EarlierNext(entries: map<Octets, Value>, keys: seq<Octets>, i: nat)
    requires i < |keys| && forall key | key in keys :: key in entries
    ensures Earlier(entries, keys, i + 1) == Earlier(entries, keys, i)[keys[i] := entries[keys[i]]]
  {
    assert keys[..i + 1] == keys[..i] + [keys[i]];
  }

  lemma EarlierAll(entries: map<Octets, Value>, keys: seq<Octets>)
    requires Lists(keys, entries.Keys)
    ensures Earlier(entries, keys, |keys|) == entries
  {
    assert keys[..|keys|] == keys;
    assert Earlier(entries, keys, |keys|).Keys == entries.Keys;
  }

  lemma KeyComplete(u: Unicode, b: Octets, limits: Limits, at: nat, items: nat, depth: nat,
                    entries: map<Octets, Value>, keys: seq<Octets>, i: nat)
    requires |b| <= MAX_INT && i < |keys| && Sorted(keys) && forall key | key in keys :: key in entries
    requires u.Normalised(keys[i]) && depth + 1 <= limits.depth && items < limits.items
    requires Occurs(b, at, KeyBytes(keys[i]))
    ensures at <= |b| && ParseKey(u, b, limits, at, items, depth, Earlier(entries, keys, i), LastKey(keys[..i]))
                         == Read(Text(keys[i]), at + |KeyBytes(keys[i])|, items + 1)
  {
    hide Parse, KeyBytes, LengthFirst;
    TextComplete(u, b, limits, at, items, depth + 1, keys[i]);
    assert keys[i] !in keys[..i] by {
      PrecedesTotal(keys[i], keys[i]);
    }
    if i > 0 {
      assert Precedes(keys[i - 1], keys[i]);
    }
  }

  lemma {:induction false} DictComplete(u: Unicode, b: Octets, limits: Limits, start: nat, items: nat, depth: nat,
                                        entries: map<Octets, Value>, keys: seq<Octets>, i: nat)
    requires |b| <= MAX_INT && i <= |keys| && EntriesCanonical(u, entries, limits.depth - depth - 1)
    requires Sorted(keys) && Lists(keys, entries.Keys)
    requires Occurs(b, start, EntryBytes(entries, keys)) && items + EntryItems(entries, keys) <= limits.items
    ensures var at := start + |EntryBytes(entries, keys[..i])|;
            at <= |b| && ParseDict(u, b, limits, at, items + EntryItems(entries, keys[..i]), depth, |keys| - i,
                                   Earlier(entries, keys, i), LastKey(keys[..i]))
                         == Read(Dict(entries), start + |EntryBytes(entries, keys)|, items + EntryItems(entries, keys))
    decreases Dict(entries), 0, |keys| - i, 1
  {
    hide Bytes, Items, Canonical, Shallow, Parse, EntryBytes, EntryItems, ParseKey, Earlier, Sorted, KeyBytes, LastKey,
         Occurs, EntriesCanonical;
    if i == |keys| {
      EarlierAll(entries, keys);
      assert keys[..i] == keys;
      OccursWithin(b, start, EntryBytes(entries, keys));
    } else {
      EntryParses(u, b, limits, start, items, depth, entries, keys, i);
      EarlierNext(entries, keys, i);
      EntryStep(entries, keys, i);
      DictComplete(u, b, limits, start, items, depth, entries, keys, i + 1);
    }
  }

  lemma OccursWithin(b: Octets, at: nat, part: Octets)
    requires Occurs(b, at, part)
    ensures at + |part| <= |b|
  {
  }

  /** One turn of the map loop. */
  lemma {:induction false} EntryParses(u: Unicode, b: Octets, limits: Limits, start: nat, items: nat, depth: nat,
                                       entries: map<Octets, Value>, keys: seq<Octets>, i: nat)
    requires |b| <= MAX_INT && i < |keys| && EntriesCanonical(u, entries, limits.depth - depth - 1)
    requires Sorted(keys) && Lists(keys, entries.Keys)
    requires Occurs(b, start, EntryBytes(entries, keys)) && items + EntryItems(entries, keys) <= limits.items
    ensures var at := start + |EntryBytes(entries, keys[..i])|;
            var count := items + EntryItems(entries, keys[..i]);
            var mid := at + |KeyBytes(keys[i])|;
            && mid <= |b|
            && ParseKey(u, b, limits, at, count, depth, Earlier(entries, keys, i), LastKey(keys[..i]))
               == Read(Text(keys[i]), mid, count + 1)
            && Parse(u, b, limits, mid, count + 1, depth + 1) == Whole(mid, count + 1, entries[keys[i]])
            && b[at..mid] == LastKey(keys[..i + 1])
    decreases Dict(entries), 0, |keys| - i, 0
  {
    hide Bytes, Items, Canonical, Shallow, Parse, EntryBytes, EntryItems, ParseKey, Earlier, Sorted, KeyBytes;
    EntryOccurs(b, start, entries, keys, i);
    var at := start + |EntryBytes(entries, keys[..i])|;
    var count := items + EntryItems(entries, keys[..i]);
    assert keys[i] in keys;
    DepthLeft(entries[keys[i]], limits.depth - depth - 1);
    KeyComplete(u, b, limits, at, count, depth, entries, keys, i);
    ParseComplete(u, b, limits, at + |KeyBytes(keys[i])|, count + 1, depth + 1, entries[keys[i]]);
  }

  lemma DepthLeft(value: Value, depth: int)
    requires Shallow(value, depth)
    ensures 0 <= depth
  {
  }

  lemma EntryStep(entries: map<Octets, Value>, keys: seq<Octets>, i: nat)
    requires i < |keys| && forall key | key in keys :: key in entries
    ensures |EntryBytes(entries, keys[..i + 1])|
            == |EntryBytes(entries, keys[..i])| + |KeyBytes(keys[i])| + |Bytes(entries[keys[i]])|
    ensures EntryItems(entries, keys[..i + 1]) == EntryItems(entries, keys[..i]) + 1 + Items(entries[keys[i]])
  {
    hide Bytes, Items, KeyBytes;
    assert keys[..i + 1][..i] == keys[..i];
  }

  lemma {:induction false} DictParses(u: Unicode, b: Octets, limits: Limits, at: nat, items: nat, depth: nat,
                                      entries: map<Octets, Value>)
    requires Fits(u, b, limits, at, items, depth, Dict(entries))
    ensures at <= |b| && Parse(u, b, limits, at, items, depth) == Whole(at, items, Dict(entries))
    decreases Dict(entries), 0
  {
    hide ReadArgument, Head, ParseList, ParseDict, EntryBytes, EntryItems, Sorted, Ascending;
    var keys := Ascending(entries.Keys);
    SortedCount(keys, entries.Keys);
    assert |entries| == |entries.Keys|;
    OccursSplit(b, at, Head(5, |entries|), EntryBytes(entries, keys));
    assert EntriesCanonical(u, entries, limits.depth - depth - 1);
    EntryBounds(u, entries, keys, limits.depth - depth - 1);
    ArgumentComplete(b, at, 5, |entries|);
    assert keys[..0] == [];
    assert Earlier(entries, keys, 0) == map[];
    EmptyDict(entries);
    if keys != [] {
      assert keys[0] in keys;
      DepthLeft(entries[keys[0]], limits.depth - depth - 1);
    }
    DictComplete(u, b, limits, at + |Head(5, |entries|)|, items + 1, depth, entries, keys, 0);
  }

  lemma EmptyDict(entries: map<Octets, Value>)
    ensures EntryBytes(entries, []) == [] && EntryItems(entries, []) == 0 && LastKey([]) == []
  {
  }
}
