/** What the canonical byte form of a value is: shortest heads, text keys in
    length-first order, and the counts that the limits bound. */
module CanonicalForm {
  type Octet = x: int | 0 <= x < 256
  type Octets = seq<Octet>

  const MAX_SAFE_INTEGER := 9_007_199_254_740_991
  const WORD := 0x1_0000_0000_0000_0000
  /** Lengths, offsets and limits are signed machine words. */
  const MAX_INT := 0x7fff_ffff_ffff_ffff

  /** A dynamic value. Text is a byte string, as in the source; `Unsupported`
      is any type outside the supported ones. */
  datatype Value =
    | Null
    | Flag(flag: bool)
    | Number(number: int)
    | Text(text: Octets)
    | Blob(bytes: Octets)
    | List(items: seq<Value>)
    | Dict(entries: map<Octets, Value>)
    | Unsupported

  datatype Failure = InvalidOption | LimitExceeded | InvalidEncoding | InvalidValue | DuplicateKey

  datatype Limits = Limits(depth: int, bytes: int, items: int)

  // ----- heads -----

  function Pow256(width: nat): nat {
    if width == 0 then 1 else 256 * Pow256(width - 1)
  }

  /** The low `width` bytes of a number, most significant first. */
  function BigEndian(n: nat, width: nat): (octets: Octets)
    ensures |octets| == width
  {
    if width == 0 then [] else BigEndian(n / 256, width - 1) + [n % 256]
  }

  function Numeral(octets: Octets): nat {
    if octets == [] then 0 else 256 * Numeral(octets[..|octets| - 1]) + octets[|octets| - 1]
  }

  lemma {:induction false} NumeralOfBigEndian(n: nat, width: nat)
    requires n < Pow256(width)
    ensures Numeral(BigEndian(n, width)) == n
  {
    if width != 0 {
      NumeralOfBigEndian(n / 256, width - 1);
      var octets := BigEndian(n, width);
      assert octets[..|octets| - 1] == BigEndian(n / 256, width - 1);
    }
  }

  lemma {:induction false} BigEndianOfNumeral(octets: Octets)
    ensures Numeral(octets) < Pow256(|octets|)
    ensures BigEndian(Numeral(octets), |octets|) == octets
  {
    if octets != [] {
      BigEndianOfNumeral(octets[..|octets| - 1]);
      assert octets == octets[..|octets| - 1] + [octets[|octets| - 1]];
    }
  }

  /** The argument bytes after the initial byte that the shortest head needs. */
  function Width(argument: nat): (width: nat)
    ensures width == 0 || width == 1 || width == 2 || width == 4 || width == 8
  {
    if argument < 24 then 0
    else if argument <= 0xff then 1
    else if argument <= 0xffff then 2
    else if argument <= 0xffff_ffff then 4
    else 8
  }

  /** The low five bits that announce a width. */
  function Additional(argument: nat): (additional: nat)
    ensures additional < 28
  {
    if argument < 24 then argument
    else if argument <= 0xff then 24
    else if argument <= 0xffff then 25
    else if argument <= 0xffff_ffff then 26
    else 27
  }

  function Head(major: nat, argument: nat): (octets: Octets)
    requires major < 8
    ensures |octets| == 1 + Width(argument)
  {
    [major * 32 + Additional(argument)] + BigEndian(argument, Width(argument))
  }

  // ----- order on map keys -----

  /** The order of bytes.Compare. */
  predicate Lexical(left: Octets, right: Octets) {
    right != [] && (left == [] || left[0] < right[0] || (left[0] == right[0] && Lexical(left[1..], right[1..])))
  }

  /** Section 4.2.3 of RFC 8949: shorter encodings first, equal lengths bytewise. */
  predicate LengthFirst(left: Octets, right: Octets) {
    |left| < |right| || (|left| == |right| && Lexical(left, right))
  }

  function KeyBytes(key: Octets): (octets: Octets)
    ensures octets != []
  {
    Head(3, |key|) + key
  }

  predicate Precedes(left: Octets, right: Octets) {
    LengthFirst(KeyBytes(left), KeyBytes(right))
  }

  lemma {:induction false} LexicalTotal(left: Octets, right: Octets)
    ensures left == right || Lexical(left, right) || Lexical(right, left)
    ensures !(Lexical(left, right) && Lexical(right, left))
    ensures !Lexical(left, left)
  {
    if left != [] {
      LexicalTotal(left[1..], left[1..]);
      if right != [] {
        LexicalTotal(left[1..], right[1..]);
        assert left == [left[0]] + left[1..] && right == [right[0]] + right[1..];
      }
    }
  }

  lemma {:induction false} LexicalTransitive(a: Octets, b: Octets, c: Octets)
    requires Lexical(a, b) && Lexical(b, c)
    ensures Lexical(a, c)
  {
    if a != [] && a[0] == b[0] && b[0] == c[0] {
      LexicalTransitive(a[1..], b[1..], c[1..]);
    }
  }

  lemma WidthMonotone(m: nat, n: nat)
    requires m <= n
    ensures Width(m) <= Width(n)
  {
  }

  lemma KeyBytesInjective(left: Octets, right: Octets)
    requires KeyBytes(left) == KeyBytes(right)
    ensures left == right
  {
    if |left| <= |right| {
      WidthMonotone(|left|, |right|);
    } else {
      WidthMonotone(|right|, |left|);
    }
    assert left == KeyBytes(left)[1 + Width(|left|)..];
    assert right == KeyBytes(right)[1 + Width(|right|)..];
  }

  lemma PrecedesTotal(left: Octets, right: Octets)
    ensures left == right || Precedes(left, right) || Precedes(right, left)
    ensures !(Precedes(left, right) && Precedes(right, left))
    ensures !Precedes(left, left)
  {
    LexicalTotal(KeyBytes(left), KeyBytes(right));
    if KeyBytes(left) == KeyBytes(right) {
      KeyBytesInjective(left, right);
    }
    LexicalTotal(KeyBytes(left), KeyBytes(left));
  }

  lemma LengthFirstTransitive(a: Octets, b: Octets, c: Octets)
    requires LengthFirst(a, b) && LengthFirst(b, c)
    ensures LengthFirst(a, c)
  {
    if |a| == |b| == |c| {
      LexicalTransitive(a, b, c);
    }
  }

  // ----- sorted keys -----

  ghost predicate Sorted(keys: seq<Octets>) {
    forall i, j | 0 <= i < j < |keys| :: Precedes(keys[i], keys[j])
  }

  /** `keys` holds exactly the members of the set. */
  ghost predicate Lists(keys: seq<Octets>, members: set<Octets>) {
    forall key :: key in keys <==> key in members
  }

  lemma SortedEnds(keys: seq<Octets>, key: Octets)
    requires Sorted(keys)
    requires keys == [] || Precedes(keys[|keys| - 1], key)
    ensures Sorted(keys + [key]) && key !in keys
  {
    hide Precedes, KeyBytes;
    forall i | 0 <= i < |keys| ensures Precedes(keys[i], key) {
      if i < |keys| - 1 {
        Between(keys[i], keys[|keys| - 1], key);
      }
    }
    PrecedesTotal(key, key);
  }

  lemma Between(a: Octets, b: Octets, c: Octets)
    requires Precedes(a, b) && Precedes(b, c)
    ensures Precedes(a, c)
  {
    LengthFirstTransitive(KeyBytes(a), KeyBytes(b), KeyBytes(c));
  }

  /** The least key of a set. */
  lemma {:induction false} FirstExists(members: set<Octets>) returns (first: Octets)
    requires members != {}
    ensures first in members && forall key | key in members && key != first :: Precedes(first, key)
    decreases |members|
  {
    hide Precedes, KeyBytes;
    var some :| some in members;
    first := some;
    var rest := members - {some};
    assert forall key | key in members :: key == some || key in rest;
    if rest != {} {
      var least := FirstExists(rest);
      PrecedesTotal(some, least);
      if Precedes(some, least) {
        forall key | key in members && key != some ensures Precedes(some, key) {
          if key != least {
            Between(some, least, key);
          }
        }
      } else {
        first := least;
      }
    }
  }

  lemma {:induction false} SortedExists(members: set<Octets>) returns (keys: seq<Octets>)
    ensures Sorted(keys) && Lists(keys, members)
    decreases |members|
  {
    hide Precedes, KeyBytes;
    if members == {} {
      keys := [];
    } else {
      var first := FirstExists(members);
      var rest := SortedExists(members - {first});
      keys := [first] + rest;
      assert forall key :: key in keys <==> key == first || key in rest;
      forall i, j | 0 <= i < j < |keys| ensures Precedes(keys[i], keys[j]) {
        assert keys[j] in rest;
      }
    }
  }

  lemma HeadIsApart(keys: seq<Octets>)
    requires Sorted(keys) && keys != []
    ensures keys[0] !in keys[1..] && Sorted(keys[1..])
  {
    hide Precedes, KeyBytes;
    PrecedesTotal(keys[0], keys[0]);
  }

  lemma HeadIsLeast(keys: seq<Octets>, key: Octets)
    requires Sorted(keys) && key in keys
    ensures keys[0] == key || Precedes(keys[0], key)
  {
    hide Precedes, KeyBytes;
  }

  lemma {:induction false} SortedCount(keys: seq<Octets>, members: set<Octets>)
    requires Sorted(keys) && Lists(keys, members)
    ensures |keys| == |members|
    decreases |keys|
  {
    hide Precedes, KeyBytes;
    if keys == [] {
      assert members == {};
    } else {
      HeadIsApart(keys);
      assert keys == [keys[0]] + keys[1..];
      assert keys[0] in keys;
      SortedCount(keys[1..], members - {keys[0]});
    }
  }

  /** Two ascending listings of one set are the same sequence. */
  lemma {:induction false} SortedUnique(left: seq<Octets>, right: seq<Octets>, members: set<Octets>)
    requires Sorted(left) && Lists(left, members)
    requires Sorted(right) && Lists(right, members)
    ensures left == right
    decreases |left|
  {
    hide Precedes, KeyBytes;
    SortedCount(left, members);
    SortedCount(right, members);
    if left != [] {
      assert right[0] in right && left[0] in left;
      HeadIsLeast(left, right[0]);
      HeadIsLeast(right, left[0]);
      PrecedesTotal(left[0], right[0]);
      HeadIsApart(left);
      HeadIsApart(right);
      assert Lists(left[1..], members - {left[0]}) by {
        assert left == [left[0]] + left[1..];
      }
      assert Lists(right[1..], members - {left[0]}) by {
        assert right == [right[0]] + right[1..];
      }
      SortedUnique(left[1..], right[1..], members - {left[0]});
      assert left == [left[0]] + left[1..] && right == [right[0]] + right[1..];
    }
  }

  ghost function Ascending(members: set<Octets>): (keys: seq<Octets>)
    ensures Sorted(keys) && Lists(keys, members)
  {
    assert exists keys :: Sorted(keys) && Lists(keys, members) by {
      var keys := SortedExists(members);
    }
    var keys :| Sorted(keys) && Lists(keys, members);
    keys
  }

  lemma AscendingIs(keys: seq<Octets>, members: set<Octets>)
    requires Sorted(keys) && Lists(keys, members)
    ensures Ascending(members) == keys
  {
    hide Sorted, Lists;
    SortedUnique(Ascending(members), keys, members);
  }

  // ----- the byte form -----

  ghost function Bytes(value: Value): Octets
    decreases value, 1, 0
  {
    match value
    case Null => [0xf6]
    case Flag(flag) => if flag then [0xf5] else [0xf4]
    case Number(n) => if n >= 0 then Head(0, n) else Head(1, -1 - n)
    case Text(text) => KeyBytes(text)
    case Blob(bytes) => Head(2, |bytes|) + bytes
    case List(items) => Head(4, |items|) + ListBytes(items)
    case Dict(entries) => Head(5, |entries|) + EntryBytes(entries, Ascending(entries.Keys))
    case Unsupported => []
  }

  ghost function ListBytes(items: seq<Value>): Octets
    decreases items, 1, 0
  {
    if items == [] then [] else ListBytes(items[..|items| - 1]) + Bytes(items[|items| - 1])
  }

  ghost function EntryBytes(entries: map<Octets, Value>, keys: seq<Octets>): Octets
    requires forall key | key in keys :: key in entries
    decreases Dict(entries), 0, |keys|
  {
    if keys == [] then [] else
    var key := keys[|keys| - 1];
    EntryBytes(entries, keys[..|keys| - 1]) + KeyBytes(key) + Bytes(entries[key])
  }

  // ----- what the limits count -----

  ghost function Items(value: Value): (n: nat)
    ensures 1 <= n
    decreases value, 1, 0
  {
    match value
    case List(items) => 1 + ListItems(items)
    case Dict(entries) => 1 + EntryItems(entries, Ascending(entries.Keys))
    case _ => 1
  }

  ghost function ListItems(items: seq<Value>): (n: nat)
    ensures |items| <= n
    decreases items, 1, 0
  {
    if items == [] then 0 else ListItems(items[..|items| - 1]) + Items(items[|items| - 1])
  }

  ghost function EntryItems(entries: map<Octets, Value>, keys: seq<Octets>): (n: nat)
    requires forall key | key in keys :: key in entries
    ensures 2 * |keys| <= n
    decreases Dict(entries), 0, |keys|
  {
    if keys == [] then 0 else
    EntryItems(entries, keys[..|keys| - 1]) + 1 + Items(entries[keys[|keys| - 1]])
  }

  lemma EmptyList()
    ensures ListBytes([]) == [] && ListItems([]) == 0
  {
  }

  /** The nesting below this value is at most `depth`. */
  ghost predicate Shallow(value: Value, depth: int)
    decreases value
  {
    && 0 <= depth
    && match value
       case List(items) => forall i | 0 <= i < |items| :: Shallow(items[i], depth - 1)
       case Dict(entries) => forall key | key in entries :: Shallow(entries[key], depth - 1)
       case _ => true
  }

  // ----- normalisation -----

  /** UTF-8 validity and NFC, as the library functions the codec calls. */
  datatype Unicode = Unicode(valid: Octets -> bool, nfc: Octets -> Octets) {
    ghost predicate Lawful() {
      forall text | valid(text) :: valid(nfc(text)) && nfc(nfc(text)) == nfc(text)
    }

    predicate Normalised(text: Octets) {
      valid(text) && nfc(text) == text
    }
  }

  /** A value the encoder accepts apart from limits. */
  ghost predicate Encodable(u: Unicode, value: Value)
    decreases value
  {
    match value
    case Number(n) => -MAX_SAFE_INTEGER <= n <= MAX_SAFE_INTEGER
    case Text(text) => u.valid(text)
    case List(items) => forall i | 0 <= i < |items| :: Encodable(u, items[i])
    case Dict(entries) =>
      && (forall key | key in entries :: u.valid(key) && Encodable(u, entries[key]))
      && (forall left, right | left in entries && right in entries && left != right :: u.nfc(left) != u.nfc(right))
    case Unsupported => false
    case _ => true
  }

  /** A value that is its own normal form. */
  ghost predicate Canonical(u: Unicode, value: Value)
    decreases value
  {
    match value
    case Number(n) => -MAX_SAFE_INTEGER <= n <= MAX_SAFE_INTEGER
    case Text(text) => u.Normalised(text)
    case List(items) => forall i | 0 <= i < |items| :: Canonical(u, items[i])
    case Dict(entries) => forall key | key in entries :: u.Normalised(key) && Canonical(u, entries[key])
    case Unsupported => false
    case _ => true
  }

  ghost function NormalKeys(u: Unicode, entries: map<Octets, Value>): set<Octets> {
    set key | key in entries :: u.nfc(key)
  }

  /** A key that normalises to this one. */
  ghost function Original(u: Unicode, entries: map<Octets, Value>, normal: Octets): (key: Octets)
    requires normal in NormalKeys(u, entries)
    ensures key in entries && u.nfc(key) == normal
  {
    var key :| key in entries && u.nfc(key) == normal;
    key
  }

  ghost function Normal(u: Unicode, value: Value): Value
    decreases value
  {
    match value
    case Text(text) => Text(u.nfc(text))
    case List(items) => List(seq(|items|, i requires 0 <= i < |items| => Normal(u, items[i])))
    case Dict(entries) =>
      Dict(map normal | normal in NormalKeys(u, entries) :: Normal(u, entries[Original(u, entries, normal)]))
    case _ => value
  }

  lemma {:induction false} NormalIsCanonical(u: Unicode, value: Value)
    requires u.Lawful() && Encodable(u, value)
    ensures Canonical(u, Normal(u, value))
    decreases value
  {
    match value
    case List(items) =>
      forall i | 0 <= i < |items| ensures Canonical(u, Normal(u, items[i])) {
        NormalIsCanonical(u, items[i]);
      }
    case Dict(entries) =>
      forall normal | normal in NormalKeys(u, entries)
        ensures u.Normalised(normal) && Canonical(u, Normal(u, entries[Original(u, entries, normal)]))
      {
        NormalIsCanonical(u, entries[Original(u, entries, normal)]);
      }
    case _ =>
  }

  lemma {:induction false} CanonicalIsNormal(u: Unicode, value: Value)
    requires Canonical(u, value)
    ensures Encodable(u, value) && Normal(u, value) == value
    decreases value
  {
    match value
    case List(items) =>
      forall i | 0 <= i < |items| ensures Encodable(u, items[i]) && Normal(u, items[i]) == items[i] {
        CanonicalIsNormal(u, items[i]);
      }
    case Dict(entries) =>
      forall key | key in entries
        ensures Encodable(u, entries[key]) && Normal(u, entries[key]) == entries[key]
        ensures key in NormalKeys(u, entries) && Original(u, entries, key) == key
      {
        CanonicalIsNormal(u, entries[key]);
        assert u.nfc(key) == key;
      }
      assert NormalKeys(u, entries) == entries.Keys;
      assert Normal(u, value).entries == entries;
    case _ =>
  }
}
