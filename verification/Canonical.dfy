/** The codec: bounded encoding and strict decoding are inverse to each other. */
module Canonical {
  import opened CanonicalForm
  import Parser = CanonicalParser
  import Reading = CanonicalReading
  import Acceptance = CanonicalAcceptance
  import Encoder = CanonicalEncoder
  import Decoder = CanonicalDecoder

  datatype Encoding = Encoded(bytes: Octets) | NotEncoded(why: Failure)

  /** Limits are exact, and are machine integers. */
  predicate MachineLimits(limits: Limits) {
    limits.depth <= MAX_INT && limits.bytes <= MAX_INT && limits.items <= MAX_INT
  }

  predicate ValidLimits(limits: Limits) {
    0 <= limits.depth && 0 <= limits.bytes && 0 <= limits.items
  }

  /** A canonical value whose byte form is within the limits. */
  ghost predicate Within(u: Unicode, value: Value, limits: Limits) {
    && ValidLimits(limits) && Canonical(u, value) && Shallow(value, limits.depth)
    && Items(value) <= limits.items && |Bytes(value)| <= limits.bytes
  }

  /** `bytes` is an encoding of `value`: what Encode returns and what Decode accepts. */
  ghost predicate Encodes(u: Unicode, value: Value, limits: Limits, bytes: Octets) {
    Within(u, value, limits) && bytes == Bytes(value)
  }

  lemma Accepted(u: Unicode, value: Value, limits: Limits, bytes: Octets)
    requires MachineLimits(limits) && Encodes(u, value, limits, bytes)
    ensures Parser.Parse(u, bytes, limits, 0, 0, 0) == Parser.Read(value, |bytes|, Items(value))
  {
    hide Bytes, Items, Shallow, Canonical, Parser.Parse;
    assert bytes[0..|bytes|] == bytes;
    Acceptance.ParseComplete(u, bytes, limits, 0, 0, 0, value);
  }

  method Encode(u: Unicode, value: Value, limits: Limits) returns (result: Encoding)
    requires u.Lawful()
    ensures result.Encoded? <==> Encodable(u, value) && Within(u, Normal(u, value), limits)
    ensures result.Encoded? ==> Encodes(u, Normal(u, value), limits, result.bytes)
    ensures result == NotEncoded(InvalidOption) <==> !ValidLimits(limits)
    ensures ValidLimits(limits) && Encodable(u, value) && result.NotEncoded? ==> result.why == LimitExceeded
  {
    hide Bytes, Items, Normal, Shallow, Encodable, Canonical;
    if limits.depth < 0 || limits.bytes < 0 || limits.items < 0 {
      return NotEncoded(InvalidOption);
    }
    var output := new Encoder.Writer(limits.bytes, limits.items);
    var status := output.Encode(u, value, 0, limits.depth);
    if status.Refused? {
      assert Encodable(u, value) ==> !Within(u, Normal(u, value), limits);
      return NotEncoded(status.why);
    }
    NormalIsCanonical(u, value);
    assert [] + Bytes(Normal(u, value)) == Bytes(Normal(u, value));
    return Encoded(output.encoded);
  }

  method Decode(u: Unicode, bytes: Octets, limits: Limits) returns (outcome: Decoder.Outcome)
    requires MachineLimits(limits)
    ensures outcome.Success? ==> Encodes(u, outcome.value, limits, bytes)
    ensures outcome.Failure? ==> !exists value :: Encodes(u, value, limits, bytes)
    ensures outcome == Decoder.Failure(InvalidOption) <==> !ValidLimits(limits)
  {
    hide Bytes, Items, Shallow, Canonical, Parser.Parse;
    if limits.depth < 0 || limits.bytes < 0 || limits.items < 0 {
      return Decoder.Failure(InvalidOption);
    }
    if |bytes| > limits.bytes {
      return Decoder.Failure(LimitExceeded);
    }
    forall value | Encodes(u, value, limits, bytes)
      ensures Parser.Parse(u, bytes, limits, 0, 0, 0) == Parser.Read(value, |bytes|, Items(value))
    {
      Accepted(u, value, limits, bytes);
    }
    var input := new Decoder.Decoder(u, bytes, limits);
    outcome := input.ReadValue(0);
    if outcome.Failure? {
      return;
    }
    if input.offset != |input.encoded| {
      return Decoder.Failure(InvalidEncoding);
    }
    Reading.ParseSound(u, bytes, limits, 0, 0, 0);
    assert bytes[0..|bytes|] == bytes;
  }

  /** Decoding what was encoded gives the normal form, under the same limits. */
  method EncodeThenDecode(u: Unicode, value: Value, limits: Limits)
    returns (encoding: Encoding, outcome: Decoder.Outcome)
    requires u.Lawful() && MachineLimits(limits)
    ensures encoding.Encoded? <==> Encodable(u, value) && Within(u, Normal(u, value), limits)
    ensures encoding.Encoded? ==> outcome == Decoder.Success(Normal(u, value))
  {
    hide Within, Normal, Encodable, Bytes;
    encoding := Encode(u, value, limits);
    if encoding.NotEncoded? {
      return encoding, Decoder.Failure(encoding.why);
    }
    outcome := Decode(u, encoding.bytes, limits);
    assert Encodes(u, Normal(u, value), limits, encoding.bytes);
    EncodesOnce(u, limits, encoding.bytes, Normal(u, value), outcome.value);
  }

  /** Encoding what was decoded gives back exactly the input bytes. */
  method DecodeThenEncode(u: Unicode, bytes: Octets, limits: Limits)
    returns (outcome: Decoder.Outcome, encoding: Encoding)
    requires u.Lawful() && MachineLimits(limits)
    ensures outcome.Success? <==> exists value :: Encodes(u, value, limits, bytes)
    ensures outcome.Success? ==> encoding == Encoded(bytes)
  {
    hide Normal, Encodable, Bytes, Items, Shallow, Canonical;
    outcome := Decode(u, bytes, limits);
    if outcome.Failure? {
      return outcome, NotEncoded(outcome.why);
    }
    CanonicalIsNormal(u, outcome.value);
    encoding := Encode(u, outcome.value, limits);
  }

  lemma EncodesOnce(u: Unicode, limits: Limits, bytes: Octets, left: Value, right: Value)
    requires MachineLimits(limits) && Encodes(u, left, limits, bytes) && Encodes(u, right, limits, bytes)
    ensures left == right
  {
    hide Encodes, Items;
    Accepted(u, left, limits, bytes);
    Accepted(u, right, limits, bytes);
  }

  lemma ShallowMore(value: Value, depth: int, more: int)
    requires Shallow(value, depth) && depth <= more
    ensures Shallow(value, more)
    decreases value
  {
  }

  /** Nesting is bounded by the item count. */
  lemma {:induction false} ShallowByItems(value: Value)
    ensures Shallow(value, Items(value))
    decreases value, 0
  {
    hide Items, Ascending;
    if value.List? {
      forall i | 0 <= i < |value.items| ensures Shallow(value.items[i], Items(value) - 1) {
        ShallowByItems(value.items[i]);
        ItemSmaller(value.items, i);
        ShallowMore(value.items[i], Items(value.items[i]), Items(value) - 1);
      }
    } else if value.Dict? {
      forall key | key in value.entries ensures Shallow(value.entries[key], Items(value) - 1) {
        ShallowByItems(value.entries[key]);
        EntrySmaller(value.entries, key);
        ShallowMore(value.entries[key], Items(value.entries[key]), Items(value) - 1);
      }
    }
  }

  lemma ItemSmaller(items: seq<Value>, i: nat)
    requires i < |items|
    ensures Items(items[i]) < Items(List(items))
  {
    hide ListItems;
    Encoder.ListPart(items, i);
  }

  lemma EntrySmaller(entries: map<Octets, Value>, key: Octets)
    requires key in entries
    ensures Items(entries[key]) < Items(Dict(entries))
  {
    hide EntryItems, Sorted, Ascending;
    var keys := Ascending(entries.Keys);
    assert key in keys;
    var i :| 0 <= i < |keys| && keys[i] == key;
    Encoder.EntryPart(entries, keys, i);
  }

  /** No byte form is a proper prefix of another: a stream of values has one reading. */
  lemma PrefixFree(u: Unicode, left: Value, right: Value, leftRest: Octets, rightRest: Octets)
    requires Canonical(u, left) && Canonical(u, right)
    requires Bytes(left) + leftRest == Bytes(right) + rightRest
    requires |Bytes(left) + leftRest| <= MAX_INT
    ensures left == right && leftRest == rightRest
  {
    hide Bytes, Items, Canonical, Shallow, Parser.Parse;
    var b := Bytes(left) + leftRest;
    var enough := Items(left) + Items(right);
    var limits := Limits(enough, |b|, enough);
    ShallowByItems(left);
    ShallowMore(left, Items(left), enough);
    ShallowByItems(right);
    ShallowMore(right, Items(right), enough);
    assert b[0..|Bytes(left)|] == Bytes(left);
    assert (Bytes(right) + rightRest)[0..|Bytes(right)|] == Bytes(right);
    Acceptance.ParseComplete(u, b, limits, 0, 0, 0, left);
    Acceptance.ParseComplete(u, b, limits, 0, 0, 0, right);
    assert leftRest == b[|Bytes(left)|..];
    assert rightRest == (Bytes(right) + rightRest)[|Bytes(right)|..];
  }

  /** The value a structured digest hashes. */
  function Structured(tag: Octets, domain: Octets, schemaVersion: nat, payload: Value): Value {
    List([Text(tag), Number(1), Text(domain), Number(schemaVersion), payload])
  }

  /** Domain separation: equal hash inputs mean equal domain, version and normal payload. */
  lemma StructuredInjective(u: Unicode, limits: Limits, tag: Octets,
                            domain: Octets, version: nat, payload: Value,
                            otherDomain: Octets, otherVersion: nat, otherPayload: Value)
    requires u.Lawful() && MachineLimits(limits)
    requires u.Normalised(domain) && u.Normalised(otherDomain)
    requires Encodable(u, Structured(tag, domain, version, payload))
    requires Encodable(u, Structured(tag, otherDomain, otherVersion, otherPayload))
    requires Within(u, Normal(u, Structured(tag, domain, version, payload)), limits)
    requires Bytes(Normal(u, Structured(tag, domain, version, payload)))
          == Bytes(Normal(u, Structured(tag, otherDomain, otherVersion, otherPayload)))
    ensures domain == otherDomain && version == otherVersion && Normal(u, payload) == Normal(u, otherPayload)
  {
    hide Bytes, Items, Shallow, Canonical, Encodable;
    var left := Structured(tag, domain, version, payload);
    var right := Structured(tag, otherDomain, otherVersion, otherPayload);
    NormalIsCanonical(u, left);
    NormalIsCanonical(u, right);
    assert Bytes(Normal(u, left)) + [] == Bytes(Normal(u, right)) + [];
    PrefixFree(u, Normal(u, left), Normal(u, right), [], []);
    var ls, rs := Normal(u, left).items, Normal(u, right).items;
    assert ls[2] == Text(domain) && rs[2] == Text(otherDomain);
    assert ls[3] == Number(version) && rs[3] == Number(otherVersion);
    assert ls[4] == Normal(u, payload) && rs[4] == Normal(u, otherPayload);
  }

  // ----- the two orders on keys -----

  lemma {:induction false} BigEndianOrder(m: nat, n: nat, width: nat, left: Octets, right: Octets)
    requires m < n < Pow256(width)
    ensures Lexical(BigEndian(m, width) + left, BigEndian(n, width) + right)
    decreases width
  {
    if width != 0 {
      var front := BigEndian(m / 256, width - 1);
      var back := BigEndian(n / 256, width - 1);
      assert BigEndian(m, width) + left == front + ([m % 256] + left);
      assert BigEndian(n, width) + right == back + ([n % 256] + right);
      if m / 256 < n / 256 {
        BigEndianOrder(m / 256, n / 256, width - 1, [m % 256] + left, [n % 256] + right);
      } else {
        LexicalAfter(front, [m % 256] + left, [n % 256] + right);
      }
    }
  }

  lemma {:induction false} LexicalAfter(front: Octets, left: Octets, right: Octets)
    ensures Lexical(front + left, front + right) <==> Lexical(left, right)
  {
    if front == [] {
      assert front + left == left && front + right == right;
    } else {
      assert (front + left)[1..] == front[1..] + left && (front + right)[1..] == front[1..] + right;
      LexicalAfter(front[1..], left, right);
    }
  }

  /** Heads of longer texts come later bytewise, across every head width. */
  lemma HeadOrder(m: nat, n: nat, left: Octets, right: Octets)
    requires m < n < WORD
    ensures Lexical(Head(3, m) + left, Head(3, n) + right)
  {
    hide BigEndian, Lexical;
    var front, back := BigEndian(m, Width(m)), BigEndian(n, Width(n));
    assert Head(3, m) + left == [96 + Additional(m)] + (front + left);
    assert Head(3, n) + right == [96 + Additional(n)] + (back + right);
    if Additional(m) == Additional(n) {
      Parser.Powers();
      BigEndianOrder(m, n, Width(m), left, right);
      LexicalAfter([96 + Additional(m)], front + left, back + right);
    } else {
      FirstByte(96 + Additional(m), 96 + Additional(n), front + left, back + right);
    }
  }

  lemma FirstByte(x: Octet, y: Octet, left: Octets, right: Octets)
    requires x < y
    ensures Lexical([x] + left, [y] + right)
  {
  }

  /** On text keys the length-first order of section 4.2.3 of RFC 8949 is the
      bytewise order of section 4.2.1. */
  lemma KeyOrdersCoincide(left: Octets, right: Octets)
    requires |left| < WORD && |right| < WORD
    ensures LengthFirst(KeyBytes(left), KeyBytes(right)) <==> Lexical(KeyBytes(left), KeyBytes(right))
  {
    hide Head, Lexical;
    LexicalTotal(KeyBytes(left), KeyBytes(right));
    if |left| < |right| {
      HeadOrder(|left|, |right|, left, right);
      WidthMonotone(|left|, |right|);
    } else if |left| > |right| {
      HeadOrder(|right|, |left|, right, left);
      WidthMonotone(|right|, |left|);
    }
  }
}
