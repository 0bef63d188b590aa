/** The strict reading of canonical bytes, stated as functions of the input, the
    offset and the item count; it accepts exactly the byte forms of canonical values. */
module CanonicalParser {
  import opened CanonicalForm

  datatype Argument = BadArgument | Argument(value: nat, at: nat)

  datatype Reading = Failed(why: Failure) | Read(value: Value, at: nat, items: nat)

  /** The least argument that needs this many bytes. */
  function Minimum(width: nat): nat {
    if width == 2 then 0x100 else if width == 4 then 0x1_0000 else if width == 8 then 0x1_0000_0000 else 24
  }

  function ArgumentWidth(additional: nat): nat {
    if additional == 24 then 1 else if additional == 25 then 2 else if additional == 26 then 4 else 8
  }

  function ReadArgument(b: Octets, at: nat, additional: nat): (argument: Argument)
    requires at <= |b|
    ensures argument.Argument? ==> at <= argument.at <= |b|
  {
    if additional < 24 then Argument(additional, at)
    else if additional <= 27 then
      var width := ArgumentWidth(additional);
      if |b| - at < width then BadArgument else
      var value := Numeral(b[at..at + width]);
      if value < Minimum(width) then BadArgument else Argument(value, at + width)
    else BadArgument
  }

  function ReadSimple(initial: Octet, at: nat, items: nat): Reading {
    if initial == 0xf4 then Read(Flag(false), at, items)
    else if initial == 0xf5 then Read(Flag(true), at, items)
    else if initial == 0xf6 then Read(Null, at, items)
    else Failed(InvalidEncoding)
  }

  function Parse(u: Unicode, b: Octets, limits: Limits, at: nat, items: nat, depth: nat): (reading: Reading)
    requires at <= |b|
    ensures reading.Read? ==> at < reading.at <= |b|
    ensures reading.Failed? ==> reading.why == LimitExceeded || reading.why == InvalidEncoding
    decreases |b| - at, 0
  {
    if depth > limits.depth then Failed(LimitExceeded)
    else if items >= limits.items then Failed(LimitExceeded)
    else if at >= |b| then Failed(InvalidEncoding)
    else if b[at] / 32 == 7 then ReadSimple(b[at], at + 1, items + 1)
    else if b[at] / 32 == 6 then Failed(InvalidEncoding)
    else
      var argument := ReadArgument(b, at + 1, b[at] % 32);
      if argument.BadArgument? then Failed(InvalidEncoding)
      else ParseBody(u, b, limits, b[at] / 32, argument.value, argument.at, items + 1, depth)
  }

  /** What follows a head. */
  function ParseBody(u: Unicode, b: Octets, limits: Limits, major: nat, argument: nat, at: nat, items: nat,
                     depth: nat): (reading: Reading)
    requires at <= |b| && major <= 5
    ensures reading.Read? ==> at <= reading.at <= |b|
    ensures reading.Failed? ==> reading.why == LimitExceeded || reading.why == InvalidEncoding
    decreases |b| - at, 3
  {
    if major == 0 then
      if argument > MAX_SAFE_INTEGER then Failed(InvalidEncoding) else Read(Number(argument), at, items)
    else if major == 1 then
      if argument >= MAX_SAFE_INTEGER then Failed(InvalidEncoding) else Read(Number(-1 - argument), at, items)
    else if major == 2 then
      if argument > |b| - at then Failed(InvalidEncoding)
      else Read(Blob(b[at..at + argument]), at + argument, items)
    else if major == 3 then
      if argument > |b| - at then Failed(InvalidEncoding)
      else if !u.Normalised(b[at..at + argument]) then Failed(InvalidEncoding)
      else Read(Text(b[at..at + argument]), at + argument, items)
    else if major == 4 then
      if argument > |b| - at then Failed(InvalidEncoding)
      else if argument > limits.items - items then Failed(LimitExceeded)
      else if argument > 0 && depth >= limits.depth then Failed(LimitExceeded)
      else ParseList(u, b, limits, at, items, depth, argument, [])
    else
      if argument > (|b| - at) / 2 then Failed(InvalidEncoding)
      else if argument > (limits.items - items) / 2 then Failed(LimitExceeded)
      else if argument > 0 && depth >= limits.depth then Failed(LimitExceeded)
      else ParseDict(u, b, limits, at, items, depth, argument, map[], [])
  }

  /** The array loop with `left` elements to go. */
  function ParseList(u: Unicode, b: Octets, limits: Limits, at: nat, items: nat, depth: nat, left: nat,
                     done: seq<Value>): (reading: Reading)
    requires at <= |b|
    ensures reading.Read? ==> at <= reading.at <= |b|
    ensures reading.Failed? ==> reading.why == LimitExceeded || reading.why == InvalidEncoding
    decreases |b| - at, 1
  {
    if left == 0 then Read(List(done), at, items)
    else
      var next := Parse(u, b, limits, at, items, depth + 1);
      if next.Failed? then next
      else ParseList(u, b, limits, next.at, next.items, depth, left - 1, done + [next.value])
  }

  /** The key of the next entry. */
  function ParseKey(u: Unicode, b: Octets, limits: Limits, at: nat, items: nat, depth: nat,
                    done: map<Octets, Value>, previous: Octets): (reading: Reading)
    requires at <= |b|
    ensures reading.Read? ==> at < reading.at <= |b| && reading.value.Text?
    ensures reading.Failed? ==> reading.why == LimitExceeded || reading.why == InvalidEncoding
    decreases |b| - at, 1
  {
    if at >= |b| || b[at] / 32 != 3 then Failed(InvalidEncoding)
    else
      var key := Parse(u, b, limits, at, items, depth + 1);
      if key.Failed? then key
      else if !key.value.Text? then Failed(InvalidEncoding)
      else if key.value.text in done then Failed(InvalidEncoding)
      else if previous != [] && !LengthFirst(previous, b[at..key.at]) then Failed(InvalidEncoding)
      else key
  }

  /** The map loop with `left` entries to go; `previous` is the last key's encoding. */
  function ParseDict(u: Unicode, b: Octets, limits: Limits, at: nat, items: nat, depth: nat, left: nat,
                     done: map<Octets, Value>, previous: Octets): (reading: Reading)
    requires at <= |b|
    ensures reading.Read? ==> at <= reading.at <= |b|
    ensures reading.Failed? ==> reading.why == LimitExceeded || reading.why == InvalidEncoding
    decreases |b| - at, 2
  {
    if left == 0 then Read(Dict(done), at, items)
    else
      var key := ParseKey(u, b, limits, at, items, depth, done, previous);
      if key.Failed? then key
      else
        var next := Parse(u, b, limits, key.at, key.items, depth + 1);
        if next.Failed? then next
        else ParseDict(u, b, limits, next.at, next.items, depth, left - 1, done[key.value.text := next.value],
                       b[at..key.at])
  }

  // ----- heads -----

  ghost predicate Occurs(b: Octets, at: nat, part: Octets) {
    at + |part| <= |b| && b[at..at + |part|] == part
  }

  lemma Powers()
    ensures Pow256(0) == 1 && Pow256(1) == 0x100 && Pow256(2) == 0x1_0000 && Pow256(4) == 0x1_0000_0000
            && Pow256(8) == WORD
  {
    assert Pow256(2) == 256 * Pow256(1);
    assert Pow256(3) == 256 * Pow256(2);
    assert Pow256(4) == 256 * Pow256(3);
    assert Pow256(5) == 256 * Pow256(4);
    assert Pow256(6) == 256 * Pow256(5);
    assert Pow256(7) == 256 * Pow256(6);
    assert Pow256(8) == 256 * Pow256(7);
  }

  /** A number that needs the bytes it was given has the width they have. */
  lemma ShortestWidth(value: nat, additional: nat)
    requires 24 <= additional <= 27
    requires Minimum(ArgumentWidth(additional)) <= value < Pow256(ArgumentWidth(additional))
    ensures value < WORD && Width(value) == ArgumentWidth(additional) && Additional(value) == additional
  {
    hide Pow256;
    Powers();
  }

  lemma ShortHead(major: nat, value: nat)
    requires major < 8 && value < 24
    ensures Head(major, value) == [major * 32 + value]
  {
  }

  /** An accepted argument is in shortest form: its head is the canonical one. */
  lemma ArgumentSound(b: Octets, at: nat)
    requires at < |b|
    requires ReadArgument(b, at + 1, b[at] % 32).Argument?
    ensures var argument := ReadArgument(b, at + 1, b[at] % 32);
            argument.value < WORD && b[at..argument.at] == Head(b[at] / 32, argument.value)
  {
    hide Pow256, Numeral, BigEndian, Width, Additional, Minimum;
    var argument, additional := ReadArgument(b, at + 1, b[at] % 32), b[at] % 32;
    if additional >= 24 {
      var octets := b[at + 1..at + 1 + ArgumentWidth(additional)];
      BigEndianOfNumeral(octets);
      ShortestWidth(argument.value, additional);
      assert b[at..argument.at] == [b[at]] + octets;
    } else {
      ShortHead(b[at] / 32, additional);
      assert b[at..argument.at] == [b[at]];
    }
  }

  lemma ArgumentComplete(b: Octets, at: nat, major: nat, value: nat)
    requires major < 8 && value < WORD && Occurs(b, at, Head(major, value))
    ensures at < |b| && b[at] / 32 == major
    ensures ReadArgument(b, at + 1, b[at] % 32) == Argument(value, at + |Head(major, value)|)
  {
    Powers();
    var head := Head(major, value);
    var part := b[at..at + |head|];
    assert part == head;
    assert b[at] == part[0] == major * 32 + Additional(value);
    assert b[at] / 32 == major && b[at] % 32 == Additional(value);
    if value >= 24 {
      var width := Width(value);
      assert b[at + 1..at + 1 + width] == part[1..] == BigEndian(value, width);
      NumeralOfBigEndian(value, width);
    }
  }
}
