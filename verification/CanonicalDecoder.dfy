/** The decoder as it runs: an offset and an item count advanced over the input. */
module CanonicalDecoder {
  import opened CanonicalForm
  import opened CanonicalParser

  datatype Outcome = Failure(why: CanonicalForm.Failure) | Success(value: Value)

  class Decoder {
    const unicode: Unicode
    const encoded: Octets
    const limits: Limits
    var items: nat
    var offset: nat

    constructor (u: Unicode, b: Octets, limits: Limits)
      ensures unicode == u && encoded == b && this.limits == limits && items == 0 && offset == 0
    {
      unicode, encoded, this.limits, items, offset := u, b, limits, 0, 0;
    }

    /** The outcome and the new cursor are those of a reading. */
    ghost predicate Agrees(reading: Reading, outcome: Outcome)
      reads this
    {
      && offset <= |encoded|
      && (reading.Failed? ==> outcome == Failure(reading.why))
      && (reading.Read? ==> outcome == Success(reading.value) && offset == reading.at && items == reading.items)
    }

    /** Accumulates `width` bytes in a machine word. */
    method ReadWord(width: nat) returns (argument: nat)
      requires width <= 8 && offset + width <= |encoded|
      modifies this`offset
      ensures offset == old(offset) + width && argument == Numeral(encoded[old(offset)..offset])
    {
      argument := 0;
      Powers();
      for index := 0 to width
        invariant offset == old(offset) + index
        invariant argument == Numeral(encoded[old(offset)..offset]) < Pow256(index)
      {
        var part := encoded[old(offset)..offset + 1];
        assert part[..index] == encoded[old(offset)..offset];
        PowerGrows(index + 1, 8);
        argument := (argument * 256 + encoded[offset]) % WORD;
        offset := offset + 1;
      }
    }

    method ReadArgument(additional: nat) returns (ok: bool, argument: nat)
      requires offset <= |encoded| && additional < 32
      modifies this`offset
      ensures var reading := CanonicalParser.ReadArgument(encoded, old(offset), additional);
              && ok == reading.Argument?
              && (ok ==> argument == reading.value && offset == reading.at)
      ensures old(offset) <= offset <= |encoded|
    {
      hide Numeral;
      if additional < 24 {
        return true, additional;
      }
      if additional > 27 {
        return false, 0;
      }
      var width := if additional == 24 then 1 else if additional == 25 then 2 else if additional == 26 then 4 else 8;
      if |encoded| - offset < width {
        return false, 0;
      }
      argument := ReadWord(width);
      var minimum := 24;
      if width == 2 {
        minimum := 0x100;
      } else if width == 4 {
        minimum := 0x1_0000;
      } else if width == 8 {
        minimum := 0x1_0000_0000;
      }
      return argument >= minimum, argument;
    }

    method ReadValue(depth: nat) returns (outcome: Outcome)
      requires offset <= |encoded|
      modifies this
      ensures Agrees(Parse(unicode, encoded, limits, old(offset), old(items), depth), outcome)
      decreases |encoded| - offset, 0
    {
      hide ParseBody, CanonicalParser.ReadArgument;
      if depth > limits.depth {
        return Failure(LimitExceeded);
      }
      if items >= limits.items {
        return Failure(LimitExceeded);
      }
      items := items + 1;
      if offset >= |encoded| {
        return Failure(InvalidEncoding);
      }
      var initial := encoded[offset];
      offset := offset + 1;
      var major, additional := initial / 32, initial % 32;
      if major == 7 {
        if initial == 0xf4 {
          return Success(Flag(false));
        } else if initial == 0xf5 {
          return Success(Flag(true));
        } else if initial == 0xf6 {
          return Success(Null);
        }
        return Failure(InvalidEncoding);
      }
      if major == 6 {
        return Failure(InvalidEncoding);
      }
      var ok, argument := ReadArgument(additional);
      if !ok {
        return Failure(InvalidEncoding);
      }
      outcome := ReadBody(major, argument, depth);
    }

    method ReadBody(major: nat, argument: nat, depth: nat) returns (outcome: Outcome)
      requires offset <= |encoded| && major <= 5
      modifies this
      ensures Agrees(ParseBody(unicode, encoded, limits, major, argument, old(offset), old(items), depth), outcome)
      decreases |encoded| - offset, 3
    {
      hide ParseList, ParseDict;
      var remaining := |encoded| - offset;
      if major == 0 {
        if argument > MAX_SAFE_INTEGER {
          return Failure(InvalidEncoding);
        }
        return Success(Number(argument));
      } else if major == 1 {
        if argument >= MAX_SAFE_INTEGER {
          return Failure(InvalidEncoding);
        }
        return Success(Number(-1 - argument));
      } else if major == 2 || major == 3 {
        if argument > remaining {
          return Failure(InvalidEncoding);
        }
        var value := encoded[offset..offset + argument];
        offset := offset + argument;
        if major == 2 {
          return Success(Blob(value));
        }
        if !unicode.valid(value) {
          return Failure(InvalidEncoding);
        }
        if unicode.nfc(value) != value {
          return Failure(InvalidEncoding);
        }
        return Success(Text(value));
      } else if major == 4 {
        if argument > remaining {
          return Failure(InvalidEncoding);
        }
        if argument > limits.items - items {
          return Failure(LimitExceeded);
        }
        if argument > 0 && depth >= limits.depth {
          return Failure(LimitExceeded);
        }
        outcome := ReadItems(argument, depth);
      } else {
        if argument > remaining / 2 {
          return Failure(InvalidEncoding);
        }
        if argument > (limits.items - items) / 2 {
          return Failure(LimitExceeded);
        }
        if argument > 0 && depth >= limits.depth {
          return Failure(LimitExceeded);
        }
        outcome := ReadEntries(argument, depth);
      }
    }

    method ReadItems(argument: nat, depth: nat) returns (outcome: Outcome)
      requires offset <= |encoded|
      modifies this
      ensures Agrees(ParseList(unicode, encoded, limits, old(offset), old(items), depth, argument, []), outcome)
      decreases |encoded| - offset, 2
    {
      hide Parse;
      var result: seq<Value> := [];
      for index := 0 to argument
        invariant old(offset) <= offset <= |encoded|
        invariant ParseList(unicode, encoded, limits, old(offset), old(items), depth, argument, [])
               == ParseList(unicode, encoded, limits, offset, items, depth, argument - index, result)
      {
        var item := ReadValue(depth + 1);
        if item.Failure? {
          return item;
        }
        result := result + [item.value];
      }
      return Success(List(result));
    }

    method ReadKey(depth: nat, result: map<Octets, Value>, previous: Octets) returns (outcome: Outcome)
      requires offset <= |encoded|
      modifies this
      ensures Agrees(ParseKey(unicode, encoded, limits, old(offset), old(items), depth, result, previous), outcome)
      ensures outcome.Success? ==> old(offset) < offset && outcome.value.Text?
      decreases |encoded| - offset, 1
    {
      hide Parse, LengthFirst;
      var keyStart := offset;
      if keyStart >= |encoded| || encoded[keyStart] / 32 != 3 {
        return Failure(InvalidEncoding);
      }
      outcome := ReadValue(depth + 1);
      if outcome.Failure? {
        return;
      }
      if !outcome.value.Text? {
        return Failure(InvalidEncoding);
      }
      if outcome.value.text in result {
        return Failure(InvalidEncoding);
      }
      if previous != [] && !LengthFirst(previous, encoded[keyStart..offset]) {
        return Failure(InvalidEncoding);
      }
    }

    method ReadEntries(argument: nat, depth: nat) returns (outcome: Outcome)
      requires offset <= |encoded|
      modifies this
      ensures Agrees(ParseDict(unicode, encoded, limits, old(offset), old(items), depth, argument, map[], []), outcome)
      decreases |encoded| - offset, 2
    {
      hide Parse, ParseKey;
      var result: map<Octets, Value> := map[];
      var previous: Octets := [];
      for index := 0 to argument
        invariant old(offset) <= offset <= |encoded|
        invariant ParseDict(unicode, encoded, limits, old(offset), old(items), depth, argument, map[], [])
               == ParseDict(unicode, encoded, limits, offset, items, depth, argument - index, result, previous)
      {
        var keyStart := offset;
        var key := ReadKey(depth, result, previous);
        if key.Failure? {
          return key;
        }
        previous := encoded[keyStart..offset];
        var item := ReadValue(depth + 1);
        if item.Failure? {
          return item;
        }
        result := result[key.value.text := item.value];
      }
      return Success(Dict(result));
    }
  }

  lemma {:induction false} PowerGrows(small: nat, large: nat)
    requires small <= large
    ensures Pow256(small) <= Pow256(large)
    decreases large - small
  {
    if small < large {
      PowerGrows(small + 1, large);
    }
  }
}
