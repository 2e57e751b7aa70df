// What the decoder makes of input no encoder writes.
module BencodeLenient {
  import opened Common
  import opened Bencode
  import opened BencodeRoundTrip

  // ----- numbers -----

  // Digits, with single underscores between them.
  predicate NumberText(s: Bytes) {
    && s != [] && IsDigit(s[0]) && IsDigit(s[|s| - 1])
    && (forall i :: 0 <= i < |s| ==> IsDigit(s[i]) || s[i] == UNDERSCORE)
    && forall i :: 0 <= i < |s| - 1 ==> IsDigit(s[i]) || IsDigit(s[i + 1])
  }

  // The number its digits make, left to right.
  function NumberOf(s: Bytes): int {
    if s == [] then 0
    else
      var high, last := NumberOf(s[..|s| - 1]), s[|s| - 1];
      if last == UNDERSCORE then high else 10 * high + (last - 48)
  }

  lemma TextFront(s: Bytes, n: nat)
    requires 0 < n <= |s| && IsDigit(s[n - 1]) && NumberText(s)
    ensures NumberText(s[..n])
  {
  }

  lemma TextGrows(s: Bytes, n: nat)
    requires 0 < n < |s| && NumberText(s[..n]) && IsDigit(s[|s| - 1])
    requires n == |s| - 1 || (n == |s| - 2 && s[n] == UNDERSCORE)
    ensures NumberText(s)
  {
    assert forall i :: 0 <= i < n ==> s[..n][i] == s[i];
  }

  lemma {:induction false} ParseNatIs(s: Bytes)
    ensures ParseNat(s).Some? <==> NumberText(s)
    ensures ParseNat(s).Some? ==> ParseNat(s).value == NumberOf(s)
    decreases |s|
  {
    if s != [] && IsDigit(s[|s| - 1]) {
      if |s| == 1 {
        assert s[..0] == [];
      } else {
        var n := if s[|s| - 2] == UNDERSCORE then |s| - 2 else |s| - 1;
        ParseNatIs(s[..n]);
        if NumberText(s) {
          TextFront(s, n);
        }
        if NumberText(s[..n]) {
          TextGrows(s, n);
        }
        if n == |s| - 2 {
          assert s[..|s| - 1][..|s| - 2] == s[..n];
        }
      }
    }
  }

  // ----- whole inputs -----

  lemma AtFront(a: Bytes, rest: Bytes)
    ensures At(a + rest, 0, a)
  {
  }

  // Anything after a value is refused.
  lemma TrailingBytesRefused(v: Value, rest: Bytes)
    requires Encodable(v) && rest != []
    ensures Decode(Encode(v) + rest) == Err(TrailingBytes)
  {
    AtFront(Encode(v), rest);
    DecodesEncoded(Encode(v) + rest, 0, v);
  }

  // A dictionary text of one key and value after another.
  lemma EntryRead(data: Bytes, p: nat, key: Value, val: Value, q: nat, r: nat)
    requires Encodable(key) && Encodable(val) && At(data, p, Encode(key)) && q == p + |Encode(key)|
    requires At(data, q, Encode(val)) && r == q + |Encode(val)|
    ensures Reads(DecodeAt(data, p), key, q) && Reads(DecodeAt(data, q), val, r)
    ensures p < |data| && data[p] != CHAR_E
  {
    DecodesEncoded(data, p, key);
    DecodesEncoded(data, q, val);
    assert data[p + 0] == Encode(key)[0];
  }

  // One entry, and then the end.
  function OneEntry(key: Bytes, val: Bytes): Bytes {
    [CHAR_D] + (key + (val + [CHAR_E]))
  }

  lemma OneEntryLies(key: Bytes, val: Bytes) returns (q: nat, r: nat)
    ensures q == 1 + |key| && r == q + |val| && r + 1 == |OneEntry(key, val)|
    ensures var data := OneEntry(key, val);
      At(data, 0, [CHAR_D]) && At(data, 1, key) && At(data, q, val) && At(data, r, [CHAR_E])
  {
    var data := OneEntry(key, val);
    q, r := 1 + |key|, 1 + |key| + |val|;
    AtSplit(data, 0, [CHAR_D], key + (val + [CHAR_E]));
    AtSplit(data, 1, key, val + [CHAR_E]);
    AtSplit(data, q, val, [CHAR_E]);
  }

  lemma IntegerEntry(data: Bytes, n: int, val: Value, q: nat, r: nat)
    requires At(data, 0, [CHAR_D]) && At(data, r, [CHAR_E]) && |data| == r + 1 && 1 < |data| && data[1] != CHAR_E
    requires Reads(DecodeAt(data, 1), Int(n), q) && Reads(DecodeAt(data, q), val, r)
    ensures Decode(data) == Ok(Dict(map[IntKey(n) := val]))
  {
    var entries := map[IntKey(n) := val];
    LastEntry(data, r, entries);
    assert map[][IntKey(n) := val] == entries;
    assert Reads(DecodeEntries(data, 1, map[]), entries, r + 1);
    DictStep(data, 0, entries, r + 1);
  }

  // Integers are taken for keys, which no encoder writes.
  lemma IntegerKeysRead(n: int, val: Value)
    requires Encodable(val)
    ensures Decode(OneEntry(Encode(Int(n)), Encode(val))) == Ok(Dict(map[IntKey(n) := val]))
    ensures !Encodable(Dict(map[IntKey(n) := val]))
  {
    var data := OneEntry(Encode(Int(n)), Encode(val));
    var q, r := OneEntryLies(Encode(Int(n)), Encode(val));
    EntryRead(data, 1, Int(n), val, q, r);
    IntegerEntry(data, n, val, q, r);
    assert IntKey(n) in map[IntKey(n) := val];
  }

  // Lists and dictionaries are not.
  lemma OtherKeysRefused(key: Value, val: Value)
    requires Encodable(key) && Encodable(val) && (key.List? || key.Dict?)
    ensures Decode(OneEntry(Encode(key), Encode(val))) == Err(UnhashableKey)
  {
    var data := OneEntry(Encode(key), Encode(val));
    var q, r := OneEntryLies(Encode(key), Encode(val));
    EntryRead(data, 1, key, val, q, r);
    assert data[0] == CHAR_D;
    assert DecodeEntries(data, 1, map[]) == Err(UnhashableKey);
  }

  // The same key twice, and then the end.
  function TwoEntries(key: Bytes, first: Bytes, second: Bytes): Bytes {
    [CHAR_D] + (key + (first + (key + (second + [CHAR_E]))))
  }

  lemma TwoEntriesLie(key: Bytes, first: Bytes, second: Bytes) returns (a: nat, b: nat, c: nat, d: nat)
    ensures a == 1 + |key| && b == a + |first| && c == b + |key| && d == c + |second|
    ensures d + 1 == |TwoEntries(key, first, second)|
    ensures var data := TwoEntries(key, first, second);
      At(data, 0, [CHAR_D]) && At(data, 1, key) && At(data, a, first) && At(data, b, key) && At(data, c, second)
      && At(data, d, [CHAR_E])
  {
    var data := TwoEntries(key, first, second);
    a, b, c, d := 1 + |key|, 1 + |key| + |first|, 1 + |key| + |first| + |key|,
      1 + |key| + |first| + |key| + |second|;
    AtSplit(data, 0, [CHAR_D], key + (first + (key + (second + [CHAR_E]))));
    AtSplit(data, 1, key, first + (key + (second + [CHAR_E])));
    AtSplit(data, a, first, key + (second + [CHAR_E]));
    AtSplit(data, b, key, second + [CHAR_E]);
    AtSplit(data, c, second, [CHAR_E]);
  }

  lemma SameKeyTwice(data: Bytes, k: Key, first: Value, second: Value, q: nat, r: nat, u: nat, w: nat)
    requires At(data, w, [CHAR_E]) && k.BytesKey?
    requires Reads(DecodeAt(data, 1), Str(k.b), q) && Reads(DecodeAt(data, q), first, r)
    requires Reads(DecodeAt(data, r), Str(k.b), u) && Reads(DecodeAt(data, u), second, w)
    ensures Reads(DecodeEntries(data, 1, map[]), map[k := second], w + 1)
  {
    var one, two := map[k := first], map[k := second];
    assert one[k := second] == two;
    EntryOverwrites(data, one, k, second, r, u, w, two);
    assert map[][k := first] == one;
    EntryStep(data, 1, map[], k, q, first, r, two, w + 1);
  }

  lemma WholeDictionary(data: Bytes, entries: map<Key, Value>)
    requires At(data, 0, [CHAR_D]) && Reads(DecodeEntries(data, 1, map[]), entries, |data|)
    ensures Decode(data) == Ok(Dict(entries))
  {
    DictStep(data, 0, entries, |data|);
  }

  lemma EntryOverwrites(data: Bytes, one: map<Key, Value>, k: Key, val: Value, p: nat, q: nat, r: nat,
                        two: map<Key, Value>)
    requires k.BytesKey? && Reads(DecodeAt(data, p), Str(k.b), q) && Reads(DecodeAt(data, q), val, r)
    requires At(data, r, [CHAR_E]) && one[k := val] == two
    ensures Reads(DecodeEntries(data, p, one), two, r + 1)
  {
    LastEntry(data, r, two);
    EntryStep(data, p, one, k, q, val, r, two, r + 1);
  }

  // Of two entries with one key the later one counts.
  lemma LaterEntryCounts(b: Bytes, first: Value, second: Value)
    requires Encodable(first) && Encodable(second)
    ensures Decode(TwoEntries(EncodeBytes(b), Encode(first), Encode(second))) == Ok(Dict(map[BytesKey(b) := second]))
  {
    var data := TwoEntries(EncodeBytes(b), Encode(first), Encode(second));
    var q, r, u, w := TwoEntriesLie(EncodeBytes(b), Encode(first), Encode(second));
    KeyAndValue(data, 1, b, first, q, r);
    KeyAndValue(data, r, b, second, u, w);
    SameKeyTwice(data, BytesKey(b), first, second, q, r, u, w);
    WholeDictionary(data, map[BytesKey(b) := second]);
  }

  lemma KeyAndValue(data: Bytes, p: nat, b: Bytes, val: Value, q: nat, r: nat)
    requires Encodable(val) && At(data, p, EncodeBytes(b)) && q == p + |EncodeBytes(b)|
    requires At(data, q, Encode(val)) && r == q + |Encode(val)|
    ensures Reads(DecodeAt(data, p), Str(b), q) && Reads(DecodeAt(data, q), val, r)
  {
    DecodesString(data, p, b);
    DecodesEncoded(data, q, val);
  }

  // A string shorter than it says reaches past the end and is refused.
  lemma ShortStringRefused(b: Bytes, n: nat)
    requires n > |b|
    ensures Decode(Digits(n) + [COLON] + b) == Err(TrailingBytes)
  {
    var data, colon := Digits(n) + [COLON] + b, |Digits(n)|;
    StringLayout(data, 0, Digits(n), b);
    PyIntDecimal(n);
    assert data[0..colon] == Digits(n);
    StringRead(data, 0, colon, n);
    assert IsDigit(data[0]);
  }
}
