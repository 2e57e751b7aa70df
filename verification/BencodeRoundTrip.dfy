// What the two halves of the codec mean to each other, on every value and
// every input.
module BencodeRoundTrip {
  import opened Common
  import opened Bencode

  // s stands in data at position p; anything may follow it.
  predicate At(data: Bytes, p: nat, s: Bytes) {
    p + |s| <= |data| && forall k :: 0 <= k < |s| ==> data[p + k] == s[k]
  }

  lemma AtSplit(data: Bytes, p: nat, a: Bytes, b: Bytes)
    requires At(data, p, a + b)
    ensures At(data, p, a) && At(data, p + |a|, b)
  {
    assert forall k :: 0 <= k < |a| ==> a[k] == (a + b)[k];
    assert forall k :: 0 <= k < |b| ==> b[k] == (a + b)[|a| + k];
  }

  lemma AtSlice(data: Bytes, p: nat, s: Bytes)
    ensures At(data, p, s) <==> p + |s| <= |data| && data[p..p + |s|] == s
  {
    if p + |s| <= |data| {
      var t := data[p..p + |s|];
      assert forall k :: 0 <= k < |s| ==> t[k] == data[p + k];
    }
  }

  // The value x was read, up to position q.
  predicate Reads<T(==)>(r: Decoded<T>, x: T, q: nat) {
    r.Ok? && r.value.0 == x && r.value.1 == q
  }

  // ----- numbers -----

  lemma {:induction false} ParseDigits(n: nat)
    ensures ParseNat(Digits(n)) == Some(n)
  {
    if n >= 10 {
      ParseDigits(n / 10);
      var s := Digits(n);
      assert s[..|s| - 1] == Digits(n / 10);
      assert IsDigit(Digits(n / 10)[|s| - 2]);
    }
  }

  lemma PyIntDecimal(n: int)
    ensures PyInt(Decimal(n)) == Some(n)
  {
    var s := Decimal(n);
    assert StripLeft(s) == s && StripRight(s) == s;
    if n < 0 {
      ParseDigits(-n);
      assert s[1..] == Digits(-n);
    } else {
      ParseDigits(n);
    }
  }

  // The terminator found is the one right after a stretch without it.
  lemma {:induction false} IndexAfter(data: Bytes, p: nat, s: Bytes, c: Byte)
    requires At(data, p, s) && c !in s && At(data, p + |s|, [c])
    ensures IndexOf(data, c, p) == Some(p + |s|)
    decreases |s|
  {
    if s == [] {
      assert data[p + 0] == [c][0];
    } else {
      assert data[p + 0] == s[0];
      assert s[0] in s;
      forall k | 0 <= k < |s[1..]| ensures data[p + 1 + k] == s[1..][k] {
        assert data[p + (k + 1)] == s[k + 1];
      }
      IndexAfter(data, p + 1, s[1..], c);
    }
  }

  lemma IntLayout(data: Bytes, p: nat, num: Bytes)
    requires CHAR_E !in num && At(data, p, [CHAR_I] + num + [CHAR_E])
    ensures data[p] == CHAR_I && IndexOf(data, CHAR_E, p) == Some(p + 1 + |num|)
    ensures data[p + 1..p + 1 + |num|] == num
  {
    AtSplit(data, p, [CHAR_I] + num, [CHAR_E]);
    AtSplit(data, p, [CHAR_I], num);
    assert data[p + 0] == [CHAR_I][0];
    IndexAfter(data, p, [CHAR_I] + num, CHAR_E);
    AtSlice(data, p + 1, num);
  }

  lemma IntParses(data: Bytes, p: nat, n: int)
    requires At(data, p, [CHAR_I] + Decimal(n) + [CHAR_E])
    ensures data[p] == CHAR_I && Reads(IntAt(data, p), Int(n), p + |Decimal(n)| + 2)
  {
    IntLayout(data, p, Decimal(n));
    PyIntDecimal(n);
  }

  lemma StringLayout(data: Bytes, p: nat, s: Bytes, b: Bytes)
    requires s != [] && COLON !in s && At(data, p, s + [COLON] + b)
    ensures data[p] == s[0] && IndexOf(data, COLON, p) == Some(p + |s|) && data[p..p + |s|] == s
    ensures p + |s| + 1 + |b| <= |data| && data[p + |s| + 1..p + |s| + 1 + |b|] == b
  {
    AtSplit(data, p, s + [COLON], b);
    AtSplit(data, p, s, [COLON]);
    assert data[p + 0] == s[0];
    IndexAfter(data, p, s, COLON);
    AtSlice(data, p, s);
    AtSlice(data, p + |s| + 1, b);
  }

  lemma StrParses(data: Bytes, p: nat, b: Bytes)
    requires At(data, p, EncodeBytes(b))
    ensures IsDigit(data[p]) && Reads(StrAt(data, p), Str(b), p + |EncodeBytes(b)|)
  {
    var colon := p + |Digits(|b|)|;
    StringLayout(data, p, Digits(|b|), b);
    PyIntDecimal(|b|);
    StringRead(data, p, colon, |b|);
    SliceWhole(data, colon + 1, |b|);
  }

  lemma StringRead(data: Bytes, p: nat, colon: nat, n: nat)
    requires p < |data| && IndexOf(data, COLON, p) == Some(colon) && PyInt(data[p..colon]) == Some(n)
    ensures Reads(StrAt(data, p), Str(Slice(data, colon + 1, n)), colon + 1 + n)
  {
  }

  lemma SliceWhole(data: Bytes, p: nat, n: nat)
    requires p + n <= |data|
    ensures Slice(data, p, n) == data[p..p + n]
  {
  }

  // ----- one step of each side -----

  lemma ListText(v: Value)
    requires v.List? && Encodable(v)
    ensures Encode(v) == [CHAR_L] + (EncodeItems(v, 0) + [CHAR_E])
  {
  }

  lemma ItemsText(v: Value, i: nat)
    requires v.List? && Encodable(v) && i < |v.items|
    ensures EncodeItems(v, i) + [CHAR_E] == Encode(v.items[i]) + (EncodeItems(v, i + 1) + [CHAR_E])
  {
  }

  lemma DictText(v: Value)
    requires v.Dict? && Encodable(v)
    ensures Encode(v) == [CHAR_D] + (EncodeEntries(v, SortedKeys(v.entries.Keys)) + [CHAR_E])
  {
  }

  lemma EntriesText(v: Value, keys: seq<Key>) returns (rest: Bytes)
    requires v.Dict? && Encodable(v) && keys != [] && forall k :: k in keys ==> k in v.entries
    ensures keys[0] in v.entries && keys[0] == BytesKey(keys[0].b) && forall k :: k in keys[1..] ==> k in v.entries
    ensures rest == EncodeEntries(v, keys[1..]) + [CHAR_E]
    ensures EncodeEntries(v, keys) + [CHAR_E] == EncodeBytes(keys[0].b) + (Encode(v.entries[keys[0]]) + rest)
  {
    assert keys[0] in keys;
    rest := EncodeEntries(v, keys[1..]) + [CHAR_E];
  }

  lemma DecodesString(data: Bytes, p: nat, b: Bytes)
    requires At(data, p, EncodeBytes(b))
    ensures Reads(DecodeAt(data, p), Str(b), p + |EncodeBytes(b)|) && data[p] != CHAR_E
  {
    StrParses(data, p, b);
  }

  lemma ItemStep(data: Bytes, p: nat, acc: seq<Value>, item: Value, q: nat, all: seq<Value>, end: nat)
    requires Reads(DecodeAt(data, p), item, q) && Reads(DecodeItems(data, q, acc + [item]), all, end)
    ensures Reads(DecodeItems(data, p, acc), all, end)
  {
  }

  lemma EntryStep(data: Bytes, p: nat, acc: map<Key, Value>, k: Key, q: nat, val: Value, r: nat, all: map<Key, Value>,
                  end: nat)
    requires k.BytesKey? && Reads(DecodeAt(data, p), Str(k.b), q) && Reads(DecodeAt(data, q), val, r)
    requires Reads(DecodeEntries(data, r, acc[k := val]), all, end)
    ensures Reads(DecodeEntries(data, p, acc), all, end)
  {
  }

  lemma ListStep(data: Bytes, p: nat, items: seq<Value>, q: nat)
    requires At(data, p, [CHAR_L]) && Reads(DecodeItems(data, p + 1, []), items, q)
    ensures Reads(DecodeAt(data, p), List(items), q)
  {
    assert data[p + 0] == [CHAR_L][0];
  }

  lemma DictStep(data: Bytes, p: nat, entries: map<Key, Value>, q: nat)
    requires At(data, p, [CHAR_D]) && Reads(DecodeEntries(data, p + 1, map[]), entries, q)
    ensures Reads(DecodeAt(data, p), Dict(entries), q)
  {
    assert data[p + 0] == [CHAR_D][0];
  }

  lemma LastItem(data: Bytes, p: nat, acc: seq<Value>)
    requires At(data, p, [CHAR_E])
    ensures Reads(DecodeItems(data, p, acc), acc, p + 1)
  {
    assert data[p + 0] == [CHAR_E][0];
  }

  lemma LastEntry(data: Bytes, p: nat, acc: map<Key, Value>)
    requires At(data, p, [CHAR_E])
    ensures Reads(DecodeEntries(data, p, acc), acc, p + 1)
  {
    assert data[p + 0] == [CHAR_E][0];
  }

  // ----- the round trip -----

  // Decoding stops exactly at the end of an encoded value, whatever follows.
  lemma {:induction false} DecodesEncoded(data: Bytes, p: nat, v: Value)
    requires Encodable(v) && At(data, p, Encode(v))
    ensures Reads(DecodeAt(data, p), v, p + |Encode(v)|)
    decreases v, 1, 0
  {
    match v
    case Int(n) => IntParses(data, p, n);
    case Str(b) => StrParses(data, p, b);
    case List(items) =>
      ListText(v);
      AtSplit(data, p, [CHAR_L], EncodeItems(v, 0) + [CHAR_E]);
      DecodesItems(data, p + 1, v, 0, [], EncodeItems(v, 0) + [CHAR_E]);
      ListStep(data, p, items, p + |Encode(v)|);
    case Dict(entries) =>
      DecodesDict(data, p, v, SortedKeys(entries.Keys));
  }

  lemma {:induction false} DecodesDict(data: Bytes, p: nat, v: Value, keys: seq<Key>)
    requires v.Dict? && Encodable(v) && keys == SortedKeys(v.entries.Keys) && At(data, p, Encode(v))
    ensures Reads(DecodeAt(data, p), v, p + |Encode(v)|)
    decreases v, 0, |keys| + 1
  {
    var rest := EncodeEntries(v, keys) + [CHAR_E];
    DictText(v);
    AtSplit(data, p, [CHAR_D], rest);
    DecodesEntries(data, p + 1, v, keys, map[], rest);
    DictStep(data, p, v.entries, p + 1 + |rest|);
  }

  lemma {:induction false} DecodesItems(data: Bytes, p: nat, v: Value, i: nat, acc: seq<Value>, text: Bytes)
    requires v.List? && Encodable(v) && i <= |v.items| && acc == v.items[..i]
    requires text == EncodeItems(v, i) + [CHAR_E] && At(data, p, text)
    ensures Reads(DecodeItems(data, p, acc), v.items, p + |text|)
    decreases v, 0, |v.items| - i
  {
    if i == |v.items| {
      NoMoreToRead(data, p, v, acc, text);
    } else {
      var q, rest := ItemPlaces(data, p, v, i, text);
      var more := ItemTaken(v, i, acc);
      DecodesEncoded(data, p, v.items[i]);
      DecodesItems(data, q, v, i + 1, more, rest);
      ItemStep(data, p, acc, v.items[i], q, v.items, q + |rest|);
    }
  }

  lemma ItemTaken(v: Value, i: nat, acc: seq<Value>) returns (more: seq<Value>)
    requires v.List? && i < |v.items| && acc == v.items[..i]
    ensures more == acc + [v.items[i]] && more == v.items[..i + 1]
  {
    more := acc + [v.items[i]];
  }

  lemma NoMoreToRead(data: Bytes, p: nat, v: Value, acc: seq<Value>, text: Bytes)
    requires v.List? && Encodable(v) && acc == v.items[..|v.items|]
    requires text == EncodeItems(v, |v.items|) + [CHAR_E] && At(data, p, text)
    ensures Reads(DecodeItems(data, p, acc), v.items, p + |text|)
  {
    assert text == [CHAR_E];
    LastItem(data, p, acc);
    assert acc == v.items;
  }

  // Where the first of the remaining items stands.
  lemma ItemPlaces(data: Bytes, p: nat, v: Value, i: nat, text: Bytes) returns (q: nat, rest: Bytes)
    requires v.List? && Encodable(v) && i < |v.items|
    requires text == EncodeItems(v, i) + [CHAR_E] && At(data, p, text)
    ensures At(data, p, Encode(v.items[i])) && q == p + |Encode(v.items[i])|
    ensures rest == EncodeItems(v, i + 1) + [CHAR_E] && At(data, q, rest) && p + |text| == q + |rest|
  {
    rest := EncodeItems(v, i + 1) + [CHAR_E];
    ItemsText(v, i);
    q := TwoParts(data, p, Encode(v.items[i]), rest, text);
  }

  lemma TwoParts(data: Bytes, p: nat, head: Bytes, rest: Bytes, text: Bytes) returns (q: nat)
    requires text == head + rest && At(data, p, text)
    ensures q == p + |head| && At(data, p, head) && At(data, q, rest) && p + |text| == q + |rest|
  {
    q := p + |head|;
    AtSplit(data, p, head, rest);
  }

  // acc holds the entries of v outside keys.
  predicate Covers(v: Value, keys: seq<Key>, acc: map<Key, Value>)
    requires v.Dict?
  {
    (forall k :: k in keys ==> k in v.entries)
    && (forall k :: k in v.entries ==> k in keys || k in acc)
    && (forall k :: k in acc ==> k in v.entries && acc[k] == v.entries[k])
  }

  lemma CoversStep(v: Value, keys: seq<Key>, acc: map<Key, Value>)
    requires v.Dict? && Covers(v, keys, acc) && keys != []
    ensures Covers(v, keys[1..], acc[keys[0] := v.entries[keys[0]]])
  {
    forall k | k in v.entries ensures k in keys[1..] || k in acc[keys[0] := v.entries[keys[0]]] {
      if k !in acc && k != keys[0] {
        assert k in keys[1..];
      }
    }
  }

  lemma EntryParts(data: Bytes, p: nat, name: Bytes, body: Bytes, rest: Bytes) returns (q: nat, r: nat)
    requires At(data, p, name + (body + rest))
    ensures q == p + |name| && r == q + |body|
    ensures At(data, p, name) && At(data, q, body) && At(data, r, rest)
  {
    q, r := p + |name|, p + |name| + |body|;
    AtSplit(data, p, name, body + rest);
    AtSplit(data, q, body, rest);
  }

  // Where the first of the remaining entries stands: its name ends at q, its
  // value at r.
  lemma EntryLayout(data: Bytes, p: nat, v: Value, keys: seq<Key>, text: Bytes) returns (q: nat, r: nat, rest: Bytes)
    requires v.Dict? && Encodable(v) && keys != [] && forall k :: k in keys ==> k in v.entries
    requires text == EncodeEntries(v, keys) + [CHAR_E] && At(data, p, text)
    ensures keys[0] in v.entries && keys[0].BytesKey? && (forall k :: k in keys[1..] ==> k in v.entries)
    ensures Reads(DecodeAt(data, p), Str(keys[0].b), q)
    ensures At(data, q, Encode(v.entries[keys[0]])) && r == q + |Encode(v.entries[keys[0]])|
    ensures rest == EncodeEntries(v, keys[1..]) + [CHAR_E] && At(data, r, rest) && p + |text| == r + |rest|
  {
    rest := EntriesText(v, keys);
    q, r := EntryParts(data, p, EncodeBytes(keys[0].b), Encode(v.entries[keys[0]]), rest);
    DecodesString(data, p, keys[0].b);
  }

  lemma {:induction false} DecodesEntries(data: Bytes, p: nat, v: Value, keys: seq<Key>, acc: map<Key, Value>,
                                          text: Bytes)
    requires v.Dict? && Encodable(v) && Covers(v, keys, acc)
    requires text == EncodeEntries(v, keys) + [CHAR_E] && At(data, p, text)
    ensures Reads(DecodeEntries(data, p, acc), v.entries, p + |text|)
    decreases v, 0, |keys|
  {
    if keys == [] {
      assert text == [CHAR_E];
      LastEntry(data, p, acc);
      assert acc == v.entries;
    } else {
      var q, r, rest := EntryLayout(data, p, v, keys, text);
      var k, val := keys[0], v.entries[keys[0]];
      DecodesEncoded(data, q, val);
      CoversStep(v, keys, acc);
      DecodesEntries(data, r, v, keys[1..], acc[k := val], rest);
      EntryStep(data, p, acc, k, q, val, r, v.entries, r + |rest|);
    }
  }

  lemma RoundTrip(v: Value)
    requires Encodable(v)
    ensures Decode(Encode(v)) == Ok(v)
  {
    DecodesEncoded(Encode(v), 0, v);
  }

  // No encoding is a prefix of another value's encoding; in particular
  // different values have different encodings.
  lemma PrefixFree(v: Value, w: Value, rest: Bytes)
    requires Encodable(v) && Encodable(w)
    ensures Encode(v) + rest == Encode(w) <==> v == w && rest == []
  {
    var data := Encode(v) + rest;
    DecodesEncoded(data, 0, v);
    if data == Encode(w) {
      DecodesEncoded(data, 0, w);
    }
  }
}
