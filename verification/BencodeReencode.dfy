// The canonical recogniser accepts exactly the encoder's output, so decoding
// and re-encoding reproduces an input exactly when the input is canonical.
module BencodeReencode {
  import opened Common
  import opened Bencode
  import opened BencodeRoundTrip
  import opened BencodeCanonical

  // ----- canonical input is some value's encoding -----

  lemma {:induction false} TailItems(v: Value, w: Value, i: nat)
    requires v.List? && w.List? && Encodable(v) && Encodable(w) && v.items != [] && w.items == v.items[1..]
      && i <= |w.items|
    ensures EncodeItems(v, i + 1) == EncodeItems(w, i)
    decreases |w.items| - i
  {
    if i < |w.items| {
      TailItems(v, w, i + 1);
      assert v.items[i + 1] == w.items[i];
    }
  }

  lemma {:induction false} SameEntries(v: Value, w: Value, keys: seq<Key>)
    requires v.Dict? && w.Dict? && Encodable(v) && Encodable(w)
    requires forall k :: k in keys ==> k in v.entries && k in w.entries && v.entries[k] == w.entries[k]
    ensures EncodeEntries(v, keys) == EncodeEntries(w, keys)
    decreases |keys|
  {
    if keys != [] {
      SameEntries(v, w, keys[1..]);
    }
  }

  // data[i..j] is text.
  predicate Between(data: Bytes, i: nat, j: nat, text: Bytes) {
    i <= j <= |data| && data[i..j] == text
  }

  lemma Joined(data: Bytes, i: nat, j: nat, k: nat, a: Bytes, b: Bytes)
    requires Between(data, i, j, a) && Between(data, j, k, b)
    ensures Between(data, i, k, a + b)
  {
    assert data[i..k] == data[i..j] + data[j..k];
  }

  lemma JoinedThree(data: Bytes, i: nat, j: nat, k: nat, n: nat, a: Bytes, b: Bytes, c: Bytes)
    requires Between(data, i, j, a) && Between(data, j, k, b) && Between(data, k, n, c)
    ensures Between(data, i, n, a + b + c)
  {
    Joined(data, i, j, k, a, b);
    Joined(data, i, k, n, a + b, c);
  }

  lemma IntIsEncoded(data: Bytes, i: nat) returns (v: Value)
    requires i < |data| && data[i] == CHAR_I && IntEnd(data, i).Some?
    ensures Encodable(v) && Between(data, i, IntEnd(data, i).value, Encode(v))
  {
    var end := IndexOf(data, CHAR_E, i).value;
    var n := CanonicalDecimal(data[i + 1..end]);
    v := Int(n);
    JoinedThree(data, i, i + 1, end, end + 1, [CHAR_I], Decimal(n), [CHAR_E]);
  }

  // A canonical string: its length, a colon, its bytes.
  lemma StringParts(data: Bytes, i: nat) returns (colon: nat, n: nat)
    requires i < |data| && StringOf(data, i).Some?
    ensures i <= colon && colon + 1 + n <= |data| && data[colon] == COLON && data[i..colon] == Digits(n)
    ensures StringOf(data, i).value.0 == data[colon + 1..colon + 1 + n] && StringOf(data, i).value.1 == colon + 1 + n
  {
    colon := IndexOf(data, COLON, i).value;
    n := CanonicalDigits(data[i..colon]);
    ParseDigits(n);
  }

  lemma StringIsEncoded(data: Bytes, i: nat)
    requires i < |data| && StringOf(data, i).Some?
    ensures Between(data, i, StringOf(data, i).value.1, EncodeBytes(StringOf(data, i).value.0))
  {
    var colon, n := StringParts(data, i);
    JoinedThree(data, i, colon, colon + 1, colon + 1 + n, Digits(n), [COLON], data[colon + 1..colon + 1 + n]);
  }

  lemma {:induction false} CanonicalIsEncoded(data: Bytes, i: nat) returns (v: Value)
    requires CanonicalEnd(data, i).Some?
    ensures Encodable(v) && Between(data, i, CanonicalEnd(data, i).value, Encode(v))
    decreases |data| - i, 1
  {
    var j := CanonicalEnd(data, i).value;
    assert data[i..i + 1] == [data[i]];
    if data[i] == CHAR_I {
      v := IntIsEncoded(data, i);
    } else if data[i] == CHAR_L {
      var items := ItemsAreEncoded(data, i + 1);
      v := List(items);
      Joined(data, i, i + 1, j, [CHAR_L], EncodeItems(v, 0) + [CHAR_E]);
      ListText(v);
    } else if data[i] == CHAR_D {
      var keys, entries := EntriesAreEncoded(data, i + 1, None);
      v := Dict(entries);
      AscendingIsSorted(keys, entries.Keys);
      Joined(data, i, i + 1, j, [CHAR_D], EncodeEntries(v, keys) + [CHAR_E]);
      DictText(v);
    } else {
      StringIsEncoded(data, i);
      v := Str(StringOf(data, i).value.0);
    }
  }

  lemma {:induction false} ItemsAreEncoded(data: Bytes, i: nat) returns (items: seq<Value>)
    requires ItemsEnd(data, i).Some?
    ensures Encodable(List(items))
    ensures Between(data, i, ItemsEnd(data, i).value, EncodeItems(List(items), 0) + [CHAR_E])
    decreases |data| - i, 2
  {
    if i < |data| && data[i] == CHAR_E {
      items := [];
    } else {
      var j := CanonicalEnd(data, i).value;
      var item := CanonicalIsEncoded(data, i);
      var rest := ItemsAreEncoded(data, j);
      items := ConsItem(data, i, j, ItemsEnd(data, j).value, item, rest);
    }
  }

  lemma ConsItem(data: Bytes, i: nat, j: nat, k: nat, item: Value, rest: seq<Value>) returns (items: seq<Value>)
    requires Encodable(item) && Encodable(List(rest))
    requires Between(data, i, j, Encode(item)) && Between(data, j, k, EncodeItems(List(rest), 0) + [CHAR_E])
    ensures Encodable(List(items)) && Between(data, i, k, EncodeItems(List(items), 0) + [CHAR_E])
  {
    items := [item] + rest;
    var v := List(items);
    assert forall n :: 0 < n < |items| ==> items[n] == rest[n - 1];
    assert items[1..] == rest;
    TailItems(v, List(rest), 0);
    Joined(data, i, j, k, Encode(item), EncodeItems(List(rest), 0) + [CHAR_E]);
    ItemsText(v, 0);
  }

  predicate AllAbove(keys: seq<Key>, last: Option<Bytes>)
    requires Ascending(keys)
  {
    last.Some? && keys != [] ==> Below(last.value, keys[0].b)
  }

  lemma {:induction false} EntriesAreEncoded(data: Bytes, i: nat, last: Option<Bytes>)
    returns (keys: seq<Key>, entries: map<Key, Value>)
    requires EntriesEnd(data, i, last).Some?
    ensures Ascending(keys) && AllAbove(keys, last) && (forall k :: k in entries <==> k in keys)
    ensures Encodable(Dict(entries))
    ensures Between(data, i, EntriesEnd(data, i, last).value, EncodeEntries(Dict(entries), keys) + [CHAR_E])
    decreases |data| - i, 2
  {
    if data[i] == CHAR_E {
      keys, entries := [], map[];
    } else {
      var key := StringOf(data, i).value;
      var j := CanonicalEnd(data, key.1).value;
      StringIsEncoded(data, i);
      var val := CanonicalIsEncoded(data, key.1);
      var ks, es := EntriesAreEncoded(data, j, Some(key.0));
      keys := ConsKey(key.0, ks);
      entries := es[BytesKey(key.0) := val];
      Joined(data, key.1, j, EntriesEnd(data, j, Some(key.0)).value,
             Encode(val), EncodeEntries(Dict(es), ks) + [CHAR_E]);
      Joined(data, i, key.1, EntriesEnd(data, j, Some(key.0)).value,
             EncodeBytes(key.0), Encode(val) + (EncodeEntries(Dict(es), ks) + [CHAR_E]));
      ConsEntry(BytesKey(key.0), val, keys, es);
    }
  }

  lemma ConsKey(b: Bytes, ks: seq<Key>) returns (keys: seq<Key>)
    requires Ascending(ks) && AllAbove(ks, Some(b))
    ensures keys == [BytesKey(b)] + ks && Ascending(keys) && BytesKey(b) !in ks
  {
    keys := [BytesKey(b)] + ks;
    forall i | 0 <= i < |ks| ensures Below(b, ks[i].b) {
      if i > 0 {
        LexLeqTransitive(b, ks[0].b, ks[i].b);
        if b == ks[i].b {
          LexLeqAntisymmetric(ks[0].b, ks[i].b);
        }
      }
    }
    assert forall i :: 0 < i < |keys| ==> keys[i] == ks[i - 1];
  }

  lemma ConsEntry(k: Key, val: Value, keys: seq<Key>, es: map<Key, Value>)
    requires k.BytesKey? && keys != [] && keys[0] == k && k !in keys[1..] && Encodable(val) && Encodable(Dict(es))
    requires forall x :: x in es <==> x in keys[1..]
    ensures Encodable(Dict(es[k := val])) && (forall x :: x in es[k := val] <==> x in keys)
    ensures EncodeEntries(Dict(es[k := val]), keys) + [CHAR_E]
         == EncodeBytes(k.b) + (Encode(val) + (EncodeEntries(Dict(es), keys[1..]) + [CHAR_E]))
  {
    var v := Dict(es[k := val]);
    assert keys == [k] + keys[1..];
    SameEntries(v, Dict(es), keys[1..]);
    var rest := EntriesText(v, keys);
  }

  // ----- every encoding is canonical -----

  predicate Ends(r: Option<nat>, end: nat) {
    r.Some? && r.value == end
  }

  // A complete canonical string with content b stands at p and ends at q.
  predicate Spells(data: Bytes, p: nat, b: Bytes, q: nat) {
    p < |data| && StringOf(data, p).Some? && StringOf(data, p).value.0 == b && StringOf(data, p).value.1 == q
  }

  lemma IntIsCanonical(data: Bytes, p: nat, n: int)
    requires At(data, p, [CHAR_I] + Decimal(n) + [CHAR_E])
    ensures data[p] == CHAR_I && Ends(IntEnd(data, p), p + |Decimal(n)| + 2)
  {
    IntLayout(data, p, Decimal(n));
    DecimalCanonical(n);
  }

  lemma StringIsCanonical(data: Bytes, p: nat, b: Bytes)
    requires At(data, p, EncodeBytes(b))
    ensures IsDigit(data[p]) && Spells(data, p, b, p + |EncodeBytes(b)|)
  {
    StringLayout(data, p, Digits(|b|), b);
    ParseDigits(|b|);
    DigitsCanonical(|b|);
    StringRecognised(data, p, p + |Digits(|b|)|, |b|);
  }

  lemma StringRecognised(data: Bytes, p: nat, colon: nat, n: nat)
    requires p < |data| && IndexOf(data, COLON, p) == Some(colon) && colon + 1 + n <= |data|
    requires CanonicalNat(data[p..colon]) && ParseNat(data[p..colon]) == Some(n)
    ensures Spells(data, p, data[colon + 1..colon + 1 + n], colon + 1 + n)
  {
  }

  lemma ItemEnd(data: Bytes, p: nat, q: nat, end: nat)
    requires Ends(CanonicalEnd(data, p), q) && Ends(ItemsEnd(data, q), end)
    ensures Ends(ItemsEnd(data, p), end)
  {
  }

  lemma EntryEnd(data: Bytes, p: nat, b: Bytes, q: nat, r: nat, last: Option<Bytes>, end: nat)
    requires p < |data| && IsDigit(data[p]) && Spells(data, p, b, q) && Ends(CanonicalEnd(data, q), r)
    requires last.Some? ==> Below(last.value, b)
    requires Ends(EntriesEnd(data, r, Some(b)), end)
    ensures Ends(EntriesEnd(data, p, last), end)
  {
  }

  lemma NoMoreEntries(data: Bytes, p: nat, v: Value, last: Option<Bytes>, text: Bytes)
    requires v.Dict? && Encodable(v) && text == EncodeEntries(v, []) + [CHAR_E] && At(data, p, text)
    ensures Ends(EntriesEnd(data, p, last), p + |text|)
  {
    assert data[p + 0] == text[0];
  }

  lemma NoMoreItems(data: Bytes, p: nat, v: Value, text: Bytes)
    requires v.List? && Encodable(v) && text == EncodeItems(v, |v.items|) + [CHAR_E] && At(data, p, text)
    ensures Ends(ItemsEnd(data, p), p + |text|)
  {
    assert data[p + 0] == text[0];
  }

  predicate InDict(v: Value, keys: seq<Key>)
    requires v.Dict?
  {
    forall k :: k in keys ==> k in v.entries
  }

  // keys, read one after the other, each come after the previous one.
  predicate AscendFrom(last: Option<Bytes>, keys: seq<Key>)
    decreases |keys|
  {
    keys == []
    || (keys[0].BytesKey? && (last.Some? ==> Below(last.value, keys[0].b)) && AscendFrom(Some(keys[0].b), keys[1..]))
  }

  lemma {:induction false} AscendingFrom(last: Option<Bytes>, keys: seq<Key>)
    requires Ascending(keys) && AllAbove(keys, last)
    ensures AscendFrom(last, keys)
    decreases |keys|
  {
    if keys != [] {
      AscendingFrom(Some(keys[0].b), keys[1..]);
    }
  }

  lemma {:induction false} EncodedIsCanonical(data: Bytes, p: nat, v: Value)
    requires Encodable(v) && At(data, p, Encode(v))
    ensures Ends(CanonicalEnd(data, p), p + |Encode(v)|)
    decreases v, 1, 0
  {
    match v
    case Int(n) => IntIsCanonical(data, p, n);
    case Str(b) => StringIsCanonical(data, p, b);
    case List(items) =>
      ListText(v);
      AtSplit(data, p, [CHAR_L], EncodeItems(v, 0) + [CHAR_E]);
      assert data[p + 0] == [CHAR_L][0];
      ItemsAreCanonical(data, p + 1, v, 0, EncodeItems(v, 0) + [CHAR_E]);
    case Dict(entries) =>
      SortedKeysAscend(entries.Keys);
      AscendingFrom(None, SortedKeys(entries.Keys));
      DictIsCanonical(data, p, v, SortedKeys(entries.Keys));
  }

  lemma {:induction false} DictIsCanonical(data: Bytes, p: nat, v: Value, keys: seq<Key>)
    requires v.Dict? && Encodable(v) && keys == SortedKeys(v.entries.Keys) && AscendFrom(None, keys)
      && At(data, p, Encode(v))
    ensures Ends(CanonicalEnd(data, p), p + |Encode(v)|)
    decreases v, 0, |keys| + 1
  {
    var rest := EncodeEntries(v, keys) + [CHAR_E];
    DictText(v);
    AtSplit(data, p, [CHAR_D], rest);
    assert data[p + 0] == [CHAR_D][0];
    EntriesAreCanonical(data, p + 1, v, keys, None, rest);
  }

  lemma {:induction false} ItemsAreCanonical(data: Bytes, p: nat, v: Value, i: nat, text: Bytes)
    requires v.List? && Encodable(v) && i <= |v.items|
    requires text == EncodeItems(v, i) + [CHAR_E] && At(data, p, text)
    ensures Ends(ItemsEnd(data, p), p + |text|)
    decreases v, 0, |v.items| - i
  {
    if i == |v.items| {
      NoMoreItems(data, p, v, text);
    } else {
      var q, rest := ItemPlaces(data, p, v, i, text);
      EncodedIsCanonical(data, p, v.items[i]);
      ItemsAreCanonical(data, q, v, i + 1, rest);
      ItemEnd(data, p, q, q + |rest|);
    }
  }

  lemma {:induction false} EntriesAreCanonical(data: Bytes, p: nat, v: Value, keys: seq<Key>, last: Option<Bytes>,
                                               text: Bytes)
    requires v.Dict? && Encodable(v) && AscendFrom(last, keys) && InDict(v, keys)
    requires text == EncodeEntries(v, keys) + [CHAR_E] && At(data, p, text)
    ensures Ends(EntriesEnd(data, p, last), p + |text|)
    decreases v, 0, |keys|
  {
    if keys == [] {
      NoMoreEntries(data, p, v, last, text);
    } else {
      var q, r, rest := EntryPlaces(data, p, v, keys, text);
      EncodedIsCanonical(data, q, v.entries[keys[0]]);
      EntriesAreCanonical(data, r, v, keys[1..], Some(keys[0].b), rest);
      EntryEnd(data, p, keys[0].b, q, r, last, r + |rest|);
    }
  }

  lemma EntryPlaces(data: Bytes, p: nat, v: Value, keys: seq<Key>, text: Bytes) returns (q: nat, r: nat, rest: Bytes)
    requires v.Dict? && Encodable(v) && keys != [] && InDict(v, keys)
    requires text == EncodeEntries(v, keys) + [CHAR_E] && At(data, p, text)
    ensures keys[0] in v.entries && keys[0].BytesKey? && InDict(v, keys[1..])
    ensures p < |data| && IsDigit(data[p]) && Spells(data, p, keys[0].b, q)
    ensures At(data, q, Encode(v.entries[keys[0]])) && r == q + |Encode(v.entries[keys[0]])|
    ensures rest == EncodeEntries(v, keys[1..]) + [CHAR_E] && At(data, r, rest) && p + |text| == r + |rest|
  {
    rest := EntriesText(v, keys);
    q, r := EntryParts(data, p, EncodeBytes(keys[0].b), Encode(v.entries[keys[0]]), rest);
    StringIsCanonical(data, p, keys[0].b);
  }

  // ----- the re-encoding law -----

  // A decoded value re-encodes to the very bytes it came from if and only if
  // those bytes are in canonical form.
  lemma ReencodesIffCanonical(data: Bytes)
    requires Decode(data).Ok?
    ensures Encodable(Decode(data).value) && Encode(Decode(data).value) == data
       <==> CanonicalEnd(data, 0) == Some(|data|)
  {
    if CanonicalEnd(data, 0) == Some(|data|) {
      CanonicalReencodes(data);
    }
    var v := Decode(data).value;
    if Encodable(v) && Encode(v) == data {
      EncodedIsCanonical(data, 0, v);
    }
  }

  lemma CanonicalReencodes(data: Bytes)
    requires CanonicalEnd(data, 0) == Some(|data|)
    ensures Decode(data).Ok? && Encodable(Decode(data).value) && Encode(Decode(data).value) == data
  {
    var w := CanonicalIsEncoded(data, 0);
    assert data[0..|data|] == data;
    RoundTrip(w);
  }

  // The number 007 where a value may stand: read as 7.
  lemma LenientNumber(data: Bytes, p: nat)
    requires At(data, p, [CHAR_I, 48, 48, 55, CHAR_E])
    ensures Reads(DecodeAt(data, p), Int(7), p + 5)
  {
    var num: Bytes := [48, 48, 55];
    assert [CHAR_I, 48, 48, 55, CHAR_E] == [CHAR_I] + num + [CHAR_E];
    IntLayout(data, p, num);
    ZeroZeroSeven();
  }

  lemma ZeroZeroSeven()
    ensures PyInt([48, 48, 55]) == Some(7)
  {
    var s: Bytes := [48, 48, 55];
    assert StripRight(StripLeft(s)) == s;
    assert s[..2] == [48, 48] && s[..2][..1] == [48];
    assert ParseNat(s[..2]) == Some(0);
    assert ParseNat(s) == Some(7);
  }

  // A dictionary the decoder takes although it is not canonical: d1:ai007ee reads
  // as {a: 7}, whose encoding is d1:ai7ee.
  lemma LenientDictionary()
    ensures var data := [CHAR_D, 49, COLON, 97, CHAR_I, 48, 48, 55, CHAR_E, CHAR_E];
      var v := Dict(map[BytesKey([97]) := Int(7)]);
      Decode(data) == Ok(v) && Encodable(v) && Encode(v) != data
  {
    var data := [CHAR_D, 49, COLON, 97, CHAR_I, 48, 48, 55, CHAR_E, CHAR_E];
    LenientRead(data, BytesKey([97]));
    NotCanonical(data);
  }

  lemma LenientRead(data: Bytes, k: Key)
    requires data == [CHAR_D, 49, COLON, 97, CHAR_I, 48, 48, 55, CHAR_E, CHAR_E] && k == BytesKey([97])
    ensures Decode(data) == Ok(Dict(map[k := Int(7)]))
  {
    OneLetter();
    DecodesString(data, 1, [97]);
    LenientNumber(data, 4);
    LastEntry(data, 9, map[k := Int(7)]);
    assert map[][k := Int(7)] == map[k := Int(7)];
    EntryStep(data, 1, map[], k, 4, Int(7), 9, map[k := Int(7)], 10);
    DictStep(data, 0, map[k := Int(7)], 10);
  }

  lemma OneLetter()
    ensures EncodeBytes([97]) == [49, COLON, 97]
  {
  }

  lemma NotCanonical(data: Bytes)
    requires data == [CHAR_D, 49, COLON, 97, CHAR_I, 48, 48, 55, CHAR_E, CHAR_E]
    ensures forall v :: Encodable(v) ==> Encode(v) != data
  {
    forall v | Encodable(v) ensures Encode(v) != data {
      if Encode(v) == data {
        EncodedIsCanonical(data, 0, v);
        LeadingZeroRefused(data);
      }
    }
  }

  lemma LeadingZeroRefused(data: Bytes)
    requires data == [CHAR_D, 49, COLON, 97, CHAR_I, 48, 48, 55, CHAR_E, CHAR_E]
    ensures CanonicalEnd(data, 0).None?
  {
    StringIsCanonical(data, 1, [97]);
    IntLayout(data, 4, [48, 48, 55]);
    assert !CanonicalInt([48, 48, 55]);
    assert CanonicalEnd(data, 4).None?;
    assert EntriesEnd(data, 1, None).None?;
  }
}
