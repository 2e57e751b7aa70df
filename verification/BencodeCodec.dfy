// The codec as it works: encoding appends to one shared buffer, decoding moves
// an index through the data. Both are proved against the functions.
module BencodeCodec {
  import opened Common
  import opened Bencode
  import opened BencodeRoundTrip

  class ByteBuffer {
    var data: Bytes

    constructor ()
      ensures data == []
    {
      data := [];
    }

    method Append(b: Bytes)
      modifies this
      ensures data == old(data) + b
    {
      data := data + b;
    }
  }

  // Refuses booleans and dictionaries with a key that is not a byte string.
  method EncodeInto(v: Value, buf: ByteBuffer) returns (ok: bool)
    modifies buf
    ensures ok == Encodable(v)
    ensures ok ==> buf.data == old(buf.data) + Encode(v)
    decreases v, 1
  {
    match v
    case Bool(_) => ok := false;
    case Int(n) =>
      buf.Append([CHAR_I] + Decimal(n) + [CHAR_E]);
      ok := true;
    case Str(b) =>
      buf.Append(EncodeBytes(b));
      ok := true;
    case List(items) =>
      ok := ItemsInto(v, buf);
    case Dict(entries) =>
      ok := EntriesInto(v, buf);
  }

  ghost function Join(pieces: seq<Bytes>): Bytes {
    if pieces == [] then [] else pieces[0] + Join(pieces[1..])
  }

  lemma {:induction false} JoinOneMore(pieces: seq<Bytes>, x: Bytes)
    ensures Join(pieces + [x]) == Join(pieces) + x
  {
    if pieces == [] {
      assert Join([x]) == x + Join([x][1..]) == x;
    } else {
      JoinOneMore(pieces[1..], x);
      assert (pieces + [x])[1..] == pieces[1..] + [x];
    }
  }

  // What has been appended so far, piece by piece, after the opening byte.
  ghost predicate Appended(start: Bytes, open: Byte, pieces: seq<Bytes>, data: Bytes) {
    data == start + ([open] + Join(pieces))
  }

  lemma AppendedOneMore(start: Bytes, open: Byte, pieces: seq<Bytes>, data: Bytes, x: Bytes)
    requires Appended(start, open, pieces, data)
    ensures Appended(start, open, pieces + [x], data + x)
  {
    JoinOneMore(pieces, x);
  }

  ghost predicate ItemPieces(v: Value, pieces: seq<Bytes>)
    requires v.List?
  {
    |pieces| <= |v.items| && forall i :: 0 <= i < |pieces| ==> Encodable(v.items[i]) && pieces[i] == Encode(v.items[i])
  }

  lemma {:induction false} ItemsJoin(v: Value, pieces: seq<Bytes>, k: nat)
    requires v.List? && Encodable(v) && ItemPieces(v, pieces) && |pieces| == |v.items| && k <= |v.items|
    ensures EncodeItems(v, k) == Join(pieces[k..])
    decreases |v.items| - k
  {
    if k < |v.items| {
      ItemsJoin(v, pieces, k + 1);
    }
  }

  lemma ListWhole(v: Value, start: Bytes, pieces: seq<Bytes>, data: Bytes)
    requires v.List? && ItemPieces(v, pieces) && |pieces| == |v.items| && Appended(start, CHAR_L, pieces, data)
    ensures Encodable(v) && data + [CHAR_E] == start + Encode(v)
  {
    ItemsJoin(v, pieces, 0);
    assert pieces[0..] == pieces;
    ListText(v);
  }

  method ItemsInto(v: Value, buf: ByteBuffer) returns (ok: bool)
    requires v.List?
    modifies buf
    ensures ok == Encodable(v)
    ensures ok ==> buf.data == old(buf.data) + Encode(v)
    decreases v, 0
  {
    ghost var start := buf.data;
    ghost var pieces: seq<Bytes> := [];
    buf.Append([CHAR_L]);
    for n := 0 to |v.items|
      invariant |pieces| == n && ItemPieces(v, pieces) && Appended(start, CHAR_L, pieces, buf.data)
    {
      ghost var before := buf.data;
      ok := EncodeInto(v.items[n], buf);
      if !ok {
        return;
      }
      AppendedOneMore(start, CHAR_L, pieces, before, Encode(v.items[n]));
      pieces := pieces + [Encode(v.items[n])];
    }
    ListWhole(v, start, pieces, buf.data);
    buf.Append([CHAR_E]);
    ok := true;
  }

  predicate EntryEncodable(v: Value, k: Key)
    requires v.Dict?
  {
    k.BytesKey? && k in v.entries && Encodable(v.entries[k])
  }

  ghost function EntryText(v: Value, k: Key): Bytes
    requires v.Dict? && EntryEncodable(v, k)
  {
    EncodeBytes(k.b) + Encode(v.entries[k])
  }

  ghost predicate EntryPieces(v: Value, keys: seq<Key>, pieces: seq<Bytes>)
    requires v.Dict?
  {
    |pieces| <= |keys| && forall i :: 0 <= i < |pieces| ==>
        EntryEncodable(v, keys[i]) && pieces[i] == EntryText(v, keys[i])
  }

  lemma {:induction false} EntriesJoin(v: Value, keys: seq<Key>, pieces: seq<Bytes>)
    requires v.Dict? && Encodable(v) && (forall k :: k in keys ==> k in v.entries)
    requires EntryPieces(v, keys, pieces) && |pieces| == |keys|
    ensures EncodeEntries(v, keys) == Join(pieces)
    decreases |keys|
  {
    if keys != [] {
      assert pieces[0] == EntryText(v, keys[0]);
      assert forall i :: 0 <= i < |pieces[1..]| ==> pieces[1..][i] == pieces[i + 1] && keys[1..][i] == keys[i + 1];
      EntriesJoin(v, keys[1..], pieces[1..]);
    }
  }

  lemma DictWhole(v: Value, keys: seq<Key>, start: Bytes, pieces: seq<Bytes>, data: Bytes)
    requires v.Dict? && (forall k :: k in v.entries ==> k.BytesKey?) && keys == SortedKeys(v.entries.Keys)
    requires EntryPieces(v, keys, pieces) && |pieces| == |keys| && Appended(start, CHAR_D, pieces, data)
    ensures Encodable(v) && data + [CHAR_E] == start + Encode(v)
  {
    forall k | k in v.entries ensures EntryEncodable(v, k) {
      assert k in keys;
    }
    EntriesJoin(v, keys, pieces);
    DictText(v);
  }

  // Append the entry of keys[n] to the n entries before it.
  method EntryInto(v: Value, keys: seq<Key>, n: nat, ghost start: Bytes, ghost pieces: seq<Bytes>, buf: ByteBuffer)
    returns (ok: bool, ghost more: seq<Bytes>)
    requires v.Dict? && n < |keys| && keys[n] in v.entries && keys[n].BytesKey?
    requires |pieces| == n && EntryPieces(v, keys, pieces) && Appended(start, CHAR_D, pieces, buf.data)
    modifies buf
    ensures ok == EntryEncodable(v, keys[n])
    ensures ok ==> |more| == n + 1 && EntryPieces(v, keys, more) && Appended(start, CHAR_D, more, buf.data)
    decreases v, 0, 0
  {
    more := pieces;
    ghost var before := buf.data;
    buf.Append(EncodeBytes(keys[n].b));
    ok := EncodeInto(v.entries[keys[n]], buf);
    if ok {
      more := EntryAdded(v, keys, n, start, pieces, before, buf.data);
    }
  }

  lemma PiecesOneMore(v: Value, keys: seq<Key>, n: nat, pieces: seq<Bytes>, text: Bytes)
    requires v.Dict? && n < |keys| && EntryEncodable(v, keys[n]) && |pieces| == n && EntryPieces(v, keys, pieces)
    requires text == EntryText(v, keys[n])
    ensures EntryPieces(v, keys, pieces + [text])
  {
  }

  lemma EntryAdded(v: Value, keys: seq<Key>, n: nat, start: Bytes, pieces: seq<Bytes>, before: Bytes, data: Bytes)
    returns (more: seq<Bytes>)
    requires v.Dict? && n < |keys| && EntryEncodable(v, keys[n])
    requires |pieces| == n && EntryPieces(v, keys, pieces) && Appended(start, CHAR_D, pieces, before)
    requires data == before + EncodeBytes(keys[n].b) + Encode(v.entries[keys[n]])
    ensures |more| == n + 1 && EntryPieces(v, keys, more) && Appended(start, CHAR_D, more, data)
  {
    var name, body := EncodeBytes(keys[n].b), Encode(v.entries[keys[n]]);
    var text := EntryText(v, keys[n]);
    more := pieces + [text];
    Regrouped(before, name, body);
    AppendedOneMore(start, CHAR_D, pieces, before, text);
    PiecesOneMore(v, keys, n, pieces, text);
  }

  lemma Regrouped(a: Bytes, b: Bytes, c: Bytes)
    ensures a + b + c == a + (b + c)
  {
  }

  method EntriesInto(v: Value, buf: ByteBuffer) returns (ok: bool)
    requires v.Dict?
    modifies buf
    ensures ok == Encodable(v)
    ensures ok ==> buf.data == old(buf.data) + Encode(v)
    decreases v, 0, 1
  {
    ghost var start := buf.data;
    buf.Append([CHAR_D]);
    if exists k :: k in v.entries && !k.BytesKey? {
      return false;
    }
    var keys := SortedKeys(v.entries.Keys);
    ghost var pieces: seq<Bytes> := [];
    for n := 0 to |keys|
      invariant |pieces| == n && EntryPieces(v, keys, pieces) && Appended(start, CHAR_D, pieces, buf.data)
    {
      assert keys[n] in keys;
      ok, pieces := EntryInto(v, keys, n, start, pieces, buf);
      if !ok {
        return;
      }
    }
    DictWhole(v, keys, start, pieces, buf.data);
    buf.Append([CHAR_E]);
    ok := true;
  }

  method EncodeValue(v: Value) returns (r: Option<Bytes>)
    ensures r.Some? <==> Encodable(v)
    ensures r.Some? ==> r.value == Encode(v)
  {
    var buf := new ByteBuffer();
    var ok := EncodeInto(v, buf);
    r := if ok then Some(buf.data) else None;
  }

  method Find(data: Bytes, c: Byte, start: nat) returns (r: Option<nat>)
    ensures r == IndexOf(data, c, start)
  {
    var k := start;
    while k < |data| && data[k] != c
      invariant IndexOf(data, c, start) == IndexOf(data, c, k)
      decreases |data| - k
    {
      k := k + 1;
    }
    r := if k < |data| then Some(k) else None;
  }

  method ReadValue(data: Bytes, i: nat) returns (r: Decoded<Value>)
    ensures r == DecodeAt(data, i)
    decreases |data| - i, 1
  {
    if i >= |data| {
      return Err(BadToken);
    }
    if data[i] == CHAR_I {
      var end := Find(data, CHAR_E, i);
      if end.None? {
        return Err(MissingTerminator);
      }
      var n := PyInt(data[i + 1..end.value]);
      return if n.None? then Err(BadNumber) else Ok((Int(n.value), end.value + 1));
    }
    if data[i] == CHAR_L {
      r := ReadList(data, i);
      return;
    }
    if data[i] == CHAR_D {
      r := ReadDict(data, i);
      return;
    }
    if IsDigit(data[i]) {
      var colon := Find(data, COLON, i);
      if colon.None? {
        return Err(MissingTerminator);
      }
      var n := PyInt(data[i..colon.value]);
      if n.None? || n.value < 0 {
        return Err(BadNumber);
      }
      return Ok((Str(Slice(data, colon.value + 1, n.value)), colon.value + 1 + n.value));
    }
    return Err(BadToken);
  }

  method ReadList(data: Bytes, start: nat) returns (r: Decoded<Value>)
    requires start < |data| && data[start] == CHAR_L
    ensures r == DecodeAt(data, start)
    decreases |data| - start, 0
  {
    var i, items := start + 1, [];
    while !(i < |data| && data[i] == CHAR_E)
      invariant i > start && DecodeItems(data, start + 1, []) == DecodeItems(data, i, items)
      decreases |data| - i
    {
      var item := ReadValue(data, i);
      if item.Err? {
        return Err(item.error);
      }
      items := items + [item.value.0];
      i := item.value.1;
    }
    return Ok((List(items), i + 1));
  }

  method ReadDict(data: Bytes, start: nat) returns (r: Decoded<Value>)
    requires start < |data| && data[start] == CHAR_D
    ensures r == DecodeAt(data, start)
    decreases |data| - start, 0
  {
    var i: nat, entries: map<Key, Value> := start + 1, map[];
    while !(i < |data| && data[i] == CHAR_E)
      invariant i > start && DecodeEntries(data, start + 1, map[]) == DecodeEntries(data, i, entries)
      decreases |data| - i
    {
      var key := ReadValue(data, i);
      if key.Err? {
        return Err(key.error);
      }
      var val := ReadValue(data, key.value.1);
      if val.Err? {
        return Err(val.error);
      }
      var k := ToKey(key.value.0);
      if k.None? {
        return Err(UnhashableKey);
      }
      entries := entries[k.value := val.value.0];
      i := val.value.1;
    }
    return Ok((Dict(entries), i + 1));
  }

  method DecodeValue(data: Bytes) returns (r: Result<Value, DecodeError>)
    ensures r == Decode(data)
  {
    var v := ReadValue(data, 0);
    if v.Err? {
      return Err(v.error);
    }
    return if v.value.1 != |data| then Err(TrailingBytes) else Ok(v.value.0);
  }
}
