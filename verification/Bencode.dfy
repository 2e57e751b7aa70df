// Bencoding as the tracker and torrent code use it: canonical encoding and a
// decoder that accepts everything Python's integer parser accepts.
module Bencode {
  import opened Common

  // A byte by its code. Nothing here depends on codes staying below 256.
  type Byte = int
  type Bytes = seq<Byte>

  datatype Key = IntKey(n: int) | BytesKey(b: Bytes)

  datatype Value = Bool(t: bool) | Int(n: int) | Str(b: Bytes) | List(items: seq<Value>)
      | Dict(entries: map<Key, Value>)

  const DIGIT_0: Byte := 48
  const COLON: Byte := 58
  const CHAR_D: Byte := 100
  const CHAR_E: Byte := 101
  const CHAR_I: Byte := 105
  const CHAR_L: Byte := 108
  const MINUS: Byte := 45
  const PLUS: Byte := 43
  const UNDERSCORE: Byte := 95

  predicate IsDigit(c: Byte) {
    48 <= c <= 57
  }

  predicate IsSpace(c: Byte) {
    9 <= c <= 13 || c == 32
  }

  // ----- decimal text -----

  function Digits(n: nat): (r: Bytes)
    ensures |r| >= 1 && forall i :: 0 <= i < |r| ==> IsDigit(r[i])
  {
    if n < 10 then [48 + n] else Digits(n / 10) + [48 + n % 10]
  }

  function Decimal(n: int): (r: Bytes)
    ensures |r| >= 1 && CHAR_E !in r
  {
    if n < 0 then [MINUS] + Digits(-n) else Digits(n)
  }

  // Digits with single underscores between them.
  function ParseNat(s: Bytes): (r: Option<nat>) {
    if s == [] || !IsDigit(s[|s| - 1]) then None
    else if |s| == 1 then Some(s[0] - 48)
    else
      var front := if s[|s| - 2] == UNDERSCORE then s[..|s| - 2] else s[..|s| - 1];
      var high := ParseNat(front);
      if high.None? then None else Some(10 * high.value + (s[|s| - 1] - 48))
  }

  function StripLeft(s: Bytes): Bytes {
    if s != [] && IsSpace(s[0]) then StripLeft(s[1..]) else s
  }

  function StripRight(s: Bytes): Bytes {
    if s != [] && IsSpace(s[|s| - 1]) then StripRight(s[..|s| - 1]) else s
  }

  // Python's int() on ASCII bytes: surrounding space, one sign, underscores and
  // leading zeros are all accepted.
  function PyInt(s: Bytes): Option<int> {
    var t := StripRight(StripLeft(s));
    var signed := t != [] && (t[0] == MINUS || t[0] == PLUS);
    match ParseNat(if signed then t[1..] else t)
    case None => None
    case Some(n) => var m: int := n; Some(if signed && t[0] == MINUS then -m else m)
  }

  // ----- encoding -----

  // Values the encoder accepts: no booleans, every dictionary keyed by byte strings.
  predicate Encodable(v: Value) {
    match v
    case Bool(_) => false
    case Int(_) => true
    case Str(_) => true
    case List(items) => forall i :: 0 <= i < |items| ==> Encodable(items[i])
    case Dict(entries) => forall k :: k in entries ==> k.BytesKey? && Encodable(entries[k])
  }

  // The least key of a non-empty set of byte-string keys.
  lemma {:induction false} LeastExists(keys: set<Key>) returns (least: Key)
    requires keys != {} && forall k :: k in keys ==> k.BytesKey?
    ensures least in keys && forall k :: k in keys ==> LexLeq(least.b, k.b)
    decreases |keys|
  {
    var x :| x in keys;
    LexLeqTotal(x.b, x.b);
    if keys == {x} {
      least := x;
    } else {
      var y := LeastExists(keys - {x});
      LexLeqTotal(x.b, y.b);
      least := if LexLeq(x.b, y.b) then x else y;
      forall k | k in keys ensures LexLeq(least.b, k.b) {
        if k != x && LexLeq(x.b, y.b) {
          LexLeqTransitive(x.b, y.b, k.b);
        }
      }
    }
  }

  lemma LeastUnique(keys: set<Key>, a: Key, b: Key)
    requires forall k :: k in keys ==> k.BytesKey?
    requires a in keys && (forall k :: k in keys ==> LexLeq(a.b, k.b))
    requires b in keys && (forall k :: k in keys ==> LexLeq(b.b, k.b))
    ensures a == b
  {
    LexLeqAntisymmetric(a.b, b.b);
  }

  predicate IsLeast(keys: set<Key>, a: Key) {
    a in keys && a.BytesKey? && forall k :: k in keys ==> k.BytesKey? && LexLeq(a.b, k.b)
  }

  // The keys in byte order.
  function SortedKeys(keys: set<Key>): (r: seq<Key>)
    requires forall k :: k in keys ==> k.BytesKey?
    ensures forall k :: k in r <==> k in keys
    ensures Distinct(r)
    decreases |keys|
  {
    if keys == {} then []
    else
      assert exists a :: IsLeast(keys, a) by {
        var least := LeastExists(keys);
        assert IsLeast(keys, least);
      }
      assert forall a, b :: IsLeast(keys, a) && IsLeast(keys, b) ==> a == b by {
        forall a, b | IsLeast(keys, a) && IsLeast(keys, b) ensures a == b {
          LeastUnique(keys, a, b);
        }
      }
      var least :| IsLeast(keys, least);
      [least] + SortedKeys(keys - {least})
  }

  function EncodeBytes(b: Bytes): (r: Bytes) {
    Digits(|b|) + [COLON] + b
  }

  function Encode(v: Value): (r: Bytes)
    requires Encodable(v)
    ensures |r| >= 1 && r[0] != CHAR_E
    decreases v, 1, 0
  {
    match v
    case Int(n) => [CHAR_I] + Decimal(n) + [CHAR_E]
    case Str(b) => EncodeBytes(b)
    case List(items) => [CHAR_L] + EncodeItems(v, 0) + [CHAR_E]
    case Dict(entries) => [CHAR_D] + EncodeEntries(v, SortedKeys(entries.Keys)) + [CHAR_E]
  }

  // The items of a list from position i on.
  function EncodeItems(v: Value, i: nat): (r: Bytes)
    requires v.List? && Encodable(v) && i <= |v.items|
    decreases v, 0, |v.items| - i
  {
    if i == |v.items| then [] else Encode(v.items[i]) + EncodeItems(v, i + 1)
  }

  // The entries of a dictionary in the given key order.
  function EncodeEntries(v: Value, keys: seq<Key>): (r: Bytes)
    requires v.Dict? && Encodable(v) && forall k :: k in keys ==> k in v.entries
    decreases v, 0, |keys|
  {
    if keys == [] then []
    else EncodeBytes(keys[0].b) + Encode(v.entries[keys[0]]) + EncodeEntries(v, keys[1..])
  }

  // ----- decoding -----

  datatype DecodeError = BadToken | MissingTerminator | BadNumber | UnhashableKey | TrailingBytes

  function IndexOf(data: Bytes, c: Byte, i: nat): (r: Option<nat>)
    ensures r.Some? ==> i <= r.value < |data| && data[r.value] == c
    decreases |data| - i
  {
    if i >= |data| then None
    else if data[i] == c then Some(i)
    else IndexOf(data, c, i + 1)
  }

  // data[start : start + length], clipped the way a slice is.
  function Slice(data: Bytes, start: nat, length: nat): Bytes
  {
    if start >= |data| then []
    else if start + length >= |data| then data[start..]
    else data[start..start + length]
  }

  function ToKey(v: Value): Option<Key> {
    if v.Int? then Some(IntKey(v.n)) else if v.Str? then Some(BytesKey(v.b)) else None
  }

  type Decoded<T> = Result<(T, nat), DecodeError>

  // `i`, a number, `e`.
  function IntAt(data: Bytes, i: nat): (r: Decoded<Value>)
    requires i < |data| && data[i] == CHAR_I
    ensures r.Ok? ==> r.value.1 > i
  {
    var end := IndexOf(data, CHAR_E, i);
    if end.None? then Err(MissingTerminator)
    else
      var n := PyInt(data[i + 1..end.value]);
      if n.None? then Err(BadNumber) else Ok((Int(n.value), end.value + 1))
  }

  // A length, `:`, that many bytes. A length beyond the end yields the bytes
  // there are and a position past the end.
  function StrAt(data: Bytes, i: nat): (r: Decoded<Value>)
    requires i < |data|
    ensures r.Ok? ==> r.value.1 > i
  {
    var colon := IndexOf(data, COLON, i);
    if colon.None? then Err(MissingTerminator) else StrAfter(data, colon.value, PyInt(data[i..colon.value]))
  }

  function StrAfter(data: Bytes, colon: nat, n: Option<int>): (r: Decoded<Value>)
    ensures r.Ok? ==> r.value.1 > colon
  {
    if n.None? || n.value < 0 then Err(BadNumber)
    else Ok((Str(Slice(data, colon + 1, n.value)), colon + 1 + n.value))
  }

  // The value starting at i and the position after it. Every call makes
  // progress, so decoding ends on every input.
  function DecodeAt(data: Bytes, i: nat): (r: Decoded<Value>)
    ensures r.Ok? ==> r.value.1 > i
    decreases |data| - i, 1
  {
    if i >= |data| then Err(BadToken)
    else if data[i] == CHAR_I then IntAt(data, i)
    else if data[i] == CHAR_L then
      var r := DecodeItems(data, i + 1, []);
      if r.Err? then Err(r.error) else Ok((List(r.value.0), r.value.1))
    else if data[i] == CHAR_D then
      var r := DecodeEntries(data, i + 1, map[]);
      if r.Err? then Err(r.error) else Ok((Dict(r.value.0), r.value.1))
    else if IsDigit(data[i]) then StrAt(data, i)
    else Err(BadToken)
  }

  function DecodeItems(data: Bytes, i: nat, items: seq<Value>): (r: Decoded<seq<Value>>)
    ensures r.Ok? ==> r.value.1 > i
    decreases |data| - i, 2
  {
    if i < |data| && data[i] == CHAR_E then Ok((items, i + 1))
    else
      var item := DecodeAt(data, i);
      if item.Err? then Err(item.error) else DecodeItems(data, item.value.1, items + [item.value.0])
  }

  function DecodeEntries(data: Bytes, i: nat, entries: map<Key, Value>): (r: Decoded<map<Key, Value>>)
    ensures r.Ok? ==> r.value.1 > i
    decreases |data| - i, 2
  {
    if i < |data| && data[i] == CHAR_E then Ok((entries, i + 1))
    else
      var key := DecodeAt(data, i);
      if key.Err? then Err(key.error)
      else
        var val := DecodeAt(data, key.value.1);
        if val.Err? then Err(val.error)
        else
          var k := ToKey(key.value.0);
          if k.None? then Err(UnhashableKey)
          else DecodeEntries(data, val.value.1, entries[k.value := val.value.0])
  }

  function Decode(data: Bytes): Result<Value, DecodeError> {
    var r := DecodeAt(data, 0);
    if r.Err? then Err(r.error)
    else if r.value.1 != |data| then Err(TrailingBytes)
    else Ok(r.value.0)
  }
}
