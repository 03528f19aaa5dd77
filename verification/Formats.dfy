/**
 The stored form of the governed state. `PutX(x, rest)` is x's bytes followed by `rest`; `GetX`
 reads an X off the front of a buffer, or nothing if the bytes there are not acceptable. Each PutX
 promises that GetX takes x back off; sizes are counted by SizeX.
 */
module Formats {
  import opened Words
  import opened Enums
  import opened Entities

  const MAX_STRING: nat := 0x10_0000
  const MAX_COLLECTION: nat := 0x10_0000

  datatype Got<+T> = Got(value: T, rest: seq<byte>)

  // ----- Words, flags, strings -----

  function PutU8(v: byte, rest: seq<byte>): (b: seq<byte>)
    ensures GetU8(b) == Some(Got(v, rest))
    ensures |b| == 1 + |rest|
  {
    [v] + rest
  }

  function GetU8(b: seq<byte>): (g: Option<Got<byte>>)
    ensures g.Some? ==> |b| == 1 + |g.value.rest|
  {
    if |b| < 1 then None else Some(Got(b[0], b[1..]))
  }

  function PutU32(v: u32, rest: seq<byte>): (b: seq<byte>)
    ensures GetU32(b) == Some(Got(v, rest))
    ensures |b| == 4 + |rest|
  {
    assert GetU32(LE(v, 4) + rest) == Some(Got(v, rest)) by { WordBack(v, 4, rest); }
    LE(v, 4) + rest
  }

  function GetU32(b: seq<byte>): (g: Option<Got<u32>>)
    ensures g.Some? ==> |b| == 4 + |g.value.rest|
  {
    if |b| < 4 then None
    else
      assert FromLE(b[..4]) <= U32_MAX by { Pow256Values(); }
      Some(Got(FromLE(b[..4]), b[4..]))
  }

  function PutU64(v: u64, rest: seq<byte>): (b: seq<byte>)
    ensures GetU64(b) == Some(Got(v, rest))
    ensures |b| == 8 + |rest|
  {
    assert GetU64(LE(v, 8) + rest) == Some(Got(v, rest)) by { WordBack(v, 8, rest); }
    LE(v, 8) + rest
  }

  function GetU64(b: seq<byte>): (g: Option<Got<u64>>)
    ensures g.Some? ==> |b| == 8 + |g.value.rest|
  {
    if |b| < 8 then None
    else
      assert FromLE(b[..8]) <= U64_MAX by { Pow256Values(); }
      Some(Got(FromLE(b[..8]), b[8..]))
  }

  lemma WordBack(v: nat, n: nat, rest: seq<byte>)
    requires (n == 4 && v <= U32_MAX) || (n == 8 && v <= U64_MAX)
    ensures var b := LE(v, n) + rest;
            |b| >= n && FromLE(b[..n]) == v && b[n..] == rest
  {
    hide LE, FromLE;
    Pow256Values();
    FromLEOfLE(v, n);
    assert (LE(v, n) + rest)[..n] == LE(v, n);
  }

  function PutFlag(x: bool, rest: seq<byte>): (b: seq<byte>)
    ensures GetFlag(b) == Some(Got(x, rest))
    ensures |b| == 1 + |rest|
  {
    PutU8(if x then 1 else 0, rest)
  }

  /** Any non-zero byte reads as true. */
  function GetFlag(b: seq<byte>): (g: Option<Got<bool>>)
    ensures g.Some? ==> |b| == 1 + |g.value.rest|
  {
    var v :- GetU8(b);
    Some(Got(v.value != 0, v.rest))
  }

  function PutText(s: Text, rest: seq<byte>): (b: seq<byte>)
    ensures OkText(s) ==> GetText(b) == Some(Got(s, rest))
    ensures |b| == SizeText(s) + |rest|
  {
    PutU64(|s| % TWO_64, s + rest)
  }

  function GetText(b: seq<byte>): (g: Option<Got<Text>>)
    ensures g.Some? ==> OkText(g.value.value) && |b| == SizeText(g.value.value) + |g.value.rest|
  {
    var len :- GetU64(b);
    if len.value > MAX_STRING || len.value > |len.rest| then None
    else Some(Got(len.rest[..len.value], len.rest[len.value..]))
  }

  predicate OkText(s: Text) { |s| <= MAX_STRING }

  function SizeText(s: Text): nat { 8 + |s| }

  function PutEnum<T>(all: seq<T>, n: byte, rest: seq<byte>): (b: seq<byte>)
    requires n < |all|
    ensures GetEnum(all, b) == Some(Got(all[n], rest))
    ensures |b| == 1 + |rest|
  {
    PutU8(n, rest)
  }

  /** A one-byte enumeration: the bytes below |all| are accepted. */
  function GetEnum<T>(all: seq<T>, b: seq<byte>): (g: Option<Got<T>>)
    ensures g.Some? ==> g.value.value in all && |b| == 1 + |g.value.rest|
  {
    var v :- GetU8(b);
    if v.value >= |all| then None else Some(Got(all[v.value], v.rest))
  }

  // ----- Runs, vectors and maps -----

  function Total<T>(size: T -> nat, xs: seq<T>): nat {
    if xs == [] then 0 else size(xs[0]) + Total(size, xs[1..])
  }

  function PutMany<T>(put: (T, seq<byte>) -> seq<byte>, xs: seq<T>, rest: seq<byte>): seq<byte> {
    if xs == [] then rest else put(xs[0], PutMany(put, xs[1..], rest))
  }

  function GetMany<T>(get: seq<byte> -> Option<Got<T>>, n: nat, b: seq<byte>): Option<Got<seq<T>>>
    decreases n
  {
    if n == 0 then Some(Got([], b))
    else
      var x :- get(b);
      var xs :- GetMany(get, n - 1, x.rest);
      Some(Got([x.value] + xs.value, xs.rest))
  }

  /** `get` takes back what `put` wrote, for acceptable values, and sizes are as counted. */
  ghost predicate Paired<T(!new)>(put: (T, seq<byte>) -> seq<byte>, get: seq<byte> -> Option<Got<T>>,
                                  ok: T -> bool, size: T -> nat) {
    && (forall x, rest :: |put(x, rest)| == size(x) + |rest|)
    && (forall x, rest {:trigger put(x, rest)} :: ok(x) ==> get(put(x, rest)) == Some(Got(x, rest)))
    && (forall b {:trigger get(b)} :: get(b).Some? ==>
          && ok(get(b).value.value)
          && |b| >= size(get(b).value.value) + |get(b).value.rest|)
  }

  lemma {:induction false} ManyRoundTrip<T(!new)>(put: (T, seq<byte>) -> seq<byte>, get: seq<byte> -> Option<Got<T>>,
                                                  ok: T -> bool, size: T -> nat, xs: seq<T>, rest: seq<byte>)
    requires Paired(put, get, ok, size)
    ensures |PutMany(put, xs, rest)| == Total(size, xs) + |rest|
    ensures (forall x :: x in xs ==> ok(x))
            ==> GetMany(get, |xs|, PutMany(put, xs, rest)) == Some(Got(xs, rest))
    decreases |xs|
  {
    if xs != [] {
      ManyRoundTrip(put, get, ok, size, xs[1..], rest);
      assert xs == [xs[0]] + xs[1..];
    }
  }

  lemma {:induction false} ManyShrinks<T(!new)>(put: (T, seq<byte>) -> seq<byte>, get: seq<byte> -> Option<Got<T>>,
                                                ok: T -> bool, size: T -> nat, n: nat, b: seq<byte>)
    requires Paired(put, get, ok, size)
    requires GetMany(get, n, b).Some?
    ensures var g := GetMany(get, n, b).value;
            && |g.value| == n && (forall x :: x in g.value ==> ok(x))
            && |b| >= Total(size, g.value) + |g.rest|
    decreases n
  {
    if n > 0 {
      var x := get(b).value;
      ManyShrinks(put, get, ok, size, n - 1, x.rest);
      var g := GetMany(get, n, b).value;
      assert g.value[1..] == GetMany(get, n - 1, x.rest).value.value;
    }
  }

  /** A run of 64-bit words: ids, generations, times, counters and doubles all have this form. */
  function PutWords(ws: seq<u64>, rest: seq<byte>): (b: seq<byte>)
    ensures GetWords(|ws|, b) == Some(Got(ws, rest))
    ensures |b| == 8 * |ws| + |rest|
  {
    if ws == [] then rest
    else
      assert ws == [ws[0]] + ws[1..];
      PutU64(ws[0], PutWords(ws[1..], rest))
  }

  function GetWords(n: nat, b: seq<byte>): (g: Option<Got<seq<u64>>>)
    ensures g.Some? ==> |g.value.value| == n && |b| == 8 * n + |g.value.rest|
    decreases n
  {
    if n == 0 then Some(Got([], b))
    else
      var x :- GetU64(b);
      var xs :- GetWords(n - 1, x.rest);
      Some(Got([x.value] + xs.value, xs.rest))
  }

  function PutFlags(xs: seq<bool>, rest: seq<byte>): (b: seq<byte>)
    ensures GetFlags(|xs|, b) == Some(Got(xs, rest))
    ensures |b| == |xs| + |rest|
  {
    if xs == [] then rest
    else
      assert xs == [xs[0]] + xs[1..];
      PutFlag(xs[0], PutFlags(xs[1..], rest))
  }

  function GetFlags(n: nat, b: seq<byte>): (g: Option<Got<seq<bool>>>)
    ensures g.Some? ==> |g.value.value| == n && |b| == n + |g.value.rest|
    decreases n
  {
    if n == 0 then Some(Got([], b))
    else
      var x :- GetFlag(b);
      var xs :- GetFlags(n - 1, x.rest);
      Some(Got([x.value] + xs.value, xs.rest))
  }

  function PutIds(xs: seq<u64>, rest: seq<byte>): (b: seq<byte>)
    ensures |xs| <= MAX_COLLECTION ==> GetIds(b) == Some(Got(xs, rest))
    ensures |b| == 8 + 8 * |xs| + |rest|
  {
    PutU64(|xs| % TWO_64, PutWords(xs, rest))
  }

  function GetIds(b: seq<byte>): (g: Option<Got<seq<u64>>>)
    ensures g.Some? ==> && |g.value.value| <= MAX_COLLECTION
                        && |b| == 8 + 8 * |g.value.value| + |g.value.rest|
  {
    var n :- GetU64(b);
    if n.value > MAX_COLLECTION then None else GetWords(n.value, n.rest)
  }

  function PutTexts(xs: seq<Text>, rest: seq<byte>): (b: seq<byte>)
    ensures OkTexts(xs) ==> GetTexts(b) == Some(Got(xs, rest))
    ensures |b| == SizeTexts(xs) + |rest|
  {
    TextsRoundTrip(xs, rest);
    PutU64(|xs| % TWO_64, PutMany(PutText, xs, rest))
  }

  lemma TextPaired()
    ensures Paired(PutText, GetText, OkText, SizeText)
  {
    hide PutText, GetText, OkText, SizeText;
  }

  lemma TextsRoundTrip(xs: seq<Text>, rest: seq<byte>)
    ensures var b := PutU64(|xs| % TWO_64, PutMany(PutText, xs, rest));
            && (OkTexts(xs) ==> GetTexts(b) == Some(Got(xs, rest)))
            && |b| == SizeTexts(xs) + |rest|
  {
    hide PutU64, GetU64, PutMany, GetMany, Paired, PutText, GetText, OkText, SizeText;
    TextPaired();
    ManyRoundTrip(PutText, GetText, OkText, SizeText, xs, rest);
  }

  function GetTexts(b: seq<byte>): (g: Option<Got<seq<Text>>>)
    ensures g.Some? ==> OkTexts(g.value.value) && |b| >= SizeTexts(g.value.value) + |g.value.rest|
  {
    var n :- GetU64(b);
    if n.value > MAX_COLLECTION then None
    else
      var g := GetMany(GetText, n.value, n.rest);
      assert g.Some? ==> OkTexts(g.value.value) && |b| >= SizeTexts(g.value.value) + |g.value.rest| by {
        TextPaired();
        if g.Some? { ManyShrinks(PutText, GetText, OkText, SizeText, n.value, n.rest); }
      }
      g
  }

  predicate OkTexts(xs: seq<Text>) { |xs| <= MAX_COLLECTION && forall x :: x in xs ==> OkText(x) }

  function SizeTexts(xs: seq<Text>): nat { 8 + Total(SizeText, xs) }

  // ----- Maps: entries in key order; a repeated key keeps the later value -----

  function PutEntries<T>(put: (T, seq<byte>) -> seq<byte>, m: map<u64, T>, ks: seq<u64>, rest: seq<byte>): seq<byte>
    requires forall k :: k in ks ==> k in m
  {
    if ks == [] then rest
    else PutU64(ks[0], put(m[ks[0]], PutEntries(put, m, ks[1..], rest)))
  }

  function GetEntries<T>(get: seq<byte> -> Option<Got<T>>, n: nat, b: seq<byte>, acc: map<u64,
                         T>): Option<Got<map<u64, T>>>
    decreases n
  {
    if n == 0 then Some(Got(acc, b))
    else
      var k :- GetU64(b);
      var x :- get(k.rest);
      GetEntries(get, n - 1, x.rest, acc[k.value := x.value])
  }

  function PutMap<T>(put: (T, seq<byte>) -> seq<byte>, m: map<u64, T>, rest: seq<byte>): seq<byte> {
    PutU64(|m| % TWO_64, PutEntries(put, m, SortedKeys(m.Keys), rest))
  }

  function GetMap<T>(get: seq<byte> -> Option<Got<T>>, b: seq<byte>): Option<Got<map<u64, T>>> {
    var n :- GetU64(b);
    if n.value > MAX_COLLECTION then None else GetEntries(get, n.value, n.rest, map[])
  }

  function EntrySizes<T>(size: T -> nat, m: map<u64, T>, ks: seq<u64>): nat
    requires forall k :: k in ks ==> k in m
  {
    if ks == [] then 0 else 8 + size(m[ks[0]]) + EntrySizes(size, m, ks[1..])
  }

  function SizeMap<T>(size: T -> nat, m: map<u64, T>): nat {
    8 + EntrySizes(size, m, SortedKeys(m.Keys))
  }

  predicate OkMap<T>(ok: T -> bool, m: map<u64, T>) {
    |m| <= MAX_COLLECTION && forall k :: k in m ==> ok(m[k])
  }

  /** The entries of m under ks, stored one after the other over acc. */
  function Overlay<T>(acc: map<u64, T>, m: map<u64, T>, ks: seq<u64>): map<u64, T>
    requires forall k :: k in ks ==> k in m
    decreases |ks|
  {
    if ks == [] then acc else Overlay(acc[ks[0] := m[ks[0]]], m, ks[1..])
  }

  lemma {:induction false} OverlayContents<T>(acc: map<u64, T>, m: map<u64, T>, ks: seq<u64>, k: u64)
    requires forall j :: j in ks ==> j in m
    ensures k in Overlay(acc, m, ks) <==> k in ks || k in acc
    ensures k in ks ==> Overlay(acc, m, ks)[k] == m[k]
    ensures k !in ks && k in acc ==> Overlay(acc, m, ks)[k] == acc[k]
    decreases |ks|
  {
    if ks != [] {
      assert ks == [ks[0]] + ks[1..];
      OverlayContents(acc[ks[0] := m[ks[0]]], m, ks[1..], k);
    }
  }

  lemma OverlayIsMap<T>(m: map<u64, T>, ks: seq<u64>)
    requires forall k :: k in ks <==> k in m
    ensures Overlay(map[], m, ks) == m
  {
    hide Overlay;
    forall k: u64
      ensures k in Overlay(map[], m, ks) <==> k in m
      ensures k in m ==> Overlay(map[], m, ks)[k] == m[k]
    {
      OverlayContents(map[], m, ks, k);
    }
  }

  lemma {:induction false} EntriesRoundTrip<T(!new)>(
    put: (T, seq<byte>) -> seq<byte>, get: seq<byte> -> Option<Got<T>>, ok: T -> bool, size: T -> nat,
    m: map<u64, T>, ks: seq<u64>, rest: seq<byte>, acc: map<u64, T>)
    requires Paired(put, get, ok, size)
    requires forall k :: k in ks ==> k in m
    ensures |PutEntries(put, m, ks, rest)| == EntrySizes(size, m, ks) + |rest|
    ensures (forall k :: k in ks ==> ok(m[k]))
            ==> GetEntries(get, |ks|, PutEntries(put, m, ks, rest), acc)
                == Some(Got(Overlay(acc, m, ks), rest))
    decreases |ks|
  {
    hide PutU64, GetU64;
    if ks != [] {
      EntriesRoundTrip(put, get, ok, size, m, ks[1..], rest, acc[ks[0] := m[ks[0]]]);
      assert ks == [ks[0]] + ks[1..];
    }
  }

  lemma MapRoundTrip<T(!new)>(put: (T, seq<byte>) -> seq<byte>, get: seq<byte> -> Option<Got<T>>,
                              ok: T -> bool, size: T -> nat, m: map<u64, T>, rest: seq<byte>)
    requires Paired(put, get, ok, size)
    ensures |PutMap(put, m, rest)| == SizeMap(size, m) + |rest|
    ensures OkMap(ok, m) ==> GetMap(get, PutMap(put, m, rest)) == Some(Got(m, rest))
  {
    hide PutU64, GetU64, PutEntries, GetEntries, EntrySizes, Paired, SortedKeys, Overlay;
    var ks := SortedKeys(m.Keys);
    var e := PutEntries(put, m, ks, rest);
    EntriesRoundTrip(put, get, ok, size, m, ks, rest, map[]);
    OverlayIsMap(m, ks);
    assert |ks| == |m|;
    if OkMap(ok, m) {
      assert GetU64(PutU64(|m|, e)) == Some(Got(|m|, e));
    }
  }

  ghost predicate Distinct(ks: seq<u64>) {
    forall i, j :: 0 <= i < j < |ks| ==> ks[i] != ks[j]
  }

  lemma {:induction false} EntrySizesWithout<T>(size: T -> nat, m: map<u64, T>, ks: seq<u64>, p: nat)
    requires p < |ks| && forall k :: k in ks ==> k in m
    ensures EntrySizes(size, m, ks) == EntrySizes(size, m, ks[..p] + ks[p + 1..]) + 8 + size(m[ks[p]])
    decreases p
  {
    if p == 0 {
      assert ks[..0] + ks[1..] == ks[1..];
    } else {
      EntrySizesWithout(size, m, ks[1..], p - 1);
      var less := ks[..p] + ks[p + 1..];
      assert less[0] == ks[0] && less[1..] == ks[1..][..p - 1] + ks[1..][p..];
      assert ks[1..][p - 1] == ks[p];
    }
  }

  /** Listing fewer keys takes no more space, whatever the orders. */
  lemma {:induction false} EntrySizesSubset<T>(size: T -> nat, m: map<u64, T>, js: seq<u64>, ks: seq<u64>)
    requires Distinct(js) && (forall j :: j in js ==> j in ks) && forall k :: k in ks ==> k in m
    ensures EntrySizes(size, m, js) <= EntrySizes(size, m, ks)
    decreases |js|
  {
    if js != [] {
      assert js[0] in ks;
      var p :| 0 <= p < |ks| && ks[p] == js[0];
      var less := ks[..p] + ks[p + 1..];
      EntrySizesWithout(size, m, ks, p);
      forall j | j in js[1..]
        ensures j in less
      {
        var i :| 0 <= i < |js[1..]| && js[1..][i] == j;
        assert js[0] != js[i + 1] && js[i + 1] in ks;
        var q :| 0 <= q < |ks| && ks[q] == j;
        assert less[if q < p then q else q - 1] == j;
      }
      EntrySizesSubset(size, m, js[1..], less);
    }
  }

  lemma {:induction false} EntrySizesAgree<T>(size: T -> nat, m: map<u64, T>, n: map<u64, T>, ks: seq<u64>)
    requires forall k :: k in ks ==> k in m && k in n && m[k] == n[k]
    ensures EntrySizes(size, m, ks) == EntrySizes(size, n, ks)
    decreases |ks|
  {
    if ks != [] { EntrySizesAgree(size, m, n, ks[1..]); }
  }

  /** Storing a value under a key adds at most its own entry, also when the key was there already. */
  lemma EntrySizesInsert<T>(size: T -> nat, m: map<u64, T>, k: u64, x: T, js: seq<u64>, ks: seq<u64>)
    requires Distinct(js) && (forall j :: j in js ==> j in m[k := x])
    requires forall j :: j in ks <==> j in m
    ensures EntrySizes(size, m[k := x], js) <= EntrySizes(size, m, ks) + 8 + size(x)
  {
    var n := m[k := x];
    if k in js {
      var p :| 0 <= p < |js| && js[p] == k;
      var less := js[..p] + js[p + 1..];
      EntrySizesWithout(size, n, js, p);
      assert k !in less by {
        forall q | 0 <= q < |less|
          ensures less[q] != k
        {
          assert less[q] == js[if q < p then q else q + 1];
        }
      }
      assert forall j :: j in less ==> j in js;
      EntrySizesAgree(size, n, m, less);
      EntrySizesSubset(size, m, less, ks);
    } else {
      EntrySizesAgree(size, n, m, js);
      EntrySizesSubset(size, m, js, ks);
    }
  }

  lemma {:induction false} EntriesShrink<T(!new)>(
    put: (T, seq<byte>) -> seq<byte>, get: seq<byte> -> Option<Got<T>>, ok: T -> bool, size: T -> nat,
    n: nat, b: seq<byte>, acc: map<u64, T>)
    requires Paired(put, get, ok, size)
    requires GetEntries(get, n, b, acc).Some? && forall k :: k in acc ==> ok(acc[k])
    ensures var g := GetEntries(get, n, b, acc).value;
            && |g.value| <= |acc| + n && (forall k :: k in g.value ==> ok(g.value[k]))
            && |b| + SizeMap(size, acc) >= SizeMap(size, g.value) + |g.rest|
    decreases n
  {
    hide GetU64, EntrySizes, SortedKeys;
    if n > 0 {
      var k := GetU64(b).value;
      var x := get(k.rest).value;
      var acc1 := acc[k.value := x.value];
      assert acc1.Keys == acc.Keys + {k.value};
      EntrySizesInsert(size, acc, k.value, x.value, SortedKeys(acc1.Keys), SortedKeys(acc.Keys));
      EntriesShrink(put, get, ok, size, n - 1, x.rest, acc1);
    }
  }

  lemma MapShrinks<T(!new)>(put: (T, seq<byte>) -> seq<byte>, get: seq<byte> -> Option<Got<T>>,
                            ok: T -> bool, size: T -> nat, b: seq<byte>)
    requires Paired(put, get, ok, size)
    requires GetMap(get, b).Some?
    ensures var g := GetMap(get, b).value;
            OkMap(ok, g.value) && |b| >= SizeMap(size, g.value) + |g.rest|
  {
    var n := GetU64(b).value;
    EntriesShrink(put, get, ok, size, n.value, n.rest, map[]);
  }
}
