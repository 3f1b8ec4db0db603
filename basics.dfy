/** Values shared by the output plugin, the input plugin and the Parquet
    compressor: failure-carrying results, the JSON/Ruby value model used for
    records and notification bodies, Ruby's Integer#to_s for naturals and
    ASCII String#upcase. */
module Basics {

  datatype Option<+T> = None | Some(value: T)

  datatype Result<+T, +E> = Success(value: T) | Failure(error: E)
  {
    predicate IsFailure() { Failure? }

    function PropagateFailure<U>(): Result<U, E>
      requires Failure?
    {
      Failure(error)
    }

    function Extract(): T
      requires Success?
    {
      value
    }
  }

  /** The result of an operation that only succeeds or raises. */
  datatype Outcome<+E> = Pass | Fail(error: E)

  /** A value as Yajl parses it from JSON, or as a Ruby Hash record holds it;
      JNull is Ruby's nil. A JObj is a map, so the key order of a nested Hash
      is not kept; only a top-level record is ordered, by the Hash below. */
  datatype Json =
    | JNull
    | JBool(b: bool)
    | JNum(n: int)
    | JStr(s: string)
    | JArr(items: seq<Json>)
    | JObj(fields: map<string, Json>)

  /** A value stored in an SDK options hash: a string, a symbol (`to_sym`) or a boolean. */
  datatype OptionValue = Str(s: string) | Sym(name: string) | Flag(b: bool)

  /** Ruby truthiness, with nil read as JNull: only nil and false are falsy. */
  predicate Truthy(v: Json)
  {
    v != JNull && v != JBool(false)
  }

  // ---------------------------------------------------------------------
  // A Ruby Hash with String keys, which keeps its keys in insertion order

  /** The keys of the entries, in order. */
  function Keys(h: seq<(string, Json)>): (ks: seq<string>)
    ensures |ks| == |h| && forall k :: 0 <= k < |h| ==> ks[k] == h[k].0
  {
    if h == [] then [] else [h[0].0] + Keys(h[1..])
  }

  /** `h[key]`: the value of the entry with that key, None standing for nil. */
  function HashGet(h: seq<(string, Json)>, key: string): (r: Option<Json>)
    ensures r.Some? <==> key in Keys(h)
  {
    if h == [] then None else if h[0].0 == key then Some(h[0].1) else HashGet(h[1..], key)
  }

  /** `h[key] = value`. */
  function HashPut(h: seq<(string, Json)>, key: string, value: Json): seq<(string, Json)>
  {
    if h == [] then [(key, value)]
    else if h[0].0 == key then [(key, value)] + h[1..]
    else [h[0]] + HashPut(h[1..], key, value)
  }

  /** Storing under a key the Hash holds keeps that key in its place; a new
      key is appended after all others. The key then reads the stored value
      and every other key reads what it read before. */
  lemma {:induction false} HashPutSpec(h: seq<(string, Json)>, key: string, value: Json)
    ensures Keys(HashPut(h, key, value)) == if key in Keys(h) then Keys(h) else Keys(h) + [key]
    ensures HashGet(HashPut(h, key, value), key) == Some(value)
    ensures forall other :: other != key ==> HashGet(HashPut(h, key, value), other) == HashGet(h, other)
  {
    if h != [] {
      assert Keys(h) == [h[0].0] + Keys(h[1..]);
      if h[0].0 != key {
        HashPutSpec(h[1..], key, value);
        assert key in Keys(h) <==> key in Keys(h[1..]);
        assert Keys(HashPut(h, key, value)) == [h[0].0] + Keys(HashPut(h[1..], key, value));
      } else {
        assert Keys(HashPut(h, key, value)) == [key] + Keys(h[1..]);
      }
    }
  }

  /** No key occurs twice, as in every Ruby Hash. */
  predicate DistinctKeys(h: seq<(string, Json)>)
  {
    forall i, j :: 0 <= i < j < |h| ==> h[i].0 != h[j].0
  }

  /** `h[key] = value` keeps the keys of a Hash distinct. */
  lemma HashPutKeepsDistinct(h: seq<(string, Json)>, key: string, value: Json)
    requires DistinctKeys(h)
    ensures DistinctKeys(HashPut(h, key, value))
  {
    HashPutSpec(h, key, value);
    var r := HashPut(h, key, value);
    forall i, j | 0 <= i < j < |r|
      ensures r[i].0 != r[j].0
    {
      assert Keys(r)[i] == r[i].0 && Keys(r)[j] == r[j].0;
      if key !in Keys(h) && j == |h| {
        assert Keys(h)[i] == h[i].0;
      } else {
        assert Keys(h)[i] == h[i].0 && Keys(h)[j] == h[j].0;
      }
    }
  }

  // ---------------------------------------------------------------------
  // Integer#to_s for non-negative integers, and its inverse

  function DigitChar(d: nat): (c: char)
    requires d < 10
    ensures '0' <= c <= '9'
  {
    (('0' as int) + d) as char
  }

  function DigitValue(c: char): nat
  {
    if '0' <= c <= '9' then c as int - '0' as int else 0
  }

  /** Ruby's `n.to_s` for n >= 0: the shortest decimal numeral of n. */
  function NatToString(n: nat): (s: string)
    ensures 1 <= |s|
    ensures forall k :: 0 <= k < |s| ==> '0' <= s[k] <= '9'
    ensures |s| > 1 ==> s[0] != '0'
    decreases n
  {
    if n < 10 then [DigitChar(n)] else NatToString(n / 10) + [DigitChar(n % 10)]
  }

  /** Reads a string of decimal digits back as a number. */
  function ParseDecimal(s: string): nat
  {
    if s == [] then 0 else ParseDecimal(s[..|s| - 1]) * 10 + DigitValue(s[|s| - 1])
  }

  lemma {:induction false} ParseNatToString(n: nat)
    ensures ParseDecimal(NatToString(n)) == n
    decreases n
  {
    if n >= 10 {
      var s := NatToString(n);
      assert s[..|s| - 1] == NatToString(n / 10);
      ParseNatToString(n / 10);
    }
  }

  /** Distinct numbers have distinct numerals. */
  lemma NatToStringInjective(i: nat, j: nat)
    ensures NatToString(i) == NatToString(j) <==> i == j
  {
    if NatToString(i) == NatToString(j) {
      ParseNatToString(i);
      ParseNatToString(j);
    }
  }

  // ---------------------------------------------------------------------
  // String#upcase on ASCII text

  function UpcaseChar(c: char): char
  {
    if 'a' <= c <= 'z' then (c as int - 32) as char else c
  }

  /** Ruby's String#upcase, restricted to the ASCII letters the model feeds it. */
  function Upcase(s: string): (r: string)
    ensures |r| == |s|
    ensures forall k :: 0 <= k < |s| ==> r[k] == UpcaseChar(s[k])
  {
    if s == [] then [] else [UpcaseChar(s[0])] + Upcase(s[1..])
  }
}
