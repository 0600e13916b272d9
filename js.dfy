/**
 * The fragment of JavaScript value semantics the front end relies on:
 * parsed JSON values, truthiness, property access, string conversion,
 * ASCII `toLowerCase`, `String.prototype.includes` and `Array.prototype.filter`.
 */
module Js {
  import opened Wrappers

  /** A value as JSON.parse produces it or as a page holds it (numbers are integers here). */
  datatype Json =
    | JNull
    | JBool(b: bool)
    | JNum(n: int)
    | JStr(s: string)
    | JObj(fields: map<string, Json>)

  /** The abstract JSON codec: `parse` answers None where JSON.parse throws. */
  datatype Codec = Codec(parse: string -> Option<Json>, stringify: Json -> string)

  /** `JSON.parse(text)` through the codec. */
  function Parse(c: Codec, text: string): Option<Json>
  {
    c.parse(text)
  }

  /** `JSON.stringify(j)` through the codec. */
  function Stringify(c: Codec, j: Json): string
  {
    c.stringify(j)
  }

  /** JavaScript truthiness of a value. */
  predicate Truthy(j: Json)
  {
    match j
    case JNull => false
    case JBool(b) => b
    case JNum(n) => n != 0
    case JStr(s) => s != ""
    case JObj(_) => true
  }

  /** Truthiness of a value that may be `undefined` (None). */
  predicate TruthyOpt(v: Option<Json>)
  {
    v.Some? && Truthy(v.value)
  }

  /** `j?.key`: the field of an object; `undefined` for a missing key or a non-object. */
  function Prop(j: Json, key: string): (v: Option<Json>)
    ensures v.Some? <==> j.JObj? && key in j.fields
    ensures v.Some? ==> v.value == j.fields[key]
  {
    if j.JObj? && key in j.fields then Some(j.fields[key]) else None
  }

  /** `v || fallback` for a value that may be `undefined`. */
  function OrElse(v: Option<Json>, fallback: Json): (r: Json)
    ensures TruthyOpt(v) ==> r == v.value
    ensures !TruthyOpt(v) ==> r == fallback
  {
    if TruthyOpt(v) then v.value else fallback
  }

  /** An object whose every field is a string, such as a form record. */
  function ObjOf(m: map<string, string>): (j: Json)
    ensures j.JObj? && j.fields.Keys == m.Keys
    ensures forall k :: k in m ==> j.fields[k] == JStr(m[k])
  {
    JObj(map k | k in m :: JStr(m[k]))
  }

  function Digit(d: nat): (c: char)
    requires d < 10
    ensures '0' <= c <= '9'
  {
    (48 + d) as char
  }

  /** Decimal notation of a natural number. */
  function NatToDecimal(n: nat): (r: string)
    ensures |r| >= 1
    ensures forall i :: 0 <= i < |r| ==> '0' <= r[i] <= '9'
  {
    if n < 10 then [Digit(n)] else NatToDecimal(n / 10) + [Digit(n % 10)]
  }

  /** Decimal notation of an integer, with a leading minus sign when negative. */
  function IntToDecimal(n: int): (r: string)
    ensures |r| >= 1
    ensures r[0] == '-' <==> n < 0
    ensures forall i :: 0 < i < |r| ==> '0' <= r[i] <= '9'
  {
    if n < 0 then "-" + NatToDecimal(-n) else NatToDecimal(n)
  }

  /** `String(j)`, which is also what a template literal `${j}` inserts. */
  function Str(j: Json): (r: string)
    ensures Truthy(j) ==> r != ""
    ensures j.JStr? ==> r == j.s
  {
    match j
    case JNull => "null"
    case JBool(b) => if b then "true" else "false"
    case JNum(n) => IntToDecimal(n)
    case JStr(s) => s
    case JObj(_) => "[object Object]"
  }

  /** `String(v)` for a value that may be `undefined`. */
  function StrOpt(v: Option<Json>): string
  {
    if v.None? then "undefined" else Str(v.value)
  }

  /** The fields `{...j}` copies: an object's own fields, a string's indexed characters, nothing otherwise. */
  function Spread(j: Json): map<string, Json>
  {
    match j
    case JObj(m) => m
    case JStr(s) => Indexed(s, |s|)
    case _ => map[]
  }

  function Indexed(s: string, n: nat): map<string, Json>
    requires n <= |s|
  {
    if n == 0 then map[] else Indexed(s, n - 1)[NatToDecimal(n - 1) := JStr([s[n - 1]])]
  }

  /** `{...base, ...over}` where `over` is a record of fields. */
  function Merge(base: Json, over: map<string, Json>): (r: Json)
    ensures r.JObj? && r.fields.Keys == Spread(base).Keys + over.Keys
    ensures forall k :: k in over ==> r.fields[k] == over[k]
    ensures forall k :: k in Spread(base) && k !in over ==> r.fields[k] == Spread(base)[k]
  {
    JObj(Spread(base) + over)
  }

  /** ASCII lower-casing of one character. */
  function LowerChar(c: char): (r: char)
    ensures !('A' <= r <= 'Z')
    ensures !('A' <= c <= 'Z') ==> r == c
  {
    if 'A' <= c <= 'Z' then (c as int + 32) as char else c
  }

  /** `s.toLowerCase()` over ASCII letters. */
  function ToLower(s: string): (r: string)
    ensures |r| == |s|
    ensures forall i :: 0 <= i < |s| ==> r[i] == LowerChar(s[i])
  {
    if s == [] then [] else [LowerChar(s[0])] + ToLower(s[1..])
  }

  /** `s.includes(t)`: a left-to-right search for `t` in `s`. */
  predicate Includes(s: string, t: string)
    decreases |s|
  {
    |t| <= |s| && (s[..|t|] == t || Includes(s[1..], t))
  }

  /** `t` occurs in `s` starting at index `i`. */
  ghost predicate OccursAt(s: string, t: string, i: int)
  {
    0 <= i && i + |t| <= |s| && s[i..i + |t|] == t
  }

  /** The search finds `t` exactly when `t` occurs somewhere in `s`. */
  lemma {:induction false} IncludesIff(s: string, t: string)
    ensures Includes(s, t) <==> exists i :: OccursAt(s, t, i)
    decreases |s|
  {
    if Includes(s, t) {
      if s[..|t|] == t {
        assert OccursAt(s, t, 0);
      } else {
        IncludesIff(s[1..], t);
        var i :| OccursAt(s[1..], t, i);
        assert s[1..][i..i + |t|] == s[i + 1..i + 1 + |t|];
        assert OccursAt(s, t, i + 1);
      }
    }
    if exists i :: OccursAt(s, t, i) {
      var i :| OccursAt(s, t, i);
      if i > 0 {
        assert s[1..][i - 1..i - 1 + |t|] == s[i..i + |t|];
        assert OccursAt(s[1..], t, i - 1);
        IncludesIff(s[1..], t);
      }
    }
  }

  /** Every string includes the empty string. */
  lemma IncludesEmpty(s: string)
    ensures Includes(s, "")
  {
  }

  /** `xs.filter(keep)`. */
  function Filter<T>(xs: seq<T>, keep: T -> bool): (r: seq<T>)
    ensures |r| <= |xs|
    ensures forall x :: x in r ==> x in xs && keep(x)
  {
    if xs == [] then []
    else (if keep(xs[0]) then [xs[0]] else []) + Filter(xs[1..], keep)
  }

  /** `ix` lists, in increasing order, the positions of `xs` that `r` was taken from. */
  ghost predicate Embeds<T>(r: seq<T>, xs: seq<T>, ix: seq<int>)
  {
    && |ix| == |r|
    && (forall i :: 0 <= i < |ix| ==> 0 <= ix[i] < |xs| && r[i] == xs[ix[i]])
    && (forall i, j :: 0 <= i < j < |ix| ==> ix[i] < ix[j])
  }

  /** An order-preserving sub-sequence. */
  ghost predicate IsSubsequence<T>(r: seq<T>, xs: seq<T>)
  {
    exists ix :: Embeds(r, xs, ix)
  }

  function Shift(ix: seq<int>): (r: seq<int>)
    ensures |r| == |ix| && forall i :: 0 <= i < |ix| ==> r[i] == ix[i] + 1
  {
    seq(|ix|, i requires 0 <= i < |ix| => ix[i] + 1)
  }

  /** Positions into the tail of a list are positions into the list, one further on. */
  lemma EmbedsInTail<T>(r: seq<T>, xs: seq<T>, ix: seq<int>)
    requires xs != [] && Embeds(r, xs[1..], ix)
    ensures Embeds(r, xs, Shift(ix))
    ensures Embeds([xs[0]] + r, xs, [0] + Shift(ix))
  {
    var jx := [0] + Shift(ix);
    var r' := [xs[0]] + r;
    forall i | 0 <= i < |jx|
      ensures 0 <= jx[i] < |xs| && r'[i] == xs[jx[i]]
    {
      if i > 0 {
        assert jx[i] == ix[i - 1] + 1 && r'[i] == r[i - 1];
      }
    }
  }

  /** The filtered list keeps the elements that pass in their original order. */
  lemma {:induction false} FilterIsSubsequence<T>(xs: seq<T>, keep: T -> bool)
    ensures IsSubsequence(Filter(xs, keep), xs)
  {
    if xs == [] {
      assert Embeds<T>([], xs, []);
    } else {
      FilterIsSubsequence(xs[1..], keep);
      var rest := Filter(xs[1..], keep);
      var ix :| Embeds(rest, xs[1..], ix);
      EmbedsInTail(rest, xs, ix);
      if keep(xs[0]) {
        assert Embeds(Filter(xs, keep), xs, [0] + Shift(ix));
      } else {
        assert Embeds(Filter(xs, keep), xs, Shift(ix));
      }
    }
  }

  /** An element survives the filter exactly when it is in the list and passes. */
  lemma {:induction false} FilterMembership<T>(xs: seq<T>, keep: T -> bool, x: T)
    ensures x in Filter(xs, keep) <==> x in xs && keep(x)
  {
    if xs != [] {
      FilterMembership(xs[1..], keep, x);
      assert xs == [xs[0]] + xs[1..];
    }
  }

  /** When every element passes, the filter returns the list unchanged. */
  lemma {:induction false} FilterKeepsAll<T>(xs: seq<T>, keep: T -> bool)
    requires forall i :: 0 <= i < |xs| ==> keep(xs[i])
    ensures Filter(xs, keep) == xs
  {
    if xs != [] {
      FilterKeepsAll(xs[1..], keep);
      assert [xs[0]] + xs[1..] == xs;
    }
  }
}
