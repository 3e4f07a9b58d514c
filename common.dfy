/** Values, JavaScript truthiness and ASCII text rules shared by every part of the model. */
module Common {

  datatype Option<+T> = None | Some(value: T) {
    function GetOr(default: T): T {
      match this
      case Some(v) => v
      case None => default
    }
  }

  /** A JSON value as the handlers and pages see it after `JSON.parse` or a database read.
      An object is kept in serialized normal form: a key whose value would be `undefined`
      is simply absent. */
  datatype Json =
    | JNull
    | JBool(b: bool)
    | JNum(n: real)
    | JStr(s: string)
    | JArr(items: seq<Json>)
    | JObj(fields: map<string, Json>)

  type JsonObject = map<string, Json>

  /** JavaScript truthiness of a JSON value (NaN is not a JSON value). */
  predicate Truthy(j: Json) {
    match j
    case JNull => false
    case JBool(b) => b
    case JNum(n) => n != 0.0
    case JStr(s) => s != ""
    case JArr(_) => true
    case JObj(_) => true
  }

  /** Truthiness of a property that may be `undefined` (None). */
  predicate OptTruthy(j: Option<Json>) {
    j.Some? && Truthy(j.value)
  }

  /** `obj.key`, where a missing key reads as `undefined`. */
  function Get(o: JsonObject, key: string): (r: Option<Json>)
    ensures r.Some? <==> key in o
    ensures key in o ==> r == Some(o[key])
  {
    if key in o then Some(o[key]) else None
  }

  /** `obj?.key` on a value that may not be an object: anything but an object reads as `undefined`. */
  function GetPath(j: Option<Json>, key: string): (r: Option<Json>)
    ensures r.Some? <==> j.Some? && j.value.JObj? && key in j.value.fields
    ensures r.Some? ==> r.value == j.value.fields[key]
  {
    if j.Some? && j.value.JObj? then Get(j.value.fields, key) else None
  }

  /** `a || b` on two possibly-undefined values. */
  function Or(a: Option<Json>, b: Option<Json>): (r: Option<Json>)
    ensures OptTruthy(a) ==> r == a
    ensures !OptTruthy(a) ==> r == b
  {
    if OptTruthy(a) then a else b
  }

  /** `a ?? b`: only `undefined` and `null` fall through, so an explicit `false` is kept. */
  function Coalesce(a: Option<Json>, b: Json): (r: Json)
    ensures a.Some? && a.value != JNull ==> r == a.value
    ensures a == None || a == Some(JNull) ==> r == b
  {
    if a.Some? && a.value != JNull then a.value else b
  }

  /** A string-valued field that may be null or undefined (both None). */
  predicate StrTruthy(s: Option<string>) {
    s.Some? && s.value != ""
  }

  /** `a || b` on optional strings. */
  function StrOr(a: Option<string>, b: Option<string>): (r: Option<string>)
    ensures StrTruthy(a) ==> r == a
    ensures !StrTruthy(a) ==> r == b
  {
    if StrTruthy(a) then a else b
  }

  /** `s || ''`. */
  function StrOrEmpty(s: Option<string>): (r: string)
    ensures StrTruthy(s) ==> r == s.value
    ensures !StrTruthy(s) ==> r == ""
  {
    if StrTruthy(s) then s.value else ""
  }

  // ---------------------------------------------------------------------------
  // Order-preserving filter (Array.prototype.filter)

  function Filter<T>(s: seq<T>, keep: T -> bool): (r: seq<T>)
    ensures |r| <= |s|
  {
    if s == [] then [] else (if keep(s[0]) then [s[0]] else []) + Filter(s[1..], keep)
  }

  lemma {:induction false} FilterMembership<T>(s: seq<T>, keep: T -> bool, x: T)
    ensures x in Filter(s, keep) <==> x in s && keep(x)
  {
    if s != [] {
      FilterMembership(s[1..], keep, x);
      assert s == [s[0]] + s[1..];
    }
  }

  /** Filtering a concatenation filters each part and keeps their order. */
  lemma {:induction false} FilterAppend<T>(a: seq<T>, b: seq<T>, keep: T -> bool)
    ensures Filter(a + b, keep) == Filter(a, keep) + Filter(b, keep)
  {
    if a == [] {
      assert a + b == b;
    } else {
      var head: seq<T> := if keep(a[0]) then [a[0]] else [];
      assert (a + b)[0] == a[0];
      assert (a + b)[1..] == a[1..] + b;
      FilterAppend(a[1..], b, keep);
      calc {
        Filter(a + b, keep);
        head + Filter(a[1..] + b, keep);
        head + (Filter(a[1..], keep) + Filter(b, keep));
        (head + Filter(a[1..], keep)) + Filter(b, keep);
      }
    }
  }

  /** A filter that keeps every element changes nothing. */
  lemma {:induction false} FilterKeepsAll<T>(s: seq<T>, keep: T -> bool)
    requires forall i :: 0 <= i < |s| ==> keep(s[i])
    ensures Filter(s, keep) == s
  {
    if s != [] {
      FilterKeepsAll(s[1..], keep);
    }
  }

  /** Every element of a filtered sequence satisfies the filter. */
  lemma {:induction false} FilterAllKept<T>(s: seq<T>, keep: T -> bool)
    ensures forall i :: 0 <= i < |Filter(s, keep)| ==> keep(Filter(s, keep)[i])
  {
    if s != [] {
      FilterAllKept(s[1..], keep);
    }
  }

  lemma FilterIdempotent<T>(s: seq<T>, keep: T -> bool)
    ensures Filter(Filter(s, keep), keep) == Filter(s, keep)
  {
    FilterAllKept(s, keep);
    FilterKeepsAll(Filter(s, keep), keep);
  }

  // ---------------------------------------------------------------------------
  // ASCII characters

  predicate IsDigit(c: char) { '0' <= c <= '9' }
  predicate IsLowerAscii(c: char) { 'a' <= c <= 'z' }
  predicate IsUpperAscii(c: char) { 'A' <= c <= 'Z' }

  /** The whitespace class `\s`, restricted to ASCII. */
  predicate IsSpace(c: char) {
    c == ' ' || c == '\t' || c == '\n' || c == '\r' || c == '\U{000B}' || c == '\U{000C}'
  }

  function ToLowerChar(c: char): (r: char)
    ensures IsUpperAscii(c) ==> IsLowerAscii(r) && r as int == c as int + 32
    ensures !IsUpperAscii(c) ==> r == c
  {
    if IsUpperAscii(c) then (c as int - 'A' as int + 'a' as int) as char else c
  }

  function ToUpperChar(c: char): (r: char)
    ensures IsLowerAscii(c) ==> IsUpperAscii(r) && r as int == c as int - 32
    ensures !IsLowerAscii(c) ==> r == c
  {
    if IsLowerAscii(c) then (c as int - 'a' as int + 'A' as int) as char else c
  }

  /** `toLowerCase()`, on the ASCII letters. */
  function ToLower(s: string): (r: string)
    ensures |r| == |s|
    ensures forall i :: 0 <= i < |s| ==> r[i] == ToLowerChar(s[i])
    ensures forall i :: 0 <= i < |s| ==> !IsUpperAscii(r[i])
    ensures forall i :: 0 <= i < |s| ==> (IsSpace(r[i]) <==> IsSpace(s[i]))
  {
    seq(|s|, i requires 0 <= i < |s| => ToLowerChar(s[i]))
  }

  /** `toUpperCase()`, on the ASCII letters. */
  function ToUpper(s: string): (r: string)
    ensures |r| == |s|
    ensures forall i :: 0 <= i < |s| ==> r[i] == ToUpperChar(s[i])
    ensures forall i :: 0 <= i < |s| ==> !IsLowerAscii(r[i])
  {
    seq(|s|, i requires 0 <= i < |s| => ToUpperChar(s[i]))
  }

  lemma ToLowerIdentity(s: string)
    requires forall i :: 0 <= i < |s| ==> !IsUpperAscii(s[i])
    ensures ToLower(s) == s
  {
  }

  predicate NoSpace(s: string) {
    forall i :: 0 <= i < |s| ==> !IsSpace(s[i])
  }

  predicate AllSpace(s: string) {
    forall i :: 0 <= i < |s| ==> IsSpace(s[i])
  }

  /** Drops the leading run of whitespace. */
  function DropSpaces(s: string): (r: string)
    ensures |r| <= |s|
    ensures r == [] || !IsSpace(r[0])
    ensures r == s[|s| - |r|..]
  {
    if s != [] && IsSpace(s[0]) then DropSpaces(s[1..]) else s
  }

  /** `replace(/\s+/g, '-')`: every maximal run of whitespace becomes one '-'. */
  function DashSpaces(s: string): (r: string)
    ensures r == [] <==> s == []
    decreases |s|
  {
    if s == [] then []
    else if IsSpace(s[0]) then "-" + DashSpaces(DropSpaces(s[1..]))
    else [s[0]] + DashSpaces(s[1..])
  }

  lemma {:induction false} DashSpacesNoSpace(s: string)
    ensures NoSpace(DashSpaces(s))
    decreases |s|
  {
    if s != [] {
      if IsSpace(s[0]) {
        DashSpacesNoSpace(DropSpaces(s[1..]));
      } else {
        DashSpacesNoSpace(s[1..]);
      }
    }
  }

  predicate NoUpper(s: string) {
    forall i :: 0 <= i < |s| ==> !IsUpperAscii(s[i])
  }

  lemma NoUpperConcat(a: string, b: string)
    requires NoUpper(a) && NoUpper(b)
    ensures NoUpper(a + b)
  {
    forall i | 0 <= i < |a + b| ensures !IsUpperAscii((a + b)[i]) {
      if i >= |a| {
        assert (a + b)[i] == b[i - |a|];
      }
    }
  }

  /** Only '-' is introduced, so a string without upper-case letters keeps none. */
  lemma {:induction false} DashSpacesNoUpper(s: string)
    requires NoUpper(s)
    ensures NoUpper(DashSpaces(s))
    decreases |s|
  {
    if s != [] {
      if IsSpace(s[0]) {
        var rest := DropSpaces(s[1..]);
        assert rest == s[|s| - |rest|..];
        assert NoUpper(rest) by {
          forall i | 0 <= i < |rest| ensures !IsUpperAscii(rest[i]) {
            assert rest[i] == s[|s| - |rest| + i];
          }
        }
        DashSpacesNoUpper(rest);
        NoUpperConcat("-", DashSpaces(rest));
      } else {
        assert NoUpper(s[1..]) by {
          forall i | 0 <= i < |s[1..]| ensures !IsUpperAscii(s[1..][i]) {
            assert s[1..][i] == s[i + 1];
          }
        }
        DashSpacesNoUpper(s[1..]);
        NoUpperConcat([s[0]], DashSpaces(s[1..]));
      }
    }
  }

  /** `name.toLowerCase().replace(/\s+/g, '-')`: no whitespace, no upper-case letters, and
      empty only for the empty name. */
  function NameSlug(name: string): (r: string)
    ensures NoSpace(r) && NoUpper(r)
    ensures r == "" <==> name == ""
  {
    var lower := ToLower(name);
    DashSpacesNoSpace(lower);
    DashSpacesNoUpper(lower);
    DashSpaces(lower)
  }

  /** A word without whitespace is copied as it is, and the rest is processed after it. */
  lemma {:induction false} DashSpacesWord(a: string, b: string)
    requires NoSpace(a)
    ensures DashSpaces(a + b) == a + DashSpaces(b)
    decreases |a|
  {
    if a != [] {
      assert (a + b)[0] == a[0] && (a + b)[1..] == a[1..] + b;
      DashSpacesWord(a[1..], b);
      assert a == [a[0]] + a[1..];
    } else {
      assert a + b == b;
    }
  }

  /** A run of whitespace is dropped up to the first character that is not whitespace. */
  lemma {:induction false} DropSpacesRun(w: string, b: string)
    requires AllSpace(w)
    requires b == [] || !IsSpace(b[0])
    ensures DropSpaces(w + b) == b
    decreases |w|
  {
    if w != [] {
      assert (w + b)[0] == w[0] && (w + b)[1..] == w[1..] + b;
      AllSpaceTail(w);
      DropSpacesRun(w[1..], b);
    } else {
      assert w + b == b;
    }
  }

  /** A word, then a maximal run of whitespace: the word, one '-', then the rest. */
  lemma {:induction false} DashSpacesRun(a: string, w: string, b: string)
    requires NoSpace(a)
    requires w != [] && AllSpace(w)
    requires b == [] || !IsSpace(b[0])
    ensures DashSpaces(a + w + b) == a + "-" + DashSpaces(b)
  {
    assert a + w + b == a + (w + b);
    DashSpacesWord(a, w + b);
    DashSpacesSpaceRun(w, b);
    assert a + ("-" + DashSpaces(b)) == a + "-" + DashSpaces(b);
  }

  /** A maximal run of whitespace becomes a single '-'. */
  lemma {:induction false} DashSpacesSpaceRun(w: string, b: string)
    requires w != [] && AllSpace(w)
    requires b == [] || !IsSpace(b[0])
    ensures DashSpaces(w + b) == "-" + DashSpaces(b)
  {
    var rest := w + b;
    assert rest[0] == w[0] && rest[1..] == w[1..] + b;
    AllSpaceTail(w);
    DropSpacesRun(w[1..], b);
    DashSpacesAtSpace(rest);
  }

  lemma AllSpaceTail(w: string)
    requires w != [] && AllSpace(w)
    ensures IsSpace(w[0]) && AllSpace(w[1..])
  {
  }

  lemma {:induction false} DashSpacesAtSpace(s: string)
    requires s != [] && IsSpace(s[0])
    ensures DashSpaces(s) == "-" + DashSpaces(DropSpaces(s[1..]))
  {
  }

  /** The slug of "first  last" is the lower-cased first word, one '-', and the slug of the rest. */
  lemma {:induction false} NameSlugRun(a: string, w: string, b: string)
    requires NoSpace(a)
    requires w != [] && AllSpace(w)
    requires b == [] || !IsSpace(b[0])
    ensures NameSlug(a + w + b) == ToLower(a) + "-" + NameSlug(b)
  {
    var la, lw, lb := ToLower(a), ToLower(w), ToLower(b);
    assert ToLower(a + w + b) == la + lw + lb;
    DashSpacesRun(la, lw, lb);
  }

  /** A string with no whitespace is left alone. */
  lemma {:induction false} DashSpacesIdentity(s: string)
    requires NoSpace(s)
    ensures DashSpaces(s) == s
  {
    if s != [] {
      DashSpacesIdentity(s[1..]);
    }
  }

  // ---------------------------------------------------------------------------
  // `s.split(c)` and `parts.join(c)`

  /** Everything before the first `c` (`s.split(c)[0]`). */
  function TakeUntil(s: string, c: char): (r: string)
    ensures c !in r
    ensures r <= s
    ensures |r| < |s| ==> s[|r|] == c
  {
    if s == [] || s[0] == c then [] else [s[0]] + TakeUntil(s[1..], c)
  }

  function Split(s: string, c: char): (r: seq<string>)
    ensures |r| >= 1
  {
    if s == [] then [""]
    else if s[0] == c then [""] + Split(s[1..], c)
    else var rest := Split(s[1..], c); [[s[0]] + rest[0]] + rest[1..]
  }

  function Join(parts: seq<string>, c: char): string {
    if |parts| == 0 then ""
    else if |parts| == 1 then parts[0]
    else parts[0] + [c] + Join(parts[1..], c)
  }

  /** Splitting and re-joining on the same separator gives back the string. */
  lemma {:induction false} JoinSplit(s: string, c: char)
    ensures Join(Split(s, c), c) == s
  {
    if s != [] {
      JoinSplit(s[1..], c);
      var rest := Split(s[1..], c);
      if s[0] != c {
        assert Split(s, c)[1..] == rest[1..];
        if |rest| == 1 {
          assert Join(Split(s, c), c) == [s[0]] + rest[0];
        } else {
          assert rest == [rest[0]] + rest[1..];
          assert Join(rest, c) == rest[0] + [c] + Join(rest[1..], c);
        }
      } else {
        assert Split(s, c)[1..] == rest;
      }
      assert s == [s[0]] + s[1..];
    }
  }

  /** A string without the separator splits into itself alone. */
  lemma {:induction false} SplitWithoutSeparator(s: string, c: char)
    requires c !in s
    ensures Split(s, c) == [s]
  {
    if s != [] {
      assert s[0] != c && c !in s[1..];
      SplitWithoutSeparator(s[1..], c);
      assert [s[0]] + s[1..] == s;
    }
  }

  lemma {:induction false} SplitHead(s: string, c: char)
    ensures Split(s, c)[0] == TakeUntil(s, c)
  {
    if s != [] && s[0] != c {
      SplitHead(s[1..], c);
    }
  }

  /** No part of a split contains the separator. */
  lemma {:induction false} SplitPartsFree(s: string, c: char)
    ensures forall i :: 0 <= i < |Split(s, c)| ==> c !in Split(s, c)[i]
  {
    if s != [] {
      SplitPartsFree(s[1..], c);
      var rest := Split(s[1..], c);
      if s[0] != c {
        assert forall i :: 1 <= i < |Split(s, c)| ==> Split(s, c)[i] == rest[i];
      } else {
        assert forall i :: 1 <= i < |Split(s, c)| ==> Split(s, c)[i] == rest[i - 1];
      }
    }
  }

  // ---------------------------------------------------------------------------
  // Decimal rendering of a natural number (`String(n)`)

  function DigitChar(d: nat): (c: char)
    requires d < 10
    ensures IsDigit(c)
  {
    ('0' as int + d) as char
  }

  function DigitValue(c: char): nat {
    if IsDigit(c) then c as int - '0' as int else 0
  }

  function NatToString(n: nat): (r: string)
    ensures |r| >= 1
    ensures forall i :: 0 <= i < |r| ==> IsDigit(r[i])
  {
    if n < 10 then [DigitChar(n)] else NatToString(n / 10) + [DigitChar(n % 10)]
  }

  function ParseNat(s: string): nat {
    if s == [] then 0 else ParseNat(s[..|s| - 1]) * 10 + DigitValue(s[|s| - 1])
  }

  lemma {:induction false} ParseNatToString(n: nat)
    ensures ParseNat(NatToString(n)) == n
  {
    if n >= 10 {
      var r := NatToString(n);
      assert r[..|r| - 1] == NatToString(n / 10);
      ParseNatToString(n / 10);
    }
  }

  lemma NatToStringInjective(m: nat, n: nat)
    requires NatToString(m) == NatToString(n)
    ensures m == n
  {
    ParseNatToString(m);
    ParseNatToString(n);
  }
}
