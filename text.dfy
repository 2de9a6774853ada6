/**
 * The string operations of Python's `str` that the core relies on:
 * strip, replace of one character, split on one character, `in`,
 * `startswith`/`endswith`, `lower` on ASCII letters, `str(int)` and `int(str)`.
 */
module Text {

  import opened Wrappers

  /** The characters `str.isspace()` accepts, which are exactly those `str.strip()` removes. */
  predicate IsSpace(c: char) {
    c == ' ' || ('\t' <= c <= '\r') || ('\U{001C}' <= c <= '\U{001F}')
    || c == '\U{0085}' || c == '\U{00A0}' || c == '\U{1680}'
    || ('\U{2000}' <= c <= '\U{200A}') || c == '\U{2028}' || c == '\U{2029}'
    || c == '\U{202F}' || c == '\U{205F}' || c == '\U{3000}'
  }

  // ---------------------------------------------------------------- trimming

  /** The characters `strip(chars)` removes. */
  predicate Dropped(chars: Option<string>, c: char) {
    if chars.None? then IsSpace(c) else c in chars.value
  }

  function TrimStart(s: string, chars: Option<string>): (r: string)
    ensures |r| <= |s| && r == s[|s| - |r|..]
  {
    if |s| > 0 && Dropped(chars, s[0]) then TrimStart(s[1..], chars) else s
  }

  function TrimEnd(s: string, chars: Option<string>): (r: string)
    ensures |r| <= |s| && r == s[..|r|]
  {
    if |s| > 0 && Dropped(chars, s[|s| - 1]) then TrimEnd(s[..|s| - 1], chars) else s
  }

  /** `s.strip(chars)`: drop every leading and trailing character in `chars`, or every
      white-space character when `chars` is None. */
  function Trim(s: string, chars: Option<string>): string {
    TrimEnd(TrimStart(s, chars), chars)
  }

  /** `s.strip()` */
  function Strip(s: string): string {
    Trim(s, None)
  }

  predicate AllDropped(s: string, chars: Option<string>) {
    forall i :: 0 <= i < |s| ==> Dropped(chars, s[i])
  }

  lemma {:induction false} TrimStartEmpty(s: string, chars: Option<string>)
    ensures TrimStart(s, chars) == [] <==> AllDropped(s, chars)
  {
    if |s| > 0 && Dropped(chars, s[0]) {
      TrimStartEmpty(s[1..], chars);
      assert AllDropped(s[1..], chars) ==> AllDropped(s, chars) by {
        if AllDropped(s[1..], chars) {
          forall i | 0 <= i < |s| ensures Dropped(chars, s[i]) {
            if i > 0 { assert s[i] == s[1..][i - 1]; }
          }
        }
      }
    }
  }

  lemma {:induction false} TrimEndEmpty(s: string, chars: Option<string>)
    ensures TrimEnd(s, chars) == [] <==> AllDropped(s, chars)
  {
    if |s| > 0 && Dropped(chars, s[|s| - 1]) {
      TrimEndEmpty(s[..|s| - 1], chars);
      assert AllDropped(s[..|s| - 1], chars) ==> AllDropped(s, chars) by {
        if AllDropped(s[..|s| - 1], chars) {
          forall i | 0 <= i < |s| ensures Dropped(chars, s[i]) {
            if i < |s| - 1 { assert s[i] == s[..|s| - 1][i]; }
          }
        }
      }
    }
  }

  /** A stripped string is empty exactly when every character of the input is dropped. */
  lemma TrimEmptyIffAllDropped(s: string, chars: Option<string>)
    ensures Trim(s, chars) == [] <==> AllDropped(s, chars)
  {
    var t := TrimStart(s, chars);
    TrimStartEmpty(s, chars);
    TrimEndEmpty(t, chars);
    TrimStartFirst(s, chars);
    assert AllDropped(t, chars) ==> t == [] by {
      if t != [] { assert !Dropped(chars, t[0]); }
    }
  }

  /** Stripping removes exactly a run of dropped characters at each end: the result is the
      slice `s[i..j]`, and every character before `i` and from `j` on is dropped. */
  lemma TrimCutsDropped(s: string, chars: Option<string>) returns (i: nat, j: nat)
    ensures i <= j <= |s| && Trim(s, chars) == s[i..j] && CutAt(s, chars, i, j)
  {
    var t := TrimStart(s, chars);
    var r := TrimEnd(t, chars);
    i, j := |s| - |t|, |s| - |t| + |r|;
    assert Trim(s, chars) == s[i..j] by {
      TrimSlice(s, chars);
    }
    TrimStartDrops(s, chars);
    TrimTailDrops(s, chars);
  }

  /** `s.strip(c)` for one character `c`: a slice of `s` with only `c` before and after it,
      and no `c` at either of its own ends. */
  lemma TrimCharCuts(s: string, c: char) returns (i: nat, j: nat)
    ensures i <= j <= |s| && Trim(s, Some([c])) == s[i..j]
    ensures forall k :: 0 <= k < i ==> s[k] == c
    ensures forall k :: j <= k < |s| ==> s[k] == c
    ensures var r := Trim(s, Some([c])); |r| > 0 ==> r[0] != c && r[|r| - 1] != c
  {
    i, j := TrimCutsDropped(s, Some([c]));
    TrimEnds(s, Some([c]));
    forall k | 0 <= k < i ensures s[k] == c {
      assert Dropped(Some([c]), s[k]);
    }
    forall k | j <= k < |s| ensures s[k] == c {
      assert Dropped(Some([c]), s[k]);
    }
  }

  /** Every character after the stripped string is dropped. */
  lemma TrimTailDrops(s: string, chars: Option<string>)
    ensures var t := TrimStart(s, chars);
      forall k :: |s| - |t| + |Trim(s, chars)| <= k < |s| ==> Dropped(chars, s[k])
  {
    var t := TrimStart(s, chars);
    var i := |s| - |t|;
    TrimEndDrops(t, chars);
    forall k | i + |Trim(s, chars)| <= k < |s| ensures Dropped(chars, s[k]) {
      assert s[k] == t[k - i];
    }
  }

  /** Every character of `s` before `i` and from `j` on is dropped. */
  predicate CutAt(s: string, chars: Option<string>, i: nat, j: nat)
    requires i <= j <= |s|
  {
    (forall k :: 0 <= k < i ==> Dropped(chars, s[k])) && (forall k :: j <= k < |s| ==> Dropped(chars, s[k]))
  }

  lemma {:induction false} TrimStartDrops(s: string, chars: Option<string>)
    ensures forall k :: 0 <= k < |s| - |TrimStart(s, chars)| ==> Dropped(chars, s[k])
  {
    if |s| > 0 && Dropped(chars, s[0]) {
      TrimStartDrops(s[1..], chars);
      forall k | 0 < k < |s| - |TrimStart(s, chars)| ensures Dropped(chars, s[k]) {
        assert s[k] == s[1..][k - 1];
      }
    }
  }

  lemma {:induction false} TrimEndDrops(s: string, chars: Option<string>)
    ensures forall k :: |TrimEnd(s, chars)| <= k < |s| ==> Dropped(chars, s[k])
  {
    if |s| > 0 && Dropped(chars, s[|s| - 1]) {
      TrimEndDrops(s[..|s| - 1], chars);
      forall k | |TrimEnd(s, chars)| <= k < |s| - 1 ensures Dropped(chars, s[k]) {
        assert s[k] == s[..|s| - 1][k];
      }
    }
  }

  /** The stripped string is the slice between the two trimmed ends. */
  lemma TrimSlice(s: string, chars: Option<string>)
    ensures var t := TrimStart(s, chars); var r := TrimEnd(t, chars);
      Trim(s, chars) == s[|s| - |t|..|s| - |t| + |r|]
  {
    var t := TrimStart(s, chars);
    var r := TrimEnd(t, chars);
    var i := |s| - |t|;
    assert r == t[..|r|] && t == s[i..];
  }

  /** Neither end of a stripped string is a dropped character. */
  lemma TrimEnds(s: string, chars: Option<string>)
    ensures var r := Trim(s, chars); r == [] || (!Dropped(chars, r[0]) && !Dropped(chars, r[|r| - 1]))
  {
    var t := TrimStart(s, chars);
    var r := TrimEnd(t, chars);
    TrimStartFirst(s, chars);
    TrimEndLast(t, chars);
    if r != [] {
      assert r[0] == t[0];
    }
  }

  lemma {:induction false} TrimStartFirst(s: string, chars: Option<string>)
    ensures var t := TrimStart(s, chars); t == [] || !Dropped(chars, t[0])
  {
    if |s| > 0 && Dropped(chars, s[0]) { TrimStartFirst(s[1..], chars); }
  }

  lemma {:induction false} TrimEndLast(s: string, chars: Option<string>)
    ensures var t := TrimEnd(s, chars); t == [] || !Dropped(chars, t[|t| - 1])
  {
    if |s| > 0 && Dropped(chars, s[|s| - 1]) { TrimEndLast(s[..|s| - 1], chars); }
  }

  /** A string whose two ends are kept is its own strip. */
  lemma TrimKeeps(s: string, chars: Option<string>)
    requires s == [] || (!Dropped(chars, s[0]) && !Dropped(chars, s[|s| - 1]))
    ensures Trim(s, chars) == s
  {
  }

  // ---------------------------------------------------------------- search

  predicate StartsWith(s: string, prefix: string) {
    |prefix| <= |s| && s[..|prefix|] == prefix
  }

  predicate EndsWith(s: string, suffix: string) {
    |suffix| <= |s| && s[|s| - |suffix|..] == suffix
  }

  /** `sub in s` */
  predicate Contains(s: string, sub: string)
    decreases |s|
  {
    StartsWith(s, sub) || (|s| > 0 && Contains(s[1..], sub))
  }

  lemma {:induction false} ContainsAt(s: string, sub: string, k: nat)
    requires k + |sub| <= |s| && s[k..k + |sub|] == sub
    ensures Contains(s, sub)
    decreases k
  {
    if k > 0 {
      assert s[1..][k - 1..k - 1 + |sub|] == sub;
      ContainsAt(s[1..], sub, k - 1);
    }
  }

  // ---------------------------------------------------------------- mapping

  /** `s.replace(c, repl)` for a one-character pattern `c`. */
  function ReplaceChar(s: string, c: char, repl: string): (r: string)
    ensures c !in s ==> r == s
  {
    if s == [] then []
    else (if s[0] == c then repl else [s[0]]) + ReplaceChar(s[1..], c, repl)
  }

  lemma {:induction false} ReplaceCharAppend(a: string, b: string, c: char, repl: string)
    ensures ReplaceChar(a + b, c, repl) == ReplaceChar(a, c, repl) + ReplaceChar(b, c, repl)
  {
    if a != [] {
      var x := if a[0] == c then repl else [a[0]];
      assert (a + b)[0] == a[0] && (a + b)[1..] == a[1..] + b;
      ReplaceCharAppend(a[1..], b, c, repl);
      assert ReplaceChar(a + b, c, repl) == x + ReplaceChar(a[1..] + b, c, repl);
      SeqAssoc(x, ReplaceChar(a[1..], c, repl), ReplaceChar(b, c, repl));
    } else {
      assert a + b == b;
    }
  }

  lemma SeqAssoc<T>(x: seq<T>, y: seq<T>, z: seq<T>)
    ensures x + (y + z) == (x + y) + z
  {
  }


  /** A character other than the replaced one occurs in the result exactly when it occurs
      in the input, or the replaced one occurs and the replacement holds it. */
  lemma {:induction false} ReplaceCharIn(s: string, c: char, repl: string, d: char)
    requires d != c
    ensures d in ReplaceChar(s, c, repl) <==> d in s || (c in s && d in repl)
  {
    if s != [] {
      ReplaceCharIn(s[1..], c, repl, d);
      assert s == [s[0]] + s[1..];
    }
  }

  /** The replaced character is gone when the replacement does not hold it. */
  lemma {:induction false} ReplaceCharRemoves(s: string, c: char, repl: string)
    requires c !in repl
    ensures c !in ReplaceChar(s, c, repl)
  {
    if s != [] {
      ReplaceCharRemoves(s[1..], c, repl);
    }
  }

  function LowerAscii(c: char): char {
    if 'A' <= c <= 'Z' then (c as int + 32) as char else c
  }

  /** `s.lower()`, restricted to the ASCII letters. */
  function Lower(s: string): (r: string)
    ensures |r| == |s| && forall i :: 0 <= i < |s| ==> r[i] == LowerAscii(s[i])
  {
    seq(|s|, i requires 0 <= i < |s| => LowerAscii(s[i]))
  }

  // ---------------------------------------------------------------- split

  /** `s.split(c)`: the pieces between occurrences of `c`, always at least one. */
  function Split(s: string, c: char): (r: seq<string>)
    ensures |r| >= 1
    ensures forall k :: 0 <= k < |r| ==> c !in r[k]
  {
    if s == [] then [""]
    else
      var rest := Split(s[1..], c);
      if s[0] == c then [""] + rest
      else [[s[0]] + rest[0]] + rest[1..]
  }

  function Count(s: string, c: char): nat {
    if s == [] then 0 else (if s[0] == c then 1 else 0) + Count(s[1..], c)
  }

  /** There is one more piece than there are separators. */
  lemma {:induction false} SplitCount(s: string, c: char)
    ensures |Split(s, c)| == Count(s, c) + 1
  {
    if s != [] { SplitCount(s[1..], c); }
  }

  /** Splitting text without `c` yields that text alone. */
  lemma {:induction false} SplitNone(s: string, c: char)
    requires c !in s
    ensures Split(s, c) == [s]
  {
    if s != [] {
      NotInTail(s, c);
      SplitNone(s[1..], c);
      assert s == [s[0]] + s[1..];
    }
  }

  /** Splitting `a + [c] + b` yields the pieces of `a` followed by those of `b`, the last
      piece of `a`'s split and the first of `b`'s kept apart. */
  lemma {:induction false} SplitJoin(a: string, b: string, c: char)
    requires c !in a && c !in b
    ensures Split(a + [c] + b, c) == [a, b]
  {
    if a == [] {
      assert a + [c] + b == [c] + b;
      assert ([c] + b)[1..] == b;
      SplitNone(b, c);
    } else {
      NotInTail(a, c);
      assert (a + [c] + b)[0] == a[0];
      assert (a + [c] + b)[1..] == a[1..] + [c] + b;
      SplitJoin(a[1..], b, c);
      assert a == [a[0]] + a[1..];
    }
  }

  /** A piece without the separator, then the separator, splits off as the first piece. */
  lemma {:induction false} SplitCons(a: string, b: string, c: char)
    requires c !in a
    ensures Split(a + [c] + b, c) == [a] + Split(b, c)
  {
    if a == [] {
      assert a + [c] + b == [c] + b;
      assert ([c] + b)[1..] == b;
    } else {
      NotInTail(a, c);
      assert (a + [c] + b)[0] == a[0];
      assert (a + [c] + b)[1..] == a[1..] + [c] + b;
      SplitCons(a[1..], b, c);
      assert a == [a[0]] + a[1..];
    }
  }

  lemma NotInTail(s: string, c: char)
    requires |s| > 0 && c !in s
    ensures s[0] != c && c !in s[1..]
  {
  }

  /** The position of the last `c` in `s` (`s.rfind(c)`), None when there is none. */
  function LastIndex(s: string, c: char): (r: Option<nat>)
    ensures r.Some? ==> r.value < |s| && s[r.value] == c
  {
    if s == [] then None
    else if s[|s| - 1] == c then Some(|s| - 1)
    else LastIndex(s[..|s| - 1], c)
  }

  lemma {:induction false} LastIndexJoin(a: string, b: string, c: char)
    requires c !in b
    ensures LastIndex(a + [c] + b, c) == Some(|a|)
  {
    if b != [] {
      var s := a + [c] + b;
      var b' := b[..|b| - 1];
      assert s[|s| - 1] == b[|b| - 1];
      assert s[..|s| - 1] == a + [c] + b';
      LastIndexJoin(a, b', c);
    }
  }

  /** A common prefix can be cancelled. */
  lemma CancelPrefix<T>(p: seq<T>, x: seq<T>, y: seq<T>)
    requires p + x == p + y
    ensures x == y
  {
    assert x == (p + x)[|p|..] && y == (p + y)[|p|..];
  }

  /** Joining with a separator that the right part never holds can be undone. */
  lemma JoinAtLastInjective(a: string, b: string, a': string, b': string, c: char)
    requires c !in b && c !in b'
    requires a + [c] + b == a' + [c] + b'
    ensures a == a' && b == b'
  {
    LastIndexJoin(a, b, c);
    LastIndexJoin(a', b', c);
    var s := a + [c] + b;
    assert a == s[..|a|] && b == s[|a| + 1..];
    assert a' == s[..|a'|] && b' == s[|a'| + 1..];
  }

  /** The first piece of `s.split(c)` is the longest prefix without `c`. */
  lemma {:induction false} SplitFirst(s: string, c: char)
    ensures StartsWith(s, Split(s, c)[0])
    ensures var f := Split(s, c)[0]; |f| == |s| || s[|f|] == c
  {
    if s != [] {
      SplitFirst(s[1..], c);
    }
  }

  // ---------------------------------------------------------------- integers

  function DigitChar(d: nat): char
    requires d < 10
  {
    ('0' as int + d) as char
  }

  predicate IsDigit(c: char) {
    '0' <= c <= '9'
  }

  function DigitValue(c: char): nat
    requires IsDigit(c)
  {
    c as int - '0' as int
  }

  /** `str(n)` for a natural number: its decimal digits, no leading zero. */
  function NatToString(n: nat): (r: string)
    ensures |r| >= 1 && forall i :: 0 <= i < |r| ==> IsDigit(r[i])
    ensures n >= 10 ==> |r| >= 2
  {
    if n < 10 then [DigitChar(n)] else NatToString(n / 10) + [DigitChar(n % 10)]
  }

  /** `str(i)` for any integer. */
  function IntToString(i: int): (r: string)
    ensures |r| >= 1 && '_' !in r && 'x' !in r && '\n' !in r && ' ' !in r && ':' !in r
  {
    if i < 0 then "-" + NatToString(-i) else NatToString(i)
  }

  /** `f"{n:03d}"`: at least three digits, padded with leading zeros. */
  function ZeroPad3(n: nat): (r: string)
    ensures |r| >= 3
  {
    var d := NatToString(n);
    if |d| >= 3 then d else seq(3 - |d|, _ => '0') + d
  }

  /** The value of a non-empty run of decimal digits. */
  function DigitsValue(ds: string): nat
    requires forall i :: 0 <= i < |ds| ==> IsDigit(ds[i])
  {
    if ds == [] then 0 else DigitsValue(ds[..|ds| - 1]) * 10 + DigitValue(ds[|ds| - 1])
  }

  lemma {:induction false} DigitsOfNat(n: nat)
    ensures DigitsValue(NatToString(n)) == n
  {
    if n >= 10 {
      var r := NatToString(n);
      assert r[..|r| - 1] == NatToString(n / 10);
      DigitsOfNat(n / 10);
    }
  }

  /** Distinct naturals print differently. */
  lemma NatToStringInjective(a: nat, b: nat)
    requires NatToString(a) == NatToString(b)
    ensures a == b
  {
    DigitsOfNat(a);
    DigitsOfNat(b);
  }

  /** Distinct integers print differently. */
  lemma IntToStringInjective(a: int, b: int)
    requires IntToString(a) == IntToString(b)
    ensures a == b
  {
    PyIntOfIntToString(a);
    PyIntOfIntToString(b);
  }

  /** The digits-and-single-underscores body that `int()` accepts after the sign. */
  predicate IsDigitGroup(s: string) {
    |s| > 0 && IsDigit(s[0]) && IsDigit(s[|s| - 1])
    && (forall i :: 0 <= i < |s| ==> IsDigit(s[i]) || s[i] == '_')
    && (forall i :: 0 <= i < |s| - 1 ==> !(s[i] == '_' && s[i + 1] == '_'))
  }

  function DropUnderscores(s: string): (r: string)
    ensures (forall i :: 0 <= i < |s| ==> IsDigit(s[i]) || s[i] == '_') ==>
              forall i :: 0 <= i < |r| ==> IsDigit(r[i])
  {
    if s == [] then [] else (if s[0] == '_' then [] else [s[0]]) + DropUnderscores(s[1..])
  }

  lemma {:induction false} DropUnderscoresNone(s: string)
    requires '_' !in s
    ensures DropUnderscores(s) == s
  {
    if s != [] { DropUnderscoresNone(s[1..]); }
  }

  /** `int(s)` in base 10 on ASCII digits: surrounding white space, an optional sign, and
      digits with single underscores between them; anything else raises ValueError (None). */
  function PyInt(s: string): (r: Option<int>)
  {
    ParseInt(Strip(s))
  }

  /** `int` of a string with no surrounding white space. */
  function ParseInt(t: string): (r: Option<int>)
  {
    var negative := |t| > 0 && t[0] == '-';
    var body := if |t| > 0 && (t[0] == '-' || t[0] == '+') then t[1..] else t;
    if !IsDigitGroup(body) then None
    else
      var v: int := DigitsValue(DropUnderscores(body));
      Some(if negative then -v else v)
  }

  lemma ParseNegative(t: string, body: string)
    requires |t| > 0 && t[0] == '-' && body == t[1..] && IsDigitGroup(body)
    ensures ParseInt(t) == Some(-(DigitsValue(DropUnderscores(body)) as int))
  {
  }

  lemma ParseUnsigned(t: string)
    requires IsDigitGroup(t)
    ensures ParseInt(t) == Some(DigitsValue(DropUnderscores(t)) as int)
  {
  }

  /** The digits of a number, read back with `int`. */
  lemma PyIntOfDigits(n: nat)
    ensures IsDigitGroup(NatToString(n)) && DigitsValue(DropUnderscores(NatToString(n))) == n
  {
    DropUnderscoresNone(NatToString(n));
    DigitsOfNat(n);
  }

  /** `str(i)` has no white space at either end, so `strip` keeps it. */
  lemma StripIntToString(i: int)
    ensures Strip(IntToString(i)) == IntToString(i)
  {
    var s := IntToString(i);
    assert !IsSpace(s[0]) && !IsSpace(s[|s| - 1]);
    TrimKeeps(s, None);
  }

  /** `int(str(i)) == i` */
  lemma PyIntOfIntToString(i: int)
    ensures PyInt(IntToString(i)) == Some(i)
  {
    StripIntToString(i);
    ParseIntToString(i);
  }

  /** The text of a number, with no white space around it, parses back to it. */
  lemma ParseIntToString(i: int)
    ensures ParseInt(IntToString(i)) == Some(i)
  {
    var t := IntToString(i);
    if i < 0 {
      var n: nat := -i;
      assert t == "-" + NatToString(n) && t[1..] == NatToString(n);
      PyIntOfDigits(n);
      ParseNegative(t, NatToString(n));
    } else {
      var n: nat := i;
      assert t == NatToString(n);
      PyIntOfDigits(n);
      ParseUnsigned(t);
    }
  }

}
