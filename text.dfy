/** String helpers with the semantics of the JavaScript built-ins the source calls:
    `lastIndexOf`, `substring`, `toLowerCase`, `trim`, `split`, `join`, `endsWith`,
    the `\s` class of regular expressions, and number-to-decimal rendering. */
module Text {
  import opened Wrappers

  /** Index of the last occurrence of `c` in `s`, or -1 (String.prototype.lastIndexOf). */
  function LastIndexOf(s: string, c: char): (i: int)
    ensures -1 <= i < |s|
    ensures i >= 0 ==> s[i] == c && forall j :: i < j < |s| ==> s[j] != c
    ensures i == -1 <==> c !in s
  {
    if |s| == 0 then -1
    else if s[|s| - 1] == c then |s| - 1
    else
      var i := LastIndexOf(s[..|s| - 1], c);
      assert s == s[..|s| - 1] + [s[|s| - 1]];
      i
  }

  /** Index of the first occurrence of `c` in `s`, or -1 (String.prototype.indexOf). */
  function IndexOf(s: string, c: char): (i: int)
    ensures -1 <= i < |s|
    ensures i >= 0 ==> s[i] == c && c !in s[..i]
    ensures i == -1 <==> c !in s
  {
    if |s| == 0 then -1
    else if s[0] == c then 0
    else
      var i := IndexOf(s[1..], c);
      assert s == [s[0]] + s[1..];
      if i < 0 then -1 else i + 1
  }

  /** String.prototype.substring: both bounds are clamped to [0, |s|] and swapped if reversed. */
  function Substring(s: string, start: int, end: int): (r: string)
    ensures |r| <= |s|
    ensures 0 <= start <= end <= |s| ==> r == s[start..end]
    ensures end <= 0 && start <= 0 ==> r == ""
  {
    var a := Clamp(start, |s|);
    var b := Clamp(end, |s|);
    if a <= b then s[a..b] else s[b..a]
  }

  function Clamp(x: int, n: nat): (r: nat)
    ensures r <= n
    ensures 0 <= x <= n ==> r == x
  {
    if x < 0 then 0 else if x > n then n else x
  }

  /** Lower-casing of one character; only the ASCII letters are mapped. */
  function LowerChar(c: char): char {
    if 'A' <= c <= 'Z' then (c as int + 32) as char else c
  }

  /** String.prototype.toLowerCase, restricted to ASCII letters. */
  function ToLower(s: string): (r: string)
    ensures |r| == |s|
    ensures forall i :: 0 <= i < |s| ==> r[i] == LowerChar(s[i])
  {
    if |s| == 0 then "" else [LowerChar(s[0])] + ToLower(s[1..])
  }

  /** The characters matched by `\s` in a JavaScript regular expression and stripped by
      String.prototype.trim: WhiteSpace and LineTerminator of ECMA-262. */
  predicate IsWhiteSpace(c: char) {
    c == ' ' || c == '\t' || c == '\n' || c == '\r' || c == '\U{000B}' || c == '\U{000C}'
    || c == '\U{00A0}' || c == '\U{1680}' || ('\U{2000}' <= c <= '\U{200A}')
    || c == '\U{2028}' || c == '\U{2029}' || c == '\U{202F}' || c == '\U{205F}'
    || c == '\U{3000}' || c == '\U{FEFF}'
  }

  /** `/\s/.test(s)`. */
  predicate HasWhiteSpace(s: string) {
    exists i :: 0 <= i < |s| && IsWhiteSpace(s[i])
  }

  /** The white space at the start removed, as `parseInt` skips it. */
  function TrimStart(s: string): string {
    if |s| > 0 && IsWhiteSpace(s[0]) then TrimStart(s[1..]) else s
  }

  /** `TrimStart` keeps a suffix that does not start with white space and drops only white
      space before it. */
  lemma {:induction false} TrimStartDrops(s: string)
    ensures var r := TrimStart(s);
      && |r| <= |s| && r == s[|s| - |r|..]
      && (forall i :: 0 <= i < |s| - |r| ==> IsWhiteSpace(s[i]))
      && (r != "" ==> !IsWhiteSpace(r[0]))
    decreases |s|
  {
    if |s| > 0 && IsWhiteSpace(s[0]) {
      var r := TrimStart(s[1..]);
      TrimStartDrops(s[1..]);
      assert s[1..][|s| - 1 - |r|..] == s[|s| - |r|..];
      assert forall i :: 1 <= i < |s| - |r| ==> s[i] == s[1..][i - 1];
    }
  }

  /** The position of the first character at or after `i` that is not white space, or `|s|`. */
  function FirstNonSpace(s: string, i: nat): (k: nat)
    requires i <= |s|
    ensures i <= k <= |s|
    ensures forall j :: i <= j < k ==> IsWhiteSpace(s[j])
    ensures k < |s| ==> !IsWhiteSpace(s[k])
    decreases |s| - i
  {
    if i < |s| && IsWhiteSpace(s[i]) then FirstNonSpace(s, i + 1) else i
  }

  /** The end of `s[lo..m]` once its trailing white space is cut. */
  function EndNonSpace(s: string, lo: nat, m: nat): (e: nat)
    requires lo <= m <= |s|
    ensures lo <= e <= m
    ensures forall j :: e <= j < m ==> IsWhiteSpace(s[j])
    ensures e > lo ==> !IsWhiteSpace(s[e - 1])
    decreases m
  {
    if m > lo && IsWhiteSpace(s[m - 1]) then EndNonSpace(s, lo, m - 1) else m
  }

  /** String.prototype.trim: the slice of `s` left after cutting the white space at both
      ends, starting at the first character that is not white space; it neither starts nor
      ends with white space. */
  function Trim(s: string): (r: string)
    ensures var k := FirstNonSpace(s, 0);
      && k + |r| <= |s| && r == s[k..k + |r|]
      && (forall i :: 0 <= i < k ==> IsWhiteSpace(s[i]))
      && (forall i :: k + |r| <= i < |s| ==> IsWhiteSpace(s[i]))
    ensures r != "" ==> !IsWhiteSpace(r[0]) && !IsWhiteSpace(r[|r| - 1])
  {
    var k := FirstNonSpace(s, 0);
    var e := EndNonSpace(s, k, |s|);
    assert e > k ==> s[k..e][0] == s[k] && s[k..e][e - k - 1] == s[e - 1];
    s[k..e]
  }

  /** String.prototype.endsWith. */
  predicate EndsWith(s: string, suffix: string) {
    |suffix| <= |s| && s[|s| - |suffix|..] == suffix
  }

  /** String.prototype.split with a one-character separator. */
  function Split(s: string, sep: char): (parts: seq<string>)
    ensures |parts| >= 1
    ensures forall k :: 0 <= k < |parts| ==> sep !in parts[k]
    decreases |s|
  {
    var i := IndexOf(s, sep);
    if i < 0 then [s] else [s[..i]] + Split(s[i + 1..], sep)
  }

  /** Array.prototype.join. */
  function Join(parts: seq<string>, sep: string): string {
    if |parts| == 0 then ""
    else if |parts| == 1 then parts[0]
    else parts[0] + sep + Join(parts[1..], sep)
  }

  /** The concatenation of a sequence of strings, in order. */
  function Concat(chunks: seq<string>): string {
    if |chunks| == 0 then "" else Concat(chunks[..|chunks| - 1]) + chunks[|chunks| - 1]
  }

  /** Number of occurrences of `c` in `s`. */
  function Count(s: string, c: char): nat {
    if |s| == 0 then 0 else (if s[0] == c then 1 else 0) + Count(s[1..], c)
  }

  /** Appending one chunk extends the concatenation by exactly that chunk. */
  lemma ConcatAppend(chunks: seq<string>, c: string)
    ensures Concat(chunks + [c]) == Concat(chunks) + c
  {
    assert (chunks + [c])[..|chunks|] == chunks;
  }

  /** Concatenation distributes over sequence concatenation. */
  lemma {:induction false} ConcatSplit(xs: seq<string>, ys: seq<string>)
    ensures Concat(xs + ys) == Concat(xs) + Concat(ys)
    decreases |ys|
  {
    if |ys| == 0 {
      assert xs + ys == xs;
    } else {
      var ys' := ys[..|ys| - 1];
      assert xs + ys == (xs + ys') + [ys[|ys| - 1]];
      assert ys == ys' + [ys[|ys| - 1]];
      ConcatSplit(xs, ys');
      ConcatAppend(xs + ys', ys[|ys| - 1]);
      ConcatAppend(ys', ys[|ys| - 1]);
    }
  }

  /** Joining with the empty separator is concatenation. */
  lemma {:induction false} JoinEmptyIsConcat(parts: seq<string>)
    ensures Join(parts, "") == Concat(parts)
    decreases |parts|
  {
    if |parts| > 1 {
      JoinEmptyIsConcat(parts[1..]);
      assert parts == [parts[0]] + parts[1..];
      ConcatSplit([parts[0]], parts[1..]);
      assert Concat([parts[0]]) == parts[0] by {
        assert [parts[0]][..0] == [];
      }
    } else if |parts| == 1 {
      assert parts[..0] == [];
    }
  }

  /** Splitting and re-joining with the same separator gives back the original text. */
  lemma {:induction false} JoinSplit(s: string, sep: char)
    ensures Join(Split(s, sep), [sep]) == s
    decreases |s|
  {
    var i := IndexOf(s, sep);
    if i >= 0 {
      var rest := Split(s[i + 1..], sep);
      JoinSplit(s[i + 1..], sep);
      assert Split(s, sep) == [s[..i]] + rest;
      JoinAround(s, i, rest, sep);
    }
  }

  /** Parts that join to what follows position `i`, preceded by what comes before it,
      join to the whole text when `s[i]` is the separator. */
  lemma JoinAround(s: string, i: int, rest: seq<string>, sep: char)
    requires 0 <= i < |s| && s[i] == sep
    requires |rest| >= 1 && Join(rest, [sep]) == s[i + 1..]
    ensures Join([s[..i]] + rest, [sep]) == s
  {
    var a, b := s[..i], s[i + 1..];
    JoinCons(a, rest, [sep]);
    assert Join([a] + rest, [sep]) == a + [sep] + b;
    Around(s, i);
  }

  /** A text is what precedes position `i`, the character there, and what follows. */
  lemma Around(s: string, i: int)
    requires 0 <= i < |s|
    ensures s[..i] + [s[i]] + s[i + 1..] == s
  {
  }

  /** Joining a part in front of at least one more part puts the separator after it. */
  lemma JoinCons(first: string, rest: seq<string>, sep: string)
    requires |rest| >= 1
    ensures Join([first] + rest, sep) == first + sep + Join(rest, sep)
  {
    assert ([first] + rest)[1..] == rest;
  }

  /** Joining separator-free parts and splitting again gives back the parts. */
  lemma {:induction false} SplitJoin(parts: seq<string>, sep: char)
    requires |parts| >= 1
    requires forall k :: 0 <= k < |parts| ==> sep !in parts[k]
    ensures Split(Join(parts, [sep]), sep) == parts
    decreases |parts|
  {
    if |parts| == 1 {
      assert IndexOf(parts[0], sep) == -1;
    } else {
      var rest := Join(parts[1..], [sep]);
      var s := parts[0] + [sep] + rest;
      assert s[|parts[0]|] == sep;
      assert s[..|parts[0]|] == parts[0];
      assert IndexOf(s, sep) == |parts[0]|;
      assert s[|parts[0]| + 1..] == rest;
      SplitJoin(parts[1..], sep);
    }
  }

  /** A split yields one part per separator plus one. */
  lemma {:induction false} SplitCount(s: string, sep: char)
    ensures |Split(s, sep)| == Count(s, sep) + 1
    decreases |s|
  {
    var i := IndexOf(s, sep);
    if i < 0 {
      NoOccurrenceCount(s, sep);
    } else {
      SplitCount(s[i + 1..], sep);
      CountConcat(s[..i], s[i..], sep);
      assert s == s[..i] + s[i..];
      NoOccurrenceCount(s[..i], sep);
      assert s[i..] == [sep] + s[i + 1..];
      CountConcat([sep], s[i + 1..], sep);
    }
  }

  lemma {:induction false} NoOccurrenceCount(s: string, c: char)
    requires c !in s
    ensures Count(s, c) == 0
    decreases |s|
  {
    if |s| > 0 {
      NoOccurrenceCount(s[1..], c);
    }
  }

  lemma {:induction false} CountConcat(a: string, b: string, c: char)
    ensures Count(a + b, c) == Count(a, c) + Count(b, c)
    decreases |a|
  {
    if |a| > 0 {
      assert (a + b)[1..] == a[1..] + b;
      CountConcat(a[1..], b, c);
    } else {
      assert a + b == b;
    }
  }

  /** A slice has no character its text lacks. */
  lemma SliceKeepsAbsence(s: string, i: nat, j: nat, c: char)
    requires i <= j <= |s| && c !in s
    ensures c !in s[i..j]
  {
    forall k | 0 <= k < j - i ensures s[i..j][k] != c {
      assert s[i..j][k] == s[i + k];
    }
  }

  /** Two texts without `c` joined have no `c`. */
  lemma AbsenceConcat(a: string, b: string, c: char)
    requires c !in a && c !in b
    ensures c !in a + b
  {
    forall k | 0 <= k < |a + b| ensures (a + b)[k] != c {
      if k < |a| { assert (a + b)[k] == a[k]; } else { assert (a + b)[k] == b[k - |a|]; }
    }
  }

  /** A character that occurs in none of the chunks does not occur in their concatenation. */
  lemma {:induction false} ConcatKeepsAbsence(chunks: seq<string>, c: char)
    requires forall i :: 0 <= i < |chunks| ==> c !in chunks[i]
    ensures c !in Concat(chunks)
  {
    if |chunks| > 0 {
      ConcatKeepsAbsence(chunks[..|chunks| - 1], c);
      AbsenceConcat(Concat(chunks[..|chunks| - 1]), chunks[|chunks| - 1], c);
    }
  }

  /** Decimal digit of a number 0..9. */
  function Digit(d: int): char
    requires 0 <= d < 10
  {
    "0123456789"[d]
  }

  /** Decimal rendering of a natural number (without leading zeros). */
  function NatToString(n: nat): (r: string)
    ensures |r| >= 1
    ensures forall i :: 0 <= i < |r| ==> IsDigit(r[i])
    decreases n
  {
    if n < 10 then [Digit(n)] else NatToString(n / 10) + [Digit(n % 10)]
  }

  /** JavaScript's rendering of an integer-valued number of magnitude below 10^21
      (`${n}` in a template literal). */
  function IntToString(n: int): (r: string)
    ensures |r| >= 1
    ensures n >= 0 ==> r == NatToString(n)
    ensures n < 0 ==> r == "-" + NatToString(-n)
  {
    if n < 0 then "-" + NatToString(-n) else NatToString(n)
  }

  /** Value of a string of decimal digits (leading digit most significant). */
  function DigitsValue(s: string): nat
    requires forall i :: 0 <= i < |s| ==> IsDigit(s[i])
    decreases |s|
  {
    if |s| == 0 then 0
    else
      assert IsDigit(s[|s| - 1]);
      DigitsValue(s[..|s| - 1]) * 10 + (s[|s| - 1] as int - '0' as int)
  }

  /** Rendering a natural number and reading the digits back gives the number. */
  lemma {:induction false} NatToStringValue(n: nat)
    ensures DigitsValue(NatToString(n)) == n
    decreases n
  {
    var r := NatToString(n);
    if n >= 10 {
      NatToStringValue(n / 10);
      assert r[..|r| - 1] == NatToString(n / 10);
    }
  }

  /** Being a suffix is transitive. */
  lemma EndsWithTrans(a: string, b: string, c: string)
    requires EndsWith(a, b) && EndsWith(b, c)
    ensures EndsWith(a, c)
  {
    assert a[|a| - |c|..] == b[|b| - |c|..];
  }

  /** Lower-casing keeps suffixes. */
  lemma LowerSuffix(s: string, e: string)
    requires EndsWith(s, e)
    ensures EndsWith(ToLower(s), ToLower(e))
  {
    var i := |s| - |e|;
    LowerDrop(s, i);
    assert s[i..] == e;
    assert ToLower(s)[i..] == ToLower(e);
    assert |ToLower(s)| - |ToLower(e)| == i;
  }

  /** Lower-casing a `.`-led, otherwise dot-free text keeps that shape. */
  lemma LowerNoDot(e: string)
    requires e != "" && e[0] == '.' && '.' !in e[1..]
    ensures var l := ToLower(e); l[0] == '.' && '.' !in l[1..]
  {
    var l := ToLower(e);
    forall k | 1 <= k < |e| ensures l[k] != '.' {
      assert e[k] == e[1..][k - 1];
    }
  }

  /** Lower-casing commutes with slicing. */
  lemma LowerSlice(s: string, i: nat, j: nat)
    requires i <= j <= |s|
    ensures ToLower(s)[i..j] == ToLower(s[i..j])
  {
  }

  /** Lower-casing the text after position `i` is taking that part of the lower-cased text. */
  lemma LowerDrop(s: string, i: nat)
    requires i <= |s|
    ensures ToLower(s)[i..] == ToLower(s[i..])
  {
    var a, b := ToLower(s)[i..], ToLower(s[i..]);
    forall k | 0 <= k < |a| ensures a[k] == b[k] {
      assert a[k] == ToLower(s)[i + k] == LowerChar(s[i + k]);
      assert b[k] == LowerChar(s[i..][k]);
    }
  }

  /** Lower-casing twice is lower-casing once. */
  lemma LowerIdempotent(s: string)
    ensures ToLower(ToLower(s)) == ToLower(s)
  {
  }

  /** Lower-casing finds a character that is not a letter at the same places. */
  lemma LastIndexOfLower(s: string, c: char)
    requires !('A' <= c <= 'Z') && !('a' <= c <= 'z')
    ensures LastIndexOf(ToLower(s), c) == LastIndexOf(s, c)
  {
    var l := ToLower(s);
    assert forall j :: 0 <= j < |s| ==> (l[j] == c <==> s[j] == c);
  }

  /** Lower-casing neither adds nor removes white space. */
  lemma WhiteSpaceLower(s: string)
    ensures HasWhiteSpace(ToLower(s)) <==> HasWhiteSpace(s)
  {
    var l := ToLower(s);
    assert forall j :: 0 <= j < |s| ==> (IsWhiteSpace(l[j]) <==> IsWhiteSpace(s[j]));
    if HasWhiteSpace(s) {
      var j :| 0 <= j < |s| && IsWhiteSpace(s[j]);
      assert IsWhiteSpace(l[j]);
    }
    if HasWhiteSpace(l) {
      var j :| 0 <= j < |l| && IsWhiteSpace(l[j]);
      assert IsWhiteSpace(s[j]);
    }
  }

  predicate IsDigit(c: char) {
    '0' <= c <= '9'
  }

  /** The longest prefix of decimal digits. */
  function LeadingDigits(s: string): (d: string)
    ensures |d| <= |s| && d == s[..|d|]
    ensures forall i :: 0 <= i < |d| ==> IsDigit(d[i])
    ensures |d| < |s| ==> !IsDigit(s[|d|])
  {
    if |s| > 0 && IsDigit(s[0]) then [s[0]] + LeadingDigits(s[1..]) else ""
  }

  /** `parseInt(s, 10)`: leading white space skipped, an optional sign, then the longest run of
      digits; `None` (NaN) when there is no digit. What it reads is stated by
      `ParseIntReadsPrefix` and `ParseIntNoDigits`. */
  function ParseInt(s: string): Option<int> {
    ParseTrimmed(TrimStart(s))
  }

  /** `parseInt` of text that starts with no white space: an optional sign, then digits. */
  function ParseTrimmed(t: string): Option<int> {
    if t != "" && t[0] == '-' then Negated(ParseDigits(t[1..]))
    else if t != "" && t[0] == '+' then ParseDigits(t[1..])
    else ParseDigits(t)
  }

  /** The value of the longest run of digits at the start, `None` when there is none. */
  function ParseDigits(u: string): Option<int> {
    var digits := LeadingDigits(u);
    if digits == "" then None else Some(DigitsValue(digits))
  }

  function Negated(r: Option<int>): Option<int> {
    if r.Some? then Some(-r.value) else None
  }

  /** A sign written in front of the digits: none, `+` or `-`. */
  predicate IsSign(sign: string) {
    sign == "" || sign == "+" || sign == "-"
  }

  /** The value `n` read after the sign `sign`. */
  function Signed(sign: string, n: int): int {
    if sign == "-" then -n else n
  }

  predicate AllWhiteSpace(w: string) {
    forall i :: 0 <= i < |w| ==> IsWhiteSpace(w[i])
  }

  predicate AllDigits(d: string) {
    forall i :: 0 <= i < |d| ==> IsDigit(d[i])
  }

  /** Blank padding, a sign, a run of digits and anything not continuing the run: `parseInt`
      gives the run's value, negated after `-`, and ignores the rest. */
  lemma ParseIntReadsPrefix(w: string, sign: string, d: string, rest: string)
    requires AllWhiteSpace(w) && IsSign(sign)
    requires d != "" && AllDigits(d)
    requires rest == "" || !IsDigit(rest[0])
    ensures ParseInt(w + sign + d + rest) == Some(Signed(sign, DigitsValue(d)))
  {
    var s, u := w + sign + d + rest, d + rest;
    var v := DigitsValue(d);
    assert u[0] == d[0];
    assert s == w + sign + u;
    PaddingTrimmed(w, sign, u);
    ParseDigitsRun(d, rest);
    ParseIntSignedRun(s, sign, u, v);
  }

  /** Padding before a sign, or before text that does not start with white space, is trimmed. */
  lemma PaddingTrimmed(w: string, sign: string, u: string)
    requires AllWhiteSpace(w) && IsSign(sign)
    requires sign == "" && u != "" ==> !IsWhiteSpace(u[0])
    ensures TrimStart(w + sign + u) == sign + u
  {
    var t := sign + u;
    assert w + sign + u == w + t;
    assert t != "" ==> t[0] == if sign == "" then u[0] else sign[0];
    TrimStartSkips(w, t);
  }

  /** `parseInt` of text that trims to a sign and then digits of value `v`. */
  lemma ParseIntSignedRun(s: string, sign: string, u: string, v: int)
    requires IsSign(sign) && (sign == "" && u != "" ==> u[0] != '+' && u[0] != '-')
    requires TrimStart(s) == sign + u
    requires ParseDigits(u) == Some(v)
    ensures ParseInt(s) == Some(Signed(sign, v))
  {
    ParseTrimmedSigned(sign, u);
    ParseIntVia(s, sign + u);
  }

  /** `parseInt` reads what is left once the padding is trimmed. */
  lemma ParseIntVia(s: string, t: string)
    requires TrimStart(s) == t
    ensures ParseInt(s) == ParseTrimmed(t)
  {
  }

  /** Blank padding and a sign not followed by a digit: `parseInt` gives NaN. */
  lemma ParseIntNoDigits(w: string, sign: string, rest: string)
    requires AllWhiteSpace(w) && IsSign(sign)
    requires rest == "" || !IsDigit(rest[0])
    requires sign == "" && rest != "" ==> !IsWhiteSpace(rest[0]) && rest[0] != '+' && rest[0] != '-'
    ensures ParseInt(w + sign + rest) == None
  {
    PaddingTrimmed(w, sign, rest);
    ParseTrimmedSigned(sign, rest);
    assert LeadingDigits(rest) == "";
    ParseIntVia(w + sign + rest, sign + rest);
  }

  /** Once the padding is gone, `parseInt` reads the digits after the sign, negated after `-`. */
  lemma ParseTrimmedSigned(sign: string, u: string)
    requires IsSign(sign)
    requires sign == "" && u != "" ==> u[0] != '+' && u[0] != '-'
    ensures ParseTrimmed(sign + u) == if sign == "-" then Negated(ParseDigits(u)) else ParseDigits(u)
  {
    var t := sign + u;
    if sign != "" {
      assert t[0] == sign[0] && t[1..] == u;
    } else {
      assert t == u;
    }
  }

  /** The digit reader stops at the first character that is not a digit. */
  lemma ParseDigitsRun(d: string, rest: string)
    requires d != "" && AllDigits(d)
    requires rest == "" || !IsDigit(rest[0])
    ensures ParseDigits(d + rest) == Some(DigitsValue(d))
  {
    LeadingDigitsRun(d, rest);
  }

  /** `TrimStart` removes exactly a blank prefix. */
  lemma {:induction false} TrimStartSkips(w: string, t: string)
    requires AllWhiteSpace(w)
    requires t == "" || !IsWhiteSpace(t[0])
    ensures TrimStart(w + t) == t
    decreases |w|
  {
    if w == "" {
      assert w + t == t;
    } else {
      assert (w + t)[0] == w[0];
      assert (w + t)[1..] == w[1..] + t;
      TrimStartSkips(w[1..], t);
    }
  }

  /** The longest digit prefix of a run of digits and a non-digit continuation is the run. */
  lemma {:induction false} LeadingDigitsRun(d: string, rest: string)
    requires AllDigits(d)
    requires rest == "" || !IsDigit(rest[0])
    ensures LeadingDigits(d + rest) == d
    decreases |d|
  {
    if d == "" {
      assert d + rest == rest;
    } else {
      assert (d + rest)[0] == d[0];
      assert (d + rest)[1..] == d[1..] + rest;
      LeadingDigitsRun(d[1..], rest);
      assert d == [d[0]] + d[1..];
    }
  }

  /** `parseInt` reads back the decimal rendering of any integer. */
  lemma ParseIntShown(n: int)
    ensures ParseInt(IntToString(n)) == Some(n)
  {
    var m: nat := if n < 0 then -n else n;
    var d := NatToString(m);
    NatToStringValue(m);
    if n < 0 {
      ParseIntNegativeRun(d);
    } else {
      ParseIntRun(d);
    }
  }

  /** The digit of a number 0..9 is a digit character of that value. */
  lemma DigitValue(v: nat)
    requires v < 10
    ensures IsDigit(Digit(v)) && DigitsValue([Digit(v)]) == v
  {
    var d := [Digit(v)];
    assert d[..0] == [];
  }

  /** `parseInt` of one digit followed by anything that is not a digit. */
  lemma ParseIntOneDigit(v: nat, rest: string)
    requires v < 10
    requires rest == "" || !IsDigit(rest[0])
    ensures ParseInt([Digit(v)] + rest) == Some(v)
  {
    DigitValue(v);
    assert [Digit(v)] + rest == "" + "" + [Digit(v)] + rest;
    ParseIntReadsPrefix("", "", [Digit(v)], rest);
  }

  /** `parseInt` of a bare run of digits. */
  lemma ParseIntRun(d: string)
    requires d != "" && AllDigits(d)
    ensures ParseInt(d) == Some(DigitsValue(d))
  {
    assert d == "" + "" + d + "";
    ParseIntReadsPrefix("", "", d, "");
  }

  /** `parseInt` of `-` and a bare run of digits. */
  lemma ParseIntNegativeRun(d: string)
    requires d != "" && AllDigits(d)
    ensures ParseInt("-" + d) == Some(-(DigitsValue(d) as int))
  {
    assert "-" + d == "" + "-" + d + "";
    ParseIntReadsPrefix("", "-", d, "");
  }
}
