/** Shared vocabulary of the employer dashboard model: optional values, the
    outcome of a server call, JavaScript's `x || fallback` on strings, and the
    three sequence operations the pages use (`Array.prototype.filter`,
    `String.prototype.split` on one character, `String.prototype.trim`). */
module Common {

  datatype Option<+T> = None | Some(value: T)

  /** The body of an error response as the pages read it: `err.response?.data?.msg`
      and `err.response?.data?.message`. A request that got no response at all
      has neither. */
  datatype ApiError = ApiError(msg: Option<string>, message: Option<string>)

  /** What an awaited server call gives back: the response data, or an error. */
  datatype Response<+T> = Ok(data: T) | Fail(err: ApiError)

  /** A string is truthy in JavaScript when it is present and not empty. */
  predicate Truthy(o: Option<string>)
  {
    o.Some? && o.value != ""
  }

  /** JavaScript's `o || fallback` for a value that is a string or absent. */
  function Or(o: Option<string>, fallback: string): (r: string)
    ensures Truthy(o) ==> r == o.value
    ensures !Truthy(o) ==> r == fallback
  {
    if Truthy(o) then o.value else fallback
  }

  /** `err.response?.data?.msg || err.response?.data?.message || fallback`
      (JobDetail.jsx, ApplicationList.jsx). */
  function MsgThenMessage(e: ApiError, fallback: string): (r: string)
    ensures fallback != "" ==> r != ""
    ensures r == fallback || Some(r) == e.msg || Some(r) == e.message
    ensures Truthy(e.msg) ==> r == e.msg.value
    ensures !Truthy(e.msg) && !Truthy(e.message) ==> r == fallback
  {
    if Truthy(e.msg) then e.msg.value else Or(e.message, fallback)
  }

  /** `err.response?.data?.message || err.response?.data?.msg || fallback`
      (EmployerProfile.jsx). */
  function MessageThenMsg(e: ApiError, fallback: string): (r: string)
    ensures fallback != "" ==> r != ""
    ensures r == fallback || Some(r) == e.msg || Some(r) == e.message
    ensures Truthy(e.message) ==> r == e.message.value
    ensures !Truthy(e.msg) && !Truthy(e.message) ==> r == fallback
  {
    if Truthy(e.message) then e.message.value else Or(e.msg, fallback)
  }

  /** `err.response?.data?.message || fallback` (JobList.jsx, JobPost.jsx). */
  function MessageOnly(e: ApiError, fallback: string): (r: string)
    ensures fallback != "" ==> r != ""
    ensures r == fallback || Some(r) == e.message
    ensures r != fallback ==> Truthy(e.message)
  {
    Or(e.message, fallback)
  }

  // ---------------------------------------------------------------------
  // Array.prototype.filter

  /** The elements of `s` that satisfy `p`, in their original order. */
  function Filter<T(==)>(s: seq<T>, p: T -> bool): (r: seq<T>)
    ensures |r| <= |s|
    ensures forall i :: 0 <= i < |r| ==> p(r[i]) && r[i] in s
    ensures forall i :: 0 <= i < |s| && p(s[i]) ==> s[i] in r
  {
    if s == [] then []
    else (if p(s[0]) then [s[0]] else []) + Filter(s[1..], p)
  }

  /** `a` can be obtained from `b` by deleting elements: same relative order. */
  predicate IsSubsequence<T(==)>(a: seq<T>, b: seq<T>)
    decreases |b|
  {
    a == [] || (b != [] && if a[0] == b[0] then IsSubsequence(a[1..], b[1..]) else IsSubsequence(a, b[1..]))
  }

  /** Filtering keeps order: the result is a subsequence of the input. */
  lemma {:induction false} FilterIsSubsequence<T>(s: seq<T>, p: T -> bool)
    ensures IsSubsequence(Filter(s, p), s)
  {
    if s != [] {
      FilterIsSubsequence(s[1..], p);
      assert s == [s[0]] + s[1..];
      if p(s[0]) {
        assert Filter(s, p) == [s[0]] + Filter(s[1..], p);
        assert Filter(s, p)[1..] == Filter(s[1..], p);
      } else {
        assert Filter(s, p) == Filter(s[1..], p);
        SubsequenceCons(Filter(s[1..], p), s[1..], s[0]);
      }
    }
  }

  /** A subsequence of `b` is a subsequence of `b` with one more element in front. */
  lemma {:induction false} SubsequenceCons<T>(a: seq<T>, b: seq<T>, x: T)
    requires IsSubsequence(a, b)
    ensures IsSubsequence(a, [x] + b)
    decreases |b|, 1
  {
    assert ([x] + b)[1..] == b;
    if a != [] && a[0] == x {
      SubsequenceDropHead(a, b);
    }
  }

  lemma {:induction false} SubsequenceDropHead<T>(a: seq<T>, b: seq<T>)
    requires a != [] && IsSubsequence(a, b)
    ensures IsSubsequence(a[1..], b)
    decreases |b|, 0
  {
    assert b == [b[0]] + b[1..];
    if a[0] == b[0] {
      SubsequenceCons(a[1..], b[1..], b[0]);
    } else {
      SubsequenceDropHead(a, b[1..]);
      SubsequenceCons(a[1..], b[1..], b[0]);
    }
  }

  /** Filtering keeps every kept value as often as it occurred, and drops the
      others entirely; together with order this pins the result down. */
  lemma {:induction false} FilterCounts<T>(s: seq<T>, p: T -> bool, x: T)
    ensures multiset(Filter(s, p))[x] == if p(x) then multiset(s)[x] else 0
  {
    if s != [] {
      FilterCounts(s[1..], p, x);
      assert s == [s[0]] + s[1..];
      assert multiset(s) == multiset([s[0]]) + multiset(s[1..]);
    }
  }

  /** A filter that rejects nothing is the identity. */
  lemma {:induction false} FilterAllKept<T>(s: seq<T>, p: T -> bool)
    requires forall i :: 0 <= i < |s| ==> p(s[i])
    ensures Filter(s, p) == s
  {
    if s != [] {
      FilterAllKept(s[1..], p);
    }
  }

  // ---------------------------------------------------------------------
  // String.prototype.split with a one-character separator

  /** `s.split(sep)`: the maximal runs of `s` between separators. */
  function Split(s: string, sep: char): (parts: seq<string>)
    ensures |parts| >= 1
    ensures sep in s <==> |parts| >= 2
    ensures forall i :: 0 <= i < |parts| ==> sep !in parts[i]
  {
    if s == [] then [""]
    else
      var rest := Split(s[1..], sep);
      if s[0] == sep then [""] + rest else [[s[0]] + rest[0]] + rest[1..]
  }

  /** `parts.join(sep)`. */
  function Join(parts: seq<string>, sep: char): string
    requires |parts| >= 1
  {
    if |parts| == 1 then parts[0] else parts[0] + [sep] + Join(parts[1..], sep)
  }

  /** Splitting loses nothing: joining the parts back gives the string. */
  lemma {:induction false} JoinSplit(s: string, sep: char)
    ensures Join(Split(s, sep), sep) == s
  {
    if s != [] {
      JoinSplit(s[1..], sep);
      var rest := Split(s[1..], sep);
      assert s == [s[0]] + s[1..];
      if s[0] == sep {
        JoinEmptyHead(rest, sep);
      } else {
        JoinExtendHead(s[0], rest, sep);
      }
    }
  }

  lemma JoinEmptyHead(rest: seq<string>, sep: char)
    requires |rest| >= 1
    ensures Join([""] + rest, sep) == [sep] + Join(rest, sep)
  {
    assert ([""] + rest)[1..] == rest;
  }

  lemma {:induction false} JoinExtendHead(c: char, rest: seq<string>, sep: char)
    requires |rest| >= 1
    ensures Join([[c] + rest[0]] + rest[1..], sep) == [c] + Join(rest, sep)
  {
    var parts := [[c] + rest[0]] + rest[1..];
    if |rest| > 1 {
      assert parts[1..] == rest[1..];
    }
  }

  /** Splitting a string that has `sep` only at the given place. */
  lemma {:induction false} SplitAt(a: string, b: string, sep: char)
    requires sep !in a
    ensures Split(a + [sep] + b, sep) == [a] + Split(b, sep)
  {
    var s := a + [sep] + b;
    if a == [] {
      assert s == [sep] + b;
      assert s[0] == sep && s[1..] == b;
    } else {
      SplitAt(a[1..], b, sep);
      assert s[0] == a[0] && s[1..] == a[1..] + [sep] + b;
      assert a[0] != sep;
      assert [a[0]] + a[1..] == a;
    }
  }

  /** Splitting a string without the separator gives the string itself. */
  lemma {:induction false} SplitNoSep(a: string, sep: char)
    requires sep !in a
    ensures Split(a, sep) == [a]
  {
    if a != [] {
      SplitNoSep(a[1..], sep);
      assert a[0] != sep;
      assert [a[0]] + a[1..] == a;
    }
  }

  // ---------------------------------------------------------------------
  // String.prototype.startsWith and String.prototype.includes

  /** `s.startsWith(prefix)`. */
  predicate StartsWith(s: string, prefix: string)
  {
    |prefix| <= |s| && s[..|prefix|] == prefix
  }

  /** `sub` occurs in `s` starting at index `i`. */
  predicate OccursAt(s: string, sub: string, i: int)
  {
    0 <= i && i + |sub| <= |s| && s[i..i + |sub|] == sub
  }

  /** `s.includes(sub)`. */
  predicate Contains(s: string, sub: string)
  {
    exists i :: 0 <= i <= |s| && OccursAt(s, sub, i)
  }

  /** `sub` is found between any prefix and suffix. */
  lemma ContainsInfix(a: string, sub: string, b: string)
    ensures Contains(a + sub + b, sub)
  {
    assert OccursAt(a + sub + b, sub, |a|);
  }

  /** A string missing one of the characters of `sub` does not contain it. */
  lemma MissingCharNotContained(s: string, sub: string, c: char)
    requires c in sub && c !in s
    ensures !Contains(s, sub)
  {
  }

  // ---------------------------------------------------------------------
  // String.prototype.trim

  /** The characters ECMAScript's `trim` removes: WhiteSpace (tab, vertical tab,
      form feed, space, no-break space, byte order mark and the Unicode "Zs"
      space separators) and LineTerminator (line feed, carriage return, line
      and paragraph separators). */
  predicate IsJsWhitespace(c: char)
  {
    c == '\t' || c == '\n' || c == '\U{000B}' || c == '\U{000C}' || c == '\r' || c == ' ' ||
    c == '\U{00A0}' || c == '\U{1680}' || ('\U{2000}' <= c <= '\U{200A}') ||
    c == '\U{2028}' || c == '\U{2029}' || c == '\U{202F}' || c == '\U{205F}' ||
    c == '\U{3000}' || c == '\U{FEFF}'
  }

  function TrimStart(s: string): (r: string)
    ensures |r| <= |s| && r == s[|s| - |r|..]
    ensures forall i :: 0 <= i < |s| - |r| ==> IsJsWhitespace(s[i])
    ensures r != [] ==> !IsJsWhitespace(r[0])
  {
    if s != [] && IsJsWhitespace(s[0]) then TrimStart(s[1..]) else s
  }

  function TrimEnd(s: string): (r: string)
    ensures |r| <= |s| && r == s[..|r|]
    ensures forall i :: |r| <= i < |s| ==> IsJsWhitespace(s[i])
    ensures r != [] ==> !IsJsWhitespace(r[|r| - 1])
  {
    if s != [] && IsJsWhitespace(s[|s| - 1]) then TrimEnd(s[..|s| - 1]) else s
  }

  /** `s.trim()`. */
  function Trim(s: string): string
  {
    TrimEnd(TrimStart(s))
  }

  /** A string is blank when every character is whitespace. */
  predicate IsBlank(s: string)
  {
    forall i :: 0 <= i < |s| ==> IsJsWhitespace(s[i])
  }

  /** `s.trim()` is falsy exactly when `s` is blank. */
  lemma TrimEmptyIffBlank(s: string)
    ensures Trim(s) == "" <==> IsBlank(s)
  {
    var t := TrimStart(s);
    if Trim(s) == "" {
      assert |t| == 0;
    } else {
      var u := Trim(s);
      assert !IsJsWhitespace(u[0]);
      assert u[0] == t[0] == s[|s| - |t|];
    }
  }

  // ---------------------------------------------------------------------
  // parseInt(s) with no radix, after the steps of section 19.2.5 of ECMA-262:
  // leading whitespace is skipped, one sign is read, a "0x"/"0X" prefix selects
  // base 16, and the longest run of digits is read; no digit at all is NaN,
  // modelled as None. The value is the exact integer the digits denote; the
  // rounding to a double that ECMA-262 applies beyond 2^53 is not modelled.

  /** The value of a digit character in bases up to 16, 99 for any other. */
  function DigitValue(c: char): (v: nat)
    ensures v < 16 || v == 99
    ensures v < 10 <==> '0' <= c <= '9'
  {
    if '0' <= c <= '9' then c as int - '0' as int
    else if 'a' <= c <= 'f' then c as int - 'a' as int + 10
    else if 'A' <= c <= 'F' then c as int - 'A' as int + 10
    else 99
  }

  /** The longest prefix of `s` made of digits of base `radix`. */
  function DigitPrefix(s: string, radix: nat): (d: string)
    ensures |d| <= |s| && d == s[..|d|]
    ensures forall i :: 0 <= i < |d| ==> DigitValue(d[i]) < radix
    ensures |d| < |s| ==> DigitValue(s[|d|]) >= radix
  {
    if s != [] && DigitValue(s[0]) < radix then [s[0]] + DigitPrefix(s[1..], radix) else []
  }

  /** The number a run of digits denotes, most significant digit first. */
  function DigitsValue(d: string, radix: nat): nat
  {
    if d == [] then 0 else DigitsValue(d[..|d| - 1], radix) * radix + DigitValue(d[|d| - 1])
  }

  /** The unsigned part of parseInt: an optional hexadecimal prefix, then digits. */
  function ParseMagnitude(u: string): Option<nat>
  {
    var hex := |u| >= 2 && u[0] == '0' && (u[1] == 'x' || u[1] == 'X');
    var radix := if hex then 16 else 10;
    var d := DigitPrefix(if hex then u[2..] else u, radix);
    if d == [] then None else Some(DigitsValue(d, radix))
  }

  /** The text after one leading sign character, if there is one. */
  function StripSign(t: string): string
  {
    if t != [] && (t[0] == '-' || t[0] == '+') then t[1..] else t
  }

  function ParseInt(s: string): Option<int>
  {
    var t := TrimStart(s);
    match ParseMagnitude(StripSign(t))
    case None => None
    case Some(v) => Some(if t != [] && t[0] == '-' then -(v as int) else v as int)
  }

  /** The decimal digits of a natural number, as `String(n)` writes them. */
  function NatDigits(n: nat): (s: string)
    ensures s != []
    ensures forall i :: 0 <= i < |s| ==> '0' <= s[i] <= '9'
  {
    var last := ['0' + ((n % 10) as char)];
    if n < 10 then last else NatDigits(n / 10) + last
  }

  /** `String(n)` for an integer, in plain digits; the exponent form that
      `String` uses from 1e21 on is not modelled. */
  function Decimal(n: int): string
  {
    if n < 0 then "-" + NatDigits(-n) else NatDigits(n)
  }

  lemma {:induction false} NatDigitsValue(n: nat)
    ensures DigitsValue(NatDigits(n), 10) == n
  {
    var s := NatDigits(n);
    assert DigitValue(s[|s| - 1]) == n % 10;
    if n >= 10 {
      NatDigitsValue(n / 10);
      assert s[..|s| - 1] == NatDigits(n / 10);
    }
  }

  lemma {:induction false} DigitPrefixOfDigits(s: string)
    requires forall i :: 0 <= i < |s| ==> '0' <= s[i] <= '9'
    ensures DigitPrefix(s, 10) == s
  {
    if s != [] {
      DigitPrefixOfDigits(s[1..]);
    }
  }

  lemma MagnitudeOfDigits(u: string)
    requires u != [] && forall i :: 0 <= i < |u| ==> '0' <= u[i] <= '9'
    ensures ParseMagnitude(u) == Some(DigitsValue(u, 10))
  {
    assert !(|u| >= 2 && (u[1] == 'x' || u[1] == 'X'));
    DigitPrefixOfDigits(u);
  }

  lemma ParseIntOfDigits(digits: string)
    requires digits != [] && forall i :: 0 <= i < |digits| ==> '0' <= digits[i] <= '9'
    ensures ParseInt(digits) == ParseMagnitude(digits)
  {
    TrimDigits(digits);
  }

  lemma TrimDigits(digits: string)
    requires digits != [] && forall i :: 0 <= i < |digits| ==> '0' <= digits[i] <= '9'
    ensures TrimStart(digits) == digits
  {
    assert !IsJsWhitespace(digits[0]);
  }

  lemma ParseIntOfNegatedDigits(digits: string)
    requires ParseMagnitude(digits).Some?
    ensures ParseInt("-" + digits) == Some(-(ParseMagnitude(digits).value as int))
  {
    var s := "-" + digits;
    TrimMinus(digits);
    assert s[0] == '-' && s[1..] == digits;
    assert StripSign(s) == digits;
  }

  lemma TrimMinus(digits: string)
    ensures TrimStart("-" + digits) == "-" + digits
  {
    var s := "-" + digits;
    assert s[0] == '-';
  }

  /** Reading back the decimal text of a number gives the number. */
  lemma ParseIntDecimal(n: int)
    ensures ParseInt(Decimal(n)) == Some(n)
  {
    var m: nat := if n < 0 then -n else n;
    NatDigitsValue(m);
    MagnitudeOfDigits(NatDigits(m));
    if n < 0 {
      ParseIntOfNegatedDigits(NatDigits(m));
    } else {
      ParseIntOfDigits(NatDigits(m));
    }
  }

  // ---------------------------------------------------------------------
  // A number typed as text, sent as `parseFloat(s)` and shown again as
  // `String(n)`. Floating point is not modelled; these predicates pick out
  // texts whose round trip is known without it.

  predicate IsDecimalDigit(c: char)
  {
    '0' <= c <= '9'
  }

  /** A positive integer numeral of at most 15 digits, without leading zeros. */
  predicate CanonicalInteger(s: string)
  {
    1 <= |s| <= 15 && '1' <= s[0] <= '9' && forall i :: 0 <= i < |s| ==> IsDecimalDigit(s[i])
  }

  /** Fraction digits ending in a non-zero digit. */
  predicate CanonicalFraction(b: string)
  {
    1 <= |b| && b[|b| - 1] != '0' && forall i :: 0 <= i < |b| ==> IsDecimalDigit(b[i])
  }

  /** A numeral that `String(parseFloat(s))` writes back unchanged: at most 15
      digits (a double tells all such numerals apart), no leading zero, no
      trailing fraction zero, not zero, and not below 1e-6 (from where on
      `String` writes an exponent; 15 digits stay below 1e21). */
  predicate CanonicalNumeral(s: string)
  {
    var parts := Split(s, '.');
    if |parts| == 1 then CanonicalInteger(s)
    else
      && |parts| == 2
      && (parts[0] == "0" || CanonicalInteger(parts[0]))
      && CanonicalFraction(parts[1])
      && |parts[0]| + |parts[1]| <= 15
      && (parts[0] == "0" ==> exists i :: 0 <= i < 6 && i < |parts[1]| && parts[1][i] != '0')
  }

  /** A text `parseFloat` reads as 0: a zero followed only by zeros and dots. */
  predicate ZeroNumeral(s: string)
  {
    |s| >= 1 && s[0] == '0' && forall i :: 0 <= i < |s| ==> s[i] == '0' || s[i] == '.'
  }

  /** A text `parseFloat` reads as NaN: it starts with a letter other than the
      'I' of "Infinity". */
  predicate NotANumber(s: string)
  {
    |s| >= 1 && ('a' <= s[0] <= 'z' || 'A' <= s[0] <= 'Z') && s[0] != 'I'
  }

  /** What is known of `echo`, the text an input shows after its value `s`
      was sent as `parseFloat(s)` and loaded back through `n || ''`: a
      canonical numeral comes back as it was, and a text read as 0 or NaN
      comes back empty. */
  ghost predicate NumberEcho(echo: string -> string)
  {
    && (forall s :: CanonicalNumeral(s) ==> echo(s) == s)
    && (forall s :: ZeroNumeral(s) || NotANumber(s) ==> echo(s) == "")
  }
}
