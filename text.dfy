/** The JavaScript string operations both engines are built from: `indexOf`,
    `split`, `join`, `trim`, the two `replace` chains that escape and unescape
    a quoted string, and the decimal printing of an integer. Strings are
    sequences of characters; each function states the behaviour of the
    JavaScript method it stands for. */
module Text {

  // ---------------------------------------------------------------------------
  // indexOf, split, join
  // ---------------------------------------------------------------------------

  /** `s.indexOf(c)`: the first position of `c` in `s`, or -1 when there is none. */
  function IndexOf(s: string, c: char): (r: int)
    ensures -1 <= r < |s|
    ensures r == -1 <==> c !in s
    ensures 0 <= r ==> s[r] == c && c !in s[..r]
  {
    if |s| == 0 then -1
    else if s[0] == c then 0
    else
      var i := IndexOf(s[1..], c);
      assert s == [s[0]] + s[1..];
      if i == -1 then -1
      else
        assert s[..i + 1] == [s[0]] + s[1..][..i];
        i + 1
  }

  /** The first occurrence is unique: any position holding `c` with no `c`
      before it is the one `IndexOf` finds. */
  lemma IndexOfIs(s: string, c: char, j: nat)
    requires j < |s| && s[j] == c && c !in s[..j]
    ensures IndexOf(s, c) == j
  {
    var r := IndexOf(s, c);
    assert s[j] in s;
  }

  /** `parts.join(sep)` for a one-character separator. */
  function Join(parts: seq<string>, sep: char): string
  {
    if |parts| == 0 then ""
    else if |parts| == 1 then parts[0]
    else parts[0] + [sep] + Join(parts[1..], sep)
  }

  /** `s.split(sep)` for a one-character separator: the pieces between the
      separators, so there is always at least one piece, and joining them again
      gives back `s`. */
  function Split(s: string, sep: char): (parts: seq<string>)
    ensures |parts| >= 1
    ensures forall p | p in parts :: sep !in p
    ensures Join(parts, sep) == s
    decreases |s|
  {
    var i := IndexOf(s, sep);
    if i < 0 then [s]
    else
      var rest := Split(s[i + 1..], sep);
      assert s == s[..i] + [sep] + s[i + 1..];
      [s[..i]] + rest
  }

  /** Splitting undoes joining when no piece holds the separator. */
  lemma {:induction false} SplitJoin(parts: seq<string>, sep: char)
    requires |parts| >= 1
    requires forall p | p in parts :: sep !in p
    ensures Split(Join(parts, sep), sep) == parts
  {
    if |parts| > 1 {
      var head := parts[0];
      var rest := Join(parts[1..], sep);
      var s := Join(parts, sep);
      assert s == head + [sep] + rest;
      assert s[..|head|] == head;
      assert s[|head| + 1..] == rest;
      assert parts[0] in parts;
      IndexOfIs(s, sep, |head|);
      forall p | p in parts[1..] ensures sep !in p {
        assert p in parts;
      }
      SplitJoin(parts[1..], sep);
      assert parts == [head] + parts[1..];
    }
  }

  /** The pieces of `a` followed by those of `b`, where the last piece of `a`
      and the first of `b` are one piece. */
  function Fused(p: seq<string>, q: seq<string>): seq<string>
    requires |p| >= 1 && |q| >= 1
  {
    p[..|p| - 1] + [p[|p| - 1] + q[0]] + q[1..]
  }

  /** Joining fused pieces is joining each side and putting the two results
      side by side, with no separator between them. */
  lemma {:induction false} JoinFused(p: seq<string>, q: seq<string>, sep: char)
    requires |p| >= 1 && |q| >= 1
    ensures Join(Fused(p, q), sep) == Join(p, sep) + Join(q, sep)
    decreases |p|
  {
    var r := Fused(p, q);
    if |p| == 1 {
      assert r == [p[0] + q[0]] + q[1..];
      if |q| > 1 {
        assert r[1..] == q[1..];
      }
    } else {
      assert r[0] == p[0];
      assert r[1..] == Fused(p[1..], q);
      JoinFused(p[1..], q, sep);
    }
  }

  /** Splitting two strings put side by side: the last piece of the first and
      the first piece of the second become one piece. */
  lemma SplitConcat(a: string, b: string, sep: char)
    ensures Split(a + b, sep) == Fused(Split(a, sep), Split(b, sep))
  {
    var p := Split(a, sep);
    var q := Split(b, sep);
    var r := Fused(p, q);
    JoinFused(p, q, sep);
    assert p[|p| - 1] in p && q[0] in q;
    forall x | x in r ensures sep !in x {
      if x in p[..|p| - 1] {
        assert x in p;
      } else if x in q[1..] {
        assert x in q;
      }
    }
    SplitJoin(r, sep);
  }

  // ---------------------------------------------------------------------------
  // trim
  // ---------------------------------------------------------------------------

  /** The characters `trim` removes: the WhiteSpace and LineTerminator
      characters of ECMAScript. */
  predicate IsSpace(c: char)
  {
    c == ' ' || c == '\t' || c == '\n' || c == '\r' || c == '\U{000B}' || c == '\U{000C}'
    || c == '\U{00A0}' || c == '\U{1680}' || ('\U{2000}' <= c <= '\U{200A}')
    || c == '\U{2028}' || c == '\U{2029}' || c == '\U{202F}' || c == '\U{205F}'
    || c == '\U{3000}' || c == '\U{FEFF}'
  }

  /** `s` without its leading white space. */
  function TrimStart(s: string): (r: string)
    ensures |r| <= |s| && r == s[|s| - |r|..]
    ensures r == [] || !IsSpace(r[0])
    ensures forall i | 0 <= i < |s| - |r| :: IsSpace(s[i])
  {
    if |s| > 0 && IsSpace(s[0]) then TrimStart(s[1..]) else s
  }

  /** `s` without its trailing white space. */
  function TrimEnd(s: string): (r: string)
    ensures |r| <= |s| && r == s[..|r|]
    ensures r == [] || !IsSpace(r[|r| - 1])
    ensures forall i | |r| <= i < |s| :: IsSpace(s[i])
  {
    if |s| > 0 && IsSpace(s[|s| - 1]) then TrimEnd(s[..|s| - 1]) else s
  }

  /** How many white-space characters `s` starts with. */
  function LeadingSpaces(s: string): nat
  {
    |s| - |TrimStart(s)|
  }

  /** `s.trim()`: the part of `s` left once the white space at each end is
      removed, from position `LeadingSpaces(s)` on. It neither starts nor ends
      with white space, and a string that already has no white space at either
      end is returned as it is. */
  function Trim(s: string): (r: string)
    ensures LeadingSpaces(s) + |r| <= |s| && r == s[LeadingSpaces(s)..LeadingSpaces(s) + |r|]
    ensures forall k | 0 <= k < LeadingSpaces(s) :: IsSpace(s[k])
    ensures forall k | LeadingSpaces(s) + |r| <= k < |s| :: IsSpace(s[k])
    ensures r == [] || (!IsSpace(r[0]) && !IsSpace(r[|r| - 1]))
    ensures (s == [] || (!IsSpace(s[0]) && !IsSpace(s[|s| - 1]))) ==> r == s
  {
    var t := TrimStart(s);
    var r := TrimEnd(t);
    SuffixPrefix(s, t, r);
    r
  }

  /** A prefix `r` of a suffix `t` of `s` is the slice of `s` from where `t`
      starts, and what `t` has after `r` is what `s` has after it. */
  lemma SuffixPrefix(s: string, t: string, r: string)
    requires |t| <= |s| && t == s[|s| - |t|..]
    requires |r| <= |t| && r == t[..|r|]
    requires forall k | |r| <= k < |t| :: IsSpace(t[k])
    ensures r == [] || r[0] == t[0]
    ensures r == s[|s| - |t|..|s| - |t| + |r|]
    ensures forall k | |s| - |t| + |r| <= k < |s| :: IsSpace(s[k])
  {
    var i := |s| - |t|;
    forall k | i + |r| <= k < |s|
      ensures IsSpace(s[k])
    {
      assert s[k] == t[k - i];
    }
  }

  /** `s.trim()` is empty exactly when `s` is all white space. */
  lemma TrimEmpty(s: string)
    ensures Trim(s) == [] <==> forall i | 0 <= i < |s| :: IsSpace(s[i])
  {
    var t := TrimStart(s);
    assert t != [] ==> !IsSpace(s[|s| - |t|]);
  }

  // ---------------------------------------------------------------------------
  // The quoted-string escape and its inverse
  // ---------------------------------------------------------------------------

  /** `s.replace(/\\/g, '\\\\')`: every backslash doubled. Characters other
      than the backslash occur in the result exactly when they occur in `s`. */
  function DoubleBackslashes(s: string): (r: string)
    ensures forall c | c != '\\' :: c in r <==> c in s
  {
    if s == [] then []
    else
      var rest := DoubleBackslashes(s[1..]);
      assert s == [s[0]] + s[1..];
      (if s[0] == '\\' then "\\\\" else [s[0]]) + rest
  }

  /** `s.replace(/"/g, '\\"')`: a backslash put before every double quote.
      Characters other than the backslash and the quote occur in the result
      exactly when they occur in `s`, and the result never starts with a quote. */
  function EscapeQuotes(s: string): (r: string)
    ensures forall c | c != '\\' && c != '"' :: c in r <==> c in s
    ensures r == [] || r[0] != '"'
  {
    if s == [] then []
    else
      var rest := EscapeQuotes(s[1..]);
      assert s == [s[0]] + s[1..];
      (if s[0] == '"' then "\\\"" else [s[0]]) + rest
  }

  /** The escape applied to a string value before it is written between
      double quotes: backslashes first, then quotes. */
  function Escape(s: string): string
  {
    EscapeQuotes(DoubleBackslashes(s))
  }

  /** `s.replace(/\\"/g, '"')`: every backslash-quote pair, found scanning
      left to right without overlap, becomes a quote. */
  function UnescapeQuotes(s: string): string
  {
    if |s| >= 2 && s[0] == '\\' && s[1] == '"' then "\"" + UnescapeQuotes(s[2..])
    else if s == [] then []
    else [s[0]] + UnescapeQuotes(s[1..])
  }

  /** `s.replace(/\\\\/g, '\\')`: every pair of backslashes, found scanning
      left to right without overlap, becomes one backslash. */
  function HalveBackslashes(s: string): string
  {
    if |s| >= 2 && s[0] == '\\' && s[1] == '\\' then "\\" + HalveBackslashes(s[2..])
    else if s == [] then []
    else [s[0]] + HalveBackslashes(s[1..])
  }

  /** The unescape applied to the inside of a quoted value when it is parsed:
      backslash-quote first, then double backslashes. */
  function Unescape(s: string): string
  {
    HalveBackslashes(UnescapeQuotes(s))
  }

  lemma {:induction false} UnescapeQuotesOfEscapeQuotes(t: string)
    ensures UnescapeQuotes(EscapeQuotes(t)) == t
  {
    if t != [] {
      var rest := EscapeQuotes(t[1..]);
      UnescapeQuotesOfEscapeQuotes(t[1..]);
      if t[0] == '"' {
        assert EscapeQuotes(t) == "\\\"" + rest;
        assert (("\\\"" + rest)[2..]) == rest;
      } else {
        assert EscapeQuotes(t) == [t[0]] + rest;
        assert ([t[0]] + rest)[1..] == rest;
      }
      assert t == [t[0]] + t[1..];
    }
  }

  lemma {:induction false} HalveOfDouble(s: string)
    ensures HalveBackslashes(DoubleBackslashes(s)) == s
  {
    if s != [] {
      var rest := DoubleBackslashes(s[1..]);
      HalveOfDouble(s[1..]);
      if s[0] == '\\' {
        assert DoubleBackslashes(s) == "\\\\" + rest;
        assert ("\\\\" + rest)[2..] == rest;
      } else {
        assert DoubleBackslashes(s) == [s[0]] + rest;
        assert ([s[0]] + rest)[1..] == rest;
      }
      assert s == [s[0]] + s[1..];
    }
  }

  /** Parsing a quoted value gives back exactly the string that was escaped
      into it, for every string. */
  lemma UnescapeEscape(s: string)
    ensures Unescape(Escape(s)) == s
  {
    UnescapeQuotesOfEscapeQuotes(DoubleBackslashes(s));
    HalveOfDouble(s);
  }

  // ---------------------------------------------------------------------------
  // Decimal integers
  // ---------------------------------------------------------------------------

  predicate IsDigit(c: char)
  {
    '0' <= c <= '9'
  }

  predicate AllDigits(s: string)
  {
    forall i | 0 <= i < |s| :: IsDigit(s[i])
  }

  function DigitChar(d: nat): (c: char)
    requires d < 10
    ensures IsDigit(c) && (c == '0' <==> d == 0)
  {
    ('0' as int + d) as char
  }

  function DigitValue(c: char): (d: nat)
    requires IsDigit(c)
    ensures d < 10 && DigitChar(d) == c
  {
    c as int - '0' as int
  }

  /** The decimal digits of `n`, with no leading zero. */
  function NatToString(n: nat): (s: string)
    ensures |s| >= 1 && AllDigits(s)
    ensures s[0] == '0' <==> n == 0
    ensures n == 0 ==> s == "0"
  {
    if n < 10 then [DigitChar(n)] else NatToString(n / 10) + [DigitChar(n % 10)]
  }

  /** The number a string of decimal digits denotes. */
  function DigitsValue(s: string): nat
    requires AllDigits(s)
  {
    if s == [] then 0 else 10 * DigitsValue(s[..|s| - 1]) + DigitValue(s[|s| - 1])
  }

  lemma {:induction false} DigitsValueOfNatToString(n: nat)
    ensures DigitsValue(NatToString(n)) == n
  {
    var s := NatToString(n);
    if n >= 10 {
      DigitsValueOfNatToString(n / 10);
      assert s[..|s| - 1] == NatToString(n / 10);
    }
  }

  /** The text JavaScript's `String(n)` and template literals give for an
      integer `n`. */
  function IntToString(n: int): string
  {
    if n < 0 then "-" + NatToString(-n) else NatToString(n)
  }

  /** A non-negative integer written without leading zeros. */
  predicate IsCanonicalNat(s: string)
  {
    |s| >= 1 && AllDigits(s) && (s[0] != '0' || |s| == 1)
  }

  /** The strings `IntToString` can produce: a canonical natural number, or a
      minus sign before a canonical positive one. */
  predicate IsCanonicalInt(s: string)
  {
    IsCanonicalNat(s) || (|s| >= 2 && s[0] == '-' && IsCanonicalNat(s[1..]) && s[1] != '0')
  }

  function CanonicalValue(s: string): int
    requires IsCanonicalInt(s)
  {
    var magnitude: int := if s[0] == '-' then DigitsValue(s[1..]) else DigitsValue(s);
    if s[0] == '-' then -magnitude else magnitude
  }

  /** Every integer prints in canonical form, and that form reads back as the
      same integer. */
  lemma IntToStringCanonical(n: int)
    ensures IsCanonicalInt(IntToString(n))
    ensures CanonicalValue(IntToString(n)) == n
  {
    if n < 0 {
      var s := IntToString(n);
      assert s[1..] == NatToString(-n);
      DigitsValueOfNatToString(-n);
    } else {
      DigitsValueOfNatToString(n);
    }
  }

  /** Printed integers carry no white space, so `trim` leaves them alone. */
  lemma TrimIntToString(n: int)
    ensures Trim(IntToString(n)) == IntToString(n)
  {
    var s := IntToString(n);
    var d := NatToString(if n < 0 then -n else n);
    assert IsDigit(d[|d| - 1]) && IsDigit(d[0]);
    assert s[|s| - 1] == d[|d| - 1];
    assert s[0] == '-' || s[0] == d[0];
    assert !IsSpace(s[0]) && !IsSpace(s[|s| - 1]);
  }
}
