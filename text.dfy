/** The handful of Python `str` operations the clients rely on: `strip()`,
    `lower()`, `startswith`, `in`, `split("\n")`, `sep.join(parts)`, `str(n)`
    for integers, `int(s)` and slicing to a prefix. Strings are sequences of
    code points, as Python's are. */
module Text {
  import opened Wrappers

  /** Python's `str.isspace()` characters: the ASCII controls 9-13 and 28-31,
      the space, U+0085, U+00A0 and the Unicode space separators. */
  predicate IsSpace(c: char)
  {
    c == ' ' || ('\t' <= c <= '\r') || ('\U{1C}' <= c <= '\U{1F}')
    || c == '\U{85}' || c == '\U{A0}' || c == '\U{1680}'
    || ('\U{2000}' <= c <= '\U{200A}')
    || c == '\U{2028}' || c == '\U{2029}' || c == '\U{202F}' || c == '\U{205F}' || c == '\U{3000}'
  }

  /** `s.lstrip()`: drops leading whitespace and nothing else. */
  function TrimStart(s: string): (r: string)
    ensures |r| <= |s| && r == s[|s| - |r|..]
    ensures forall k :: 0 <= k < |s| - |r| ==> IsSpace(s[k])
    ensures r != [] ==> !IsSpace(r[0])
  {
    if s != [] && IsSpace(s[0]) then
      var r := TrimStart(s[1..]);
      assert s[1..][|s| - 1 - |r|..] == s[|s| - |r|..];
      assert forall k :: 1 <= k < |s| ==> s[1..][k - 1] == s[k];
      r
    else s
  }

  /** `s.rstrip()`: drops trailing whitespace and nothing else. */
  function TrimEnd(s: string): (r: string)
    ensures |r| <= |s| && r == s[..|r|]
    ensures forall k :: |r| <= k < |s| ==> IsSpace(s[k])
    ensures r != [] ==> !IsSpace(r[|r| - 1])
  {
    if s != [] && IsSpace(s[|s| - 1]) then
      var r := TrimEnd(s[..|s| - 1]);
      assert s[..|s| - 1][..|r|] == s[..|r|];
      assert forall k :: 0 <= k < |s| - 1 ==> s[..|s| - 1][k] == s[k];
      r
    else s
  }

  /** `s.strip()`. */
  function Strip(s: string): (r: string)
    ensures |r| <= |s|
    ensures r != [] ==> !IsSpace(r[0]) && !IsSpace(r[|r| - 1])
  {
    TrimEnd(TrimStart(s))
  }

  /** `lstrip()` drops exactly the `n` leading whitespace characters. */
  lemma TrimStartAt(s: string, n: nat)
    requires n <= |s| && forall k :: 0 <= k < n ==> IsSpace(s[k])
    requires n < |s| ==> !IsSpace(s[n])
    ensures TrimStart(s) == s[n..]
  {
    var r := TrimStart(s);
    var m := |s| - |r|;
    FirstNonSpace(s, m, n);
  }

  /** The leading whitespace of a string has one length. */
  lemma FirstNonSpace(s: string, m: nat, n: nat)
    requires m <= |s| && n <= |s|
    requires forall k :: 0 <= k < m ==> IsSpace(s[k])
    requires forall k :: 0 <= k < n ==> IsSpace(s[k])
    requires m < |s| ==> !IsSpace(s[m])
    requires n < |s| ==> !IsSpace(s[n])
    ensures m == n
  {
  }

  /** `rstrip()` keeps exactly the first `n` characters when the rest is
      whitespace. */
  lemma {:induction false} TrimEndAt(s: string, n: nat)
    requires n <= |s| && forall k :: n <= k < |s| ==> IsSpace(s[k])
    requires n > 0 ==> !IsSpace(s[n - 1])
    ensures TrimEnd(s) == s[..n]
    decreases |s|
  {
    if n == |s| {
      assert s[..n] == s;
    } else {
      assert IsSpace(s[|s| - 1]);
      var init := s[..|s| - 1];
      assert forall k :: n <= k < |init| ==> init[k] == s[k];
      TrimEndAt(init, n);
      assert init[..n] == s[..n];
    }
  }

  lemma TrimEndKeepsStart(s: string)
    requires s != [] && !IsSpace(s[0])
    ensures TrimEnd(s) != [] && TrimEnd(s)[0] == s[0]
  {
  }

  /** Stripping empties a string exactly when every character is whitespace. */
  lemma StripEmpty(s: string)
    ensures Strip(s) == [] <==> forall k :: 0 <= k < |s| ==> IsSpace(s[k])
  {
    var t := TrimStart(s);
    if t != [] {
      TrimEndKeepsStart(t);
      assert !IsSpace(s[|s| - |t|]);
    }
  }

  /** Stripping twice is stripping once. */
  lemma StripIdempotent(s: string)
    ensures Strip(Strip(s)) == Strip(s)
  {
    var r := Strip(s);
    if r != [] {
      assert TrimStart(r) == r;
      assert TrimEnd(r) == r;
    }
  }

  /** `c.lower()` for the ASCII letters. */
  function LowerChar(c: char): char
  {
    if 'A' <= c <= 'Z' then (c as int + 32) as char else c
  }

  /** `s.lower()`, restricted to ASCII case mapping. */
  function Lower(s: string): (r: string)
    ensures |r| == |s| && forall i :: 0 <= i < |s| ==> r[i] == LowerChar(s[i])
  {
    seq(|s|, i requires 0 <= i < |s| => LowerChar(s[i]))
  }

  /** `s.startswith(p)`. */
  predicate StartsWith(s: string, p: string)
  {
    |p| <= |s| && s[..|p|] == p
  }

  /** `sub in s` for two strings. */
  predicate Contains(s: string, sub: string)
    decreases |s|
  {
    StartsWith(s, sub) || (s != [] && Contains(s[1..], sub))
  }

  /** `sub` occurs in `s` starting at position `i`. */
  predicate OccursAt(s: string, sub: string, i: int)
  {
    0 <= i && i + |sub| <= |s| && s[i..i + |sub|] == sub
  }

  lemma {:induction false} OccursContains(s: string, sub: string, i: int)
    requires OccursAt(s, sub, i)
    ensures Contains(s, sub)
    decreases i
  {
    if i == 0 {
      assert s[..|sub|] == sub;
    } else {
      assert s[1..][i - 1..i - 1 + |sub|] == s[i..i + |sub|];
      OccursContains(s[1..], sub, i - 1);
    }
  }

  lemma {:induction false} ContainsOccurs(s: string, sub: string) returns (i: int)
    requires Contains(s, sub)
    ensures OccursAt(s, sub, i)
    decreases |s|
  {
    if StartsWith(s, sub) {
      i := 0;
    } else {
      var j := ContainsOccurs(s[1..], sub);
      assert s[1..][j..j + |sub|] == s[j + 1..j + 1 + |sub|];
      i := j + 1;
    }
  }

  /** `sub in s` holds exactly when `sub` occurs at some position of `s`. */
  lemma ContainsAt(s: string, sub: string)
    ensures Contains(s, sub) <==> exists i :: OccursAt(s, sub, i)
  {
    if Contains(s, sub) {
      var i := ContainsOccurs(s, sub);
    }
    forall i | OccursAt(s, sub, i) ensures Contains(s, sub) {
      OccursContains(s, sub, i);
    }
  }

  /** `sep.join(parts)`. */
  function Join(parts: seq<string>, sep: string): (r: string)
    ensures parts == [] ==> r == []
    ensures |parts| == 1 ==> r == parts[0]
  {
    if |parts| == 0 then []
    else if |parts| == 1 then parts[0]
    else parts[0] + sep + Join(parts[1..], sep)
  }

  /** `s.split(c)` for a one-character separator: always at least one piece,
      and no piece contains the separator. */
  function Split(s: string, c: char): (r: seq<string>)
    ensures |r| >= 1
    ensures forall k :: 0 <= k < |r| ==> c !in r[k]
  {
    if s == [] then [[]]
    else
      var rest := Split(s[1..], c);
      if s[0] == c then [[]] + rest
      else [[s[0]] + rest[0]] + rest[1..]
  }

  /** Joining the pieces of a split with the same separator gives the string back. */
  lemma {:induction false} JoinSplit(s: string, c: char)
    ensures Join(Split(s, c), [c]) == s
  {
    if s != [] {
      var rest := Split(s[1..], c);
      JoinSplit(s[1..], c);
      if s[0] == c {
        JoinEmptyFirst(rest, c);
      } else {
        JoinConsFirst(s[0], rest, c);
      }
      assert [s[0]] + s[1..] == s;
    }
  }

  /** An empty first piece puts a separator in front of the join of the rest. */
  lemma JoinEmptyFirst(parts: seq<string>, c: char)
    requires |parts| >= 1
    ensures Join([[]] + parts, [c]) == [c] + Join(parts, [c])
  {
    assert ([[]] + parts)[1..] == parts;
  }

  /** A character put in front of the first piece is put in front of the join. */
  lemma JoinConsFirst(x: char, parts: seq<string>, c: char)
    requires |parts| >= 1
    ensures Join([[x] + parts[0]] + parts[1..], [c]) == [x] + Join(parts, [c])
  {
    if |parts| == 1 {
      assert [[x] + parts[0]] + parts[1..] == [[x] + parts[0]];
    } else {
      JoinConsMany(x, parts, c);
    }
  }

  lemma JoinConsMany(x: char, parts: seq<string>, c: char)
    requires |parts| >= 2
    ensures Join([[x] + parts[0]] + parts[1..], [c]) == [x] + Join(parts, [c])
  {
    var others := Join(parts[1..], [c]);
    JoinReplaceFirst([x] + parts[0], parts, c);
    assert Join(parts, [c]) == (parts[0] + [c]) + others;
    Assoc(parts[0], [c], others);
    Assoc([x], parts[0], [c] + others);
  }

  /** Concatenation is associative. */
  lemma Assoc(a: string, b: string, d: string)
    ensures (a + b) + d == a + (b + d)
  {
    assert forall i :: 0 <= i < |a| + |b| + |d| ==> ((a + b) + d)[i] == (a + (b + d))[i];
  }

  /** Replacing the first of several pieces changes only the front of the join. */
  lemma JoinReplaceFirst(head: string, parts: seq<string>, c: char)
    requires |parts| >= 2
    ensures Join([head] + parts[1..], [c]) == head + ([c] + Join(parts[1..], [c]))
  {
    var headed := [head] + parts[1..];
    assert headed[0] == head && headed[1..] == parts[1..] && |headed| >= 2;
  }

  /** A join whose first piece is not empty starts with that piece's first
      character, and goes on as the join with that character removed. */
  lemma JoinHead(parts: seq<string>, c: char)
    requires |parts| >= 1 && parts[0] != []
    ensures var j := Join(parts, [c]);
            j != [] && j[0] == parts[0][0] && j[1..] == Join([parts[0][1..]] + parts[1..], [c])
  {
    if |parts| == 1 {
      assert [parts[0][1..]] + parts[1..] == [parts[0][1..]];
    } else {
      JoinHeadMany(parts, c);
    }
  }

  lemma JoinHeadMany(parts: seq<string>, c: char)
    requires |parts| >= 2 && parts[0] != []
    ensures var j := Join(parts, [c]);
            j != [] && j[0] == parts[0][0] && j[1..] == Join([parts[0][1..]] + parts[1..], [c])
  {
    var p := parts[0];
    var rest := [p[1..]] + parts[1..];
    var tail := Join(parts[1..], [c]);
    assert rest[0] == p[1..] && rest[1..] == parts[1..] && |rest| >= 2;
    assert Join(rest, [c]) == (p[1..] + [c]) + tail;
    assert Join(parts, [c]) == (p + [c]) + tail;
    Assoc(p[1..], [c], tail);
    Assoc(p, [c], tail);
    DropFirst(p, [c] + tail);
  }

  /** Dropping the first character of a concatenation drops it from the
      first part. */
  lemma DropFirst(a: string, b: string)
    requires a != []
    ensures (a + b)[1..] == a[1..] + b
  {
    assert forall i :: 0 <= i < |a| - 1 + |b| ==> (a + b)[1..][i] == (a[1..] + b)[i];
  }

  /** Splitting a join of separator-free pieces gives the pieces back. */
  lemma {:induction false} SplitJoin(parts: seq<string>, c: char)
    requires |parts| >= 1
    requires forall k :: 0 <= k < |parts| ==> c !in parts[k]
    ensures Split(Join(parts, [c]), c) == parts
    decreases |parts|, |parts[0]|
  {
    var p := parts[0];
    if p == [] {
      if |parts| > 1 {
        assert Join(parts, [c]) == [c] + Join(parts[1..], [c]);
        assert (Join(parts, [c]))[1..] == Join(parts[1..], [c]);
        SplitJoin(parts[1..], c);
      }
    } else {
      var rest := [p[1..]] + parts[1..];
      assert rest[1..] == parts[1..];
      assert forall k :: 0 <= k < |rest| ==> c !in rest[k] by {
        forall k | 0 <= k < |rest| ensures c !in rest[k] {
          if k == 0 {
            assert forall x :: x in p[1..] ==> x in p;
          }
        }
      }
      SplitJoin(rest, c);
      JoinHead(parts, c);
      var j := Join(parts, [c]);
      assert p[0] != c by { assert p[0] in parts[0]; }
      assert Split(j, c) == [[p[0]] + rest[0]] + rest[1..];
      assert [p[0]] + p[1..] == p;
      assert [p] + parts[1..] == parts;
    }
  }

  predicate IsDigit(c: char)
  {
    '0' <= c <= '9'
  }

  function DigitChar(d: nat): (c: char)
    requires d < 10
    ensures IsDigit(c) && c as int - '0' as int == d
  {
    (d + '0' as int) as char
  }

  /** `str(n)` for a natural number: its decimal digits. */
  function NatToString(n: nat): (r: string)
    ensures |r| >= 1
    ensures forall k :: 0 <= k < |r| ==> IsDigit(r[k])
  {
    if n < 10 then [DigitChar(n)] else NatToString(n / 10) + [DigitChar(n % 10)]
  }

  /** `str(i)` for an integer. */
  function IntToString(i: int): string
  {
    if i < 0 then "-" + NatToString(-i) else NatToString(i)
  }

  function DigitValue(c: char): nat
    requires IsDigit(c)
  {
    c as int - '0' as int
  }

  /** The value of a string of decimal digits, read most significant first. */
  function DigitsValue(s: string): nat
    requires forall k :: 0 <= k < |s| ==> IsDigit(s[k])
  {
    if s == [] then 0
    else DigitsValue(s[..|s| - 1]) * 10 + DigitValue(s[|s| - 1])
  }

  /** Python's digit-part grammar for `int()`: digits, with single underscores
      allowed between two digits. */
  predicate DigitPart(s: string)
  {
    && s != []
    && IsDigit(s[0]) && IsDigit(s[|s| - 1])
    && (forall k :: 0 <= k < |s| ==> IsDigit(s[k]) || s[k] == '_')
    && (forall k :: 0 <= k < |s| - 1 ==> !(s[k] == '_' && s[k + 1] == '_'))
  }

  function DropUnderscores(s: string): (r: string)
    requires forall k :: 0 <= k < |s| ==> IsDigit(s[k]) || s[k] == '_'
    ensures forall k :: 0 <= k < |r| ==> IsDigit(r[k])
  {
    if s == [] then []
    else (if s[0] == '_' then [] else [s[0]]) + DropUnderscores(s[1..])
  }

  /** `int(s)` in base 10: surrounding whitespace, an optional sign and a digit
      part; anything else is the `ValueError` case, here `None`. */
  function ParseInt(s: string): (r: Option<int>)
  {
    ParseSigned(Strip(s))
  }

  function ParseSigned(t: string): Option<int>
  {
    if t != [] && t[0] == '-' then
      match ParseDigitPart(t[1..])
      case Some(v) => Some(-v)
      case None => None
    else if t != [] && t[0] == '+' then ParseDigitPart(t[1..])
    else ParseDigitPart(t)
  }

  function ParseDigitPart(body: string): Option<int>
  {
    if DigitPart(body) then Some(DigitsValue(DropUnderscores(body))) else None
  }

  lemma {:induction false} DigitsNoUnderscores(s: string)
    requires forall k :: 0 <= k < |s| ==> IsDigit(s[k])
    ensures DropUnderscores(s) == s
  {
    if s != [] {
      DigitsNoUnderscores(s[1..]);
    }
  }

  lemma {:induction false} NatToStringValue(n: nat)
    ensures DigitsValue(NatToString(n)) == n
  {
    if n >= 10 {
      var r := NatToString(n);
      assert r[..|r| - 1] == NatToString(n / 10);
      NatToStringValue(n / 10);
    }
  }

  lemma DigitsStrip(s: string)
    requires forall k :: 0 <= k < |s| ==> IsDigit(s[k])
    ensures Strip(s) == s
  {
    TrimStartAt(s, 0);
    assert s[0..] == s;
    TrimEndAt(s, |s|);
    assert s[..|s|] == s;
  }

  lemma DigitsParse(digits: string)
    requires digits != [] && forall k :: 0 <= k < |digits| ==> IsDigit(digits[k])
    ensures DigitPart(digits)
    ensures DropUnderscores(digits) == digits
  {
    DigitsNoUnderscores(digits);
  }

  /** A minus sign followed by digits has no whitespace to strip. */
  lemma NegativeStrip(s: string)
    requires |s| >= 2 && s[0] == '-' && forall k :: 1 <= k < |s| ==> IsDigit(s[k])
    ensures Strip(s) == s
  {
    assert !IsSpace(s[0]) && !IsSpace(s[|s| - 1]);
    TrimStartAt(s, 0);
    assert s[0..] == s;
    TrimEndAt(s, |s|);
    assert s[..|s|] == s;
  }

  lemma ParsePlain(digits: string)
    requires digits != [] && forall k :: 0 <= k < |digits| ==> IsDigit(digits[k])
    ensures ParseInt(digits) == Some(DigitsValue(digits))
  {
    calc {
      ParseInt(digits);
      ParseSigned(Strip(digits));
      { DigitsStrip(digits); }
      ParseSigned(digits);
      { assert digits[0] != '-' && digits[0] != '+'; }
      ParseDigitPart(digits);
      { DigitsParse(digits); }
      Some(DigitsValue(digits));
    }
  }

  lemma SignedNegative(s: string)
    requires |s| >= 2 && s[0] == '-' && forall k :: 1 <= k < |s| ==> IsDigit(s[k])
    ensures ParseSigned(s) == Some(-(DigitsValue(s[1..]) as int))
  {
    DigitsParse(s[1..]);
  }

  lemma ParseNegativeIsSigned(s: string)
    requires |s| >= 2 && s[0] == '-' && forall k :: 1 <= k < |s| ==> IsDigit(s[k])
    ensures ParseInt(s) == ParseSigned(s)
  {
    calc {
      ParseInt(s);
      ParseSigned(Strip(s));
      { NegativeStrip(s); }
      ParseSigned(s);
    }
  }

  lemma ParseNegative(s: string)
    requires |s| >= 2 && s[0] == '-' && forall k :: 1 <= k < |s| ==> IsDigit(s[k])
    ensures ParseInt(s) == Some(-(DigitsValue(s[1..]) as int))
  {
    ParseNegativeIsSigned(s);
    SignedNegative(s);
  }

  /** `int(str(i)) == i`. */
  lemma ParseIntToString(i: int)
    ensures ParseInt(IntToString(i)) == Some(i)
  {
    var n: nat := if i < 0 then -i else i;
    NatToStringValue(n);
    if i < 0 {
      var s := IntToString(i);
      assert s[1..] == NatToString(n);
      ParseNegative(s);
    } else {
      ParsePlain(NatToString(n));
    }
  }

  /** `s[:n]`. */
  function Take(s: string, n: nat): (r: string)
    ensures |r| == if |s| < n then |s| else n
    ensures r == s[..|r|]
  {
    if |s| <= n then s else s[..n]
  }
}
