/** String helpers that stand for the JavaScript built-ins the source relies on:
    `trim`, removal of `\s`, `includes` and `Number.prototype.toString`. */
module Text {

  /** JavaScript's WhiteSpace and LineTerminator code points: exactly the characters that
      `String.prototype.trim` removes and that the regular expression class `\s` matches. */
  predicate IsWhitespace(c: char)
  {
    || c == '\t' || c == '\n' || c == '\U{000B}' || c == '\U{000C}' || c == '\r' || c == ' '
    || c == '\U{00A0}' || c == '\U{1680}' || ('\U{2000}' <= c <= '\U{200A}')
    || c == '\U{2028}' || c == '\U{2029}' || c == '\U{202F}' || c == '\U{205F}'
    || c == '\U{3000}' || c == '\U{FEFF}'
  }

  predicate AllWhitespace(s: string)
  {
    forall i :: 0 <= i < |s| ==> IsWhitespace(s[i])
  }

  predicate NoWhitespace(s: string)
  {
    forall i :: 0 <= i < |s| ==> !IsWhitespace(s[i])
  }

  /** Drops leading whitespace: the result is the suffix of `s` that starts at its
      first non-whitespace character. */
  function TrimStart(s: string): (r: string)
    ensures |r| <= |s| && r == s[|s| - |r|..]
    ensures AllWhitespace(s[..|s| - |r|])
    ensures r != [] ==> !IsWhitespace(r[0])
  {
    if s != [] && IsWhitespace(s[0]) then
      var r := TrimStart(s[1..]);
      assert s[..|s| - |r|] == [s[0]] + s[1..][..|s[1..]| - |r|];
      r
    else
      s
  }

  /** Drops trailing whitespace: the result is the prefix of `s` that ends at its
      last non-whitespace character. */
  function TrimEnd(s: string): (r: string)
    ensures |r| <= |s| && r == s[..|r|]
    ensures AllWhitespace(s[|r|..])
    ensures r != [] ==> !IsWhitespace(r[|r| - 1])
  {
    if s != [] && IsWhitespace(s[|s| - 1]) then
      var r := TrimEnd(s[..|s| - 1]);
      assert s[|r|..] == s[..|s| - 1][|r|..] + [s[|s| - 1]];
      r
    else
      s
  }

  /** `String.prototype.trim`. */
  function Trim(s: string): string
  {
    TrimEnd(TrimStart(s))
  }

  /** `s.replace(/\s/g, '')`: every whitespace character removed, the others kept in order. */
  function StripWhitespace(s: string): (r: string)
    ensures NoWhitespace(r)
    ensures |r| <= |s|
  {
    if s == [] then []
    else (if IsWhitespace(s[0]) then [] else [s[0]]) + StripWhitespace(s[1..])
  }

  /** `s.includes(part)`. */
  predicate Contains(s: string, part: string)
  {
    exists i :: 0 <= i <= |s| - |part| && OccursAt(s, part, i)
  }

  predicate OccursAt(s: string, part: string, i: nat)
  {
    i + |part| <= |s| && s[i..i + |part|] == part
  }

  /** `n.toString()` for an integer `n`: its decimal digits, with a leading '-' when negative. */
  function DecimalString(n: int): string
  {
    if n < 0 then "-" + NatDigits(-n) else NatDigits(n)
  }

  function NatDigits(n: nat): string
  {
    if n < 10 then ["0123456789"[n]] else NatDigits(n / 10) + ["0123456789"[n % 10]]
  }

  // ----- Properties -----

  /** A string trims to the empty string exactly when it consists of whitespace only
      (the source's `!name.trim()` tests). */
  lemma TrimEmptyIff(s: string)
    ensures Trim(s) == [] <==> AllWhitespace(s)
  {
    var t := TrimStart(s);
    var k := |s| - |t|;
    if Trim(s) == [] {
      assert AllWhitespace(t[0..]);
      assert t == [];
      assert s[..k] == s;
    }
  }

  /** The test `!s.trim()` evaluated: true exactly for a string of whitespace only. */
  method IsBlank(s: string) returns (b: bool)
    ensures b <==> AllWhitespace(s)
  {
    b := Trim(s) == [];
    TrimEmptyIff(s);
  }

  /** A string that neither starts nor ends with whitespace is its own trim. */
  lemma TrimOfUnpadded(s: string)
    requires s == [] || (!IsWhitespace(s[0]) && !IsWhitespace(s[|s| - 1]))
    ensures Trim(s) == s
  {
  }

  /** Trimming a string whose ends are not whitespace, followed by whitespace, gives the
      string back. */
  lemma TrimTrailing(x: string, w: string)
    requires x != [] && !IsWhitespace(x[0]) && !IsWhitespace(x[|x| - 1])
    requires AllWhitespace(w)
    ensures Trim(x + w) == x
  {
    var s := x + w;
    assert s[0] == x[0];
    assert TrimStart(s) == s;
    var u := TrimEnd(s);
    assert s[|x| - 1] == x[|x| - 1];
    assert |u| == |x|;
    assert u == s[..|x|] == x;
  }

  /** Whitespace around a string whose ends are not whitespace is exactly what trimming
      removes. */
  lemma TrimPadded(p: string, x: string, q: string)
    requires x == [] || (!IsWhitespace(x[0]) && !IsWhitespace(x[|x| - 1]))
    requires AllWhitespace(p) && AllWhitespace(q)
    ensures Trim(p + x + q) == x
  {
    var s := p + x + q;
    if x == [] {
      assert AllWhitespace(s) by {
        forall i | 0 <= i < |s|
          ensures IsWhitespace(s[i])
        {
          if i < |p| { assert s[i] == p[i]; } else { assert s[i] == q[i - |p|]; }
        }
      }
      TrimEmptyIff(s);
    } else {
      var t := TrimStart(s);
      assert s[|p|] == x[0];
      assert |t| == |x| + |q|;
      assert t == x + q;
      TrimTrailing(x, q);
      assert TrimStart(x + q) == x + q;
    }
  }

  /** A string occurs in any concatenation that has it in the middle. */
  lemma OccursInMiddle(a: string, b: string, c: string)
    ensures OccursAt(a + b + c, b, |a|) && Contains(a + b + c, b)
  {
    var s := a + b + c;
    assert s[|a|..|a| + |b|] == b;
    assert OccursAt(s, b, |a|);
    assert 0 <= |a| <= |s| - |b|;
  }

  lemma {:induction false} StripConcat(a: string, b: string)
    ensures StripWhitespace(a + b) == StripWhitespace(a) + StripWhitespace(b)
  {
    if a == [] {
      assert a + b == b;
    } else {
      assert (a + b)[0] == a[0];
      assert (a + b)[1..] == a[1..] + b;
      StripConcat(a[1..], b);
    }
  }

  lemma {:induction false} StripOfNoWhitespace(s: string)
    requires NoWhitespace(s)
    ensures StripWhitespace(s) == s
  {
    if s != [] {
      StripOfNoWhitespace(s[1..]);
      assert s == [s[0]] + s[1..];
    }
  }

  lemma {:induction false} StripOfAllWhitespace(s: string)
    requires AllWhitespace(s)
    ensures StripWhitespace(s) == []
  {
    if s != [] {
      StripOfAllWhitespace(s[1..]);
    }
  }

  /** Leading whitespace is invisible once whitespace is stripped. */
  lemma StripTrimStart(s: string)
    ensures StripWhitespace(TrimStart(s)) == StripWhitespace(s)
  {
    var t := TrimStart(s);
    var k := |s| - |t|;
    assert s == s[..k] + t;
    StripConcat(s[..k], t);
    StripOfAllWhitespace(s[..k]);
  }

  /** Trailing whitespace is invisible once whitespace is stripped. */
  lemma StripTrimEnd(t: string)
    ensures StripWhitespace(TrimEnd(t)) == StripWhitespace(t)
  {
    var u := TrimEnd(t);
    assert t == u + t[|u|..];
    StripConcat(u, t[|u|..]);
    StripOfAllWhitespace(t[|u|..]);
  }

  /** Trimming only ever removes whitespace, so it is invisible once whitespace is stripped. */
  lemma StripTrim(s: string)
    ensures StripWhitespace(Trim(s)) == StripWhitespace(s)
  {
    StripTrimStart(s);
    StripTrimEnd(TrimStart(s));
  }
}
