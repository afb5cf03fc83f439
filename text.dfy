/** The JavaScript string built-ins the application relies on: `trim`,
    `includes`, `split(' ')[0]`, the relational operators on strings, and the
    decimal rendering of an integer inside a template literal. */
module Text {

  /** The characters `String.prototype.trim` removes: the ECMAScript
      WhiteSpace set (tab, vertical tab, form feed, space, no-break space,
      the byte order mark and every Unicode space separator) and the four
      LineTerminator characters. */
  predicate IsWhitespace(c: char)
  {
    || c == '\t' || c == '\n' || c == '\U{000B}' || c == '\U{000C}' || c == '\r'
    || c == ' ' || c == '\U{00A0}' || c == '\U{1680}'
    || ('\U{2000}' <= c <= '\U{200A}')
    || c == '\U{2028}' || c == '\U{2029}' || c == '\U{202F}' || c == '\U{205F}'
    || c == '\U{3000}' || c == '\U{FEFF}'
  }

  /** Every character of `s` is whitespace (the empty string included). */
  predicate Blank(s: string)
  {
    forall i :: 0 <= i < |s| ==> IsWhitespace(s[i])
  }

  function TrimStart(s: string): (r: string)
    ensures |r| <= |s| && r == s[|s| - |r|..]
    ensures r == [] || !IsWhitespace(r[0])
    ensures Blank(s[..|s| - |r|])
  {
    if s != [] && IsWhitespace(s[0]) then
      var r := TrimStart(s[1..]);
      assert s[1..][..|s| - 1 - |r|] == s[1..|s| - |r|];
      r
    else s
  }

  function TrimEnd(s: string): (r: string)
    ensures |r| <= |s| && r == s[..|r|]
    ensures r == [] || !IsWhitespace(r[|r| - 1])
    ensures Blank(s[|r|..])
  {
    if s != [] && IsWhitespace(s[|s| - 1]) then
      var r := TrimEnd(s[..|s| - 1]);
      assert s[..|s| - 1][|r|..] == s[|r|..|s| - 1];
      assert s[|r|..] == s[|r|..|s| - 1] + [s[|s| - 1]];
      r
    else s
  }

  /** `r` is `s` with the blank prefix `s[..k]` and a blank suffix cut off. */
  ghost predicate CutFrom(s: string, r: string, k: int)
  {
    0 <= k && k + |r| <= |s| && r == s[k..k + |r|] && Blank(s[..k]) && Blank(s[k + |r|..])
  }

  /** `String.prototype.trim`: `s` without its leading and trailing
      whitespace. */
  function Trim(s: string): (r: string)
    ensures r == [] || (!IsWhitespace(r[0]) && !IsWhitespace(r[|r| - 1]))
    ensures exists k :: CutFrom(s, r, k)
  {
    var t := TrimStart(s);
    var r := TrimEnd(t);
    TrimCut(s, t, r);
    r
  }

  /** Cutting a blank prefix and then a blank suffix cuts both from `s`,
      leaving no whitespace at either end. */
  lemma TrimCut(s: string, t: string, r: string)
    requires |t| <= |s| && t == s[|s| - |t|..] && Blank(s[..|s| - |t|])
    requires t == [] || !IsWhitespace(t[0])
    requires |r| <= |t| && r == t[..|r|] && Blank(t[|r|..])
    requires r == [] || !IsWhitespace(r[|r| - 1])
    ensures r == [] || (!IsWhitespace(r[0]) && !IsWhitespace(r[|r| - 1]))
    ensures CutFrom(s, r, |s| - |t|)
  {
    var k := |s| - |t|;
    assert r == s[k..k + |r|];
    assert s[k + |r|..] == t[|r|..];
  }

  /** Trimming yields the empty string exactly when the string is blank. */
  lemma TrimEmptyIffBlank(s: string)
    ensures Trim(s) == "" <==> Blank(s)
  {
    var t := TrimStart(s);
    if Trim(s) == "" {
      assert Blank(t[0..]);
      assert s == s[..|s| - |t|] + t;
    } else {
      assert t != [] && !IsWhitespace(t[0]);
      assert t[0] == s[|s| - |t|];
    }
  }

  /** `sub` starts at position `k` of `s`. */
  ghost predicate OccursAt(s: string, sub: string, k: int)
  {
    0 <= k <= |s| && sub <= s[k..]
  }

  /** `String.prototype.includes`: `sub` occurs in `s` at some position. */
  predicate Contains(s: string, sub: string): (b: bool)
    decreases |s|
    ensures b <==> exists k :: OccursAt(s, sub, k)
  {
    if sub <= s then
      assert OccursAt(s, sub, 0);
      true
    else if s == [] then
      assert forall k :: OccursAt(s, sub, k) ==> k == 0;
      false
    else
      OccursInTail(s, sub);
      Contains(s[1..], sub)
  }

  /** Where `sub` is not a prefix of `s`, it occurs in `s` exactly when it
      occurs in the tail, one position earlier. */
  lemma OccursInTail(s: string, sub: string)
    requires s != [] && !(sub <= s)
    ensures (exists k :: OccursAt(s, sub, k)) <==> exists k :: OccursAt(s[1..], sub, k)
  {
    if k :| OccursAt(s[1..], sub, k) {
      assert s[1..][k..] == s[k + 1..];
      assert OccursAt(s, sub, k + 1);
    }
    if k :| OccursAt(s, sub, k) {
      assert k != 0;
      assert s[1..][k - 1..] == s[k..];
      assert OccursAt(s[1..], sub, k - 1);
    }
  }

  /** A string contains whatever starts at any of its positions. */
  lemma {:induction false} ContainsAt(s: string, sub: string, k: nat)
    requires k <= |s| && sub <= s[k..]
    ensures Contains(s, sub)
  {
    if k > 0 {
      assert s[1..][k - 1..] == s[k..];
      ContainsAt(s[1..], sub, k - 1);
    }
  }

  /** A string lacking one of the characters of `sub` does not contain
      `sub`. */
  lemma {:induction false} MissingCharNotContained(s: string, sub: string, c: char)
    requires c in sub && c !in s
    ensures !Contains(s, sub)
  {
    var k :| 0 <= k < |sub| && sub[k] == c;
    if k < |s| {
      assert s[k] != sub[k];
    }
    if s != [] {
      MissingCharNotContained(s[1..], sub, c);
    }
  }

  /** `s.split(' ')[0]`: everything before the first space, or all of `s`. */
  function FirstWord(s: string): (w: string)
    ensures w <= s
    ensures ' ' !in w
    ensures |w| < |s| ==> s[|w|] == ' '
  {
    if s == [] || s[0] == ' ' then []
    else [s[0]] + FirstWord(s[1..])
  }

  /** `a` and `b` agree on their first `k` characters and differ at the
      next one, where `a` has the smaller character. */
  ghost predicate LessAt(a: string, b: string, k: int)
  {
    0 <= k < |a| && k < |b| && a[..k] == b[..k] && a[k] < b[k]
  }

  /** After a common first character, the strings differ where their tails
      do, one position later. */
  lemma LessAtTails(a: string, b: string)
    requires a != [] && b != [] && a[0] == b[0]
    ensures (exists k :: LessAt(a, b, k)) <==> exists k :: LessAt(a[1..], b[1..], k)
  {
    if k :| LessAt(a[1..], b[1..], k) {
      assert a[..k + 1] == [a[0]] + a[1..][..k];
      assert b[..k + 1] == [b[0]] + b[1..][..k];
      assert LessAt(a, b, k + 1);
    }
    if k :| LessAt(a, b, k) {
      assert k != 0;
      assert a[1..][..k - 1] == a[..k][1..];
      assert b[1..][..k - 1] == b[..k][1..];
      assert LessAt(a[1..], b[1..], k - 1);
    }
  }

  /** JavaScript's `a < b` on two strings: lexicographic order on characters,
      a proper prefix coming first. */
  predicate JsLess(a: string, b: string): (less: bool)
    decreases |a|
    ensures less <==> (|a| < |b| && a == b[..|a|]) || exists k :: LessAt(a, b, k)
  {
    if a == [] then
      b != []
    else if b == [] then false
    else if a[0] != b[0] then
      assert LessAt(a, b, 0) <==> a[0] < b[0];
      a[0] < b[0]
    else
      LessAtTails(a, b);
      assert |a| < |b| ==> (a == b[..|a|] <==> a[1..] == b[1..][..|a| - 1]);
      JsLess(a[1..], b[1..])
  }

  /** No string is less than itself. */
  lemma {:induction false} JsLessIrreflexive(a: string)
    ensures !JsLess(a, a)
  {
    if a != [] {
      JsLessIrreflexive(a[1..]);
    }
  }

  /** No two strings are each less than the other. */
  lemma {:induction false} JsLessAsymmetric(a: string, b: string)
    ensures !(JsLess(a, b) && JsLess(b, a))
  {
    if a != [] && b != [] && a[0] == b[0] {
      JsLessAsymmetric(a[1..], b[1..]);
    }
  }

  /** Of two different strings, one is less than the other. */
  lemma {:induction false} JsLessTotal(a: string, b: string)
    ensures a != b ==> JsLess(a, b) || JsLess(b, a)
  {
    if a != [] && b != [] && a[0] == b[0] {
      JsLessTotal(a[1..], b[1..]);
      if a != b {
        assert a == [a[0]] + a[1..] && b == [b[0]] + b[1..];
      }
    }
  }

  function DigitChar(d: nat): (c: char)
    requires d < 10
    ensures '0' <= c <= '9'
    ensures c as int - '0' as int == d
  {
    (d + '0' as int) as char
  }

  /** Every character of `s` is a decimal digit. */
  ghost predicate AllDigits(s: string)
  {
    forall i :: 0 <= i < |s| ==> '0' <= s[i] <= '9'
  }

  /** The number a string of decimal digits denotes. */
  ghost function DigitsValue(s: string): int
  {
    if s == [] then 0
    else DigitsValue(s[..|s| - 1]) * 10 + (s[|s| - 1] as int - '0' as int)
  }

  /** The decimal digits of `n` without leading zeros. */
  function NatToString(n: nat): (s: string)
    ensures |s| >= 1
  {
    if n < 10 then [DigitChar(n)]
    else NatToString(n / 10) + [DigitChar(n % 10)]
  }

  /** `NatToString(n)` is a string of digits, without a leading zero, that
      denotes `n`. */
  lemma {:induction false} NatToStringValue(n: nat)
    ensures AllDigits(NatToString(n))
    ensures DigitsValue(NatToString(n)) == n
    ensures |NatToString(n)| > 1 ==> NatToString(n)[0] != '0'
  {
    var s := NatToString(n);
    if n < 10 {
      assert s[..0] == [];
    } else {
      NatToStringValue(n / 10);
      var prefix := NatToString(n / 10);
      assert s == prefix + [DigitChar(n % 10)];
      assert s[..|s| - 1] == prefix;
    }
  }

  /** Different numbers are written differently. */
  lemma NatToStringInjective(a: nat, b: nat)
    ensures NatToString(a) == NatToString(b) ==> a == b
  {
    NatToStringValue(a);
    NatToStringValue(b);
  }

  /** An integer interpolated into a template literal (`${n}`): its decimal
      digits, preceded by '-' when negative. */
  function IntToString(n: int): (s: string)
    ensures |s| >= 1
    ensures n < 0 <==> s[0] == '-'
  {
    if n < 0 then "-" + NatToString(-n)
    else
      NatToStringValue(n);
      NatToString(n)
  }

  /** `${n}` denotes `n`: the digits of a non-negative number, or a minus
      sign followed by the digits of its magnitude. */
  lemma IntToStringValue(n: int)
    ensures n >= 0 ==> AllDigits(IntToString(n)) && DigitsValue(IntToString(n)) == n
    ensures n < 0 ==> |IntToString(n)| >= 2 && AllDigits(IntToString(n)[1..])
                      && DigitsValue(IntToString(n)[1..]) == -n
    ensures n >= 0 && |IntToString(n)| > 1 ==> IntToString(n)[0] != '0'
    ensures n < 0 && |IntToString(n)| > 2 ==> IntToString(n)[1] != '0'
  {
    if n < 0 {
      NatToStringValue(-n);
      assert IntToString(n)[1..] == NatToString(-n);
    } else {
      NatToStringValue(n);
    }
  }

  /** Different integers are written differently. */
  lemma IntToStringInjective(a: int, b: int)
    ensures IntToString(a) == IntToString(b) ==> a == b
  {
    IntToStringValue(a);
    IntToStringValue(b);
  }
}
