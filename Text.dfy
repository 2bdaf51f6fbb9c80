/** The few Python string operations the back end relies on, over `seq<char>`.
    `strip()` removes the six ASCII whitespace characters listed in `IsSpace`
    (Python also strips other Unicode spaces, which this model does not);
    `lower()` lowers ASCII letters only. */
module Text {

  // ---------------------------------------------------------------------------
  // Whitespace and strip()
  // ---------------------------------------------------------------------------

  predicate IsSpace(c: char) {
    c == ' ' || c == '\t' || c == '\n' || c == '\r' || c == '\U{000B}' || c == '\U{000C}'
  }

  /** Every character is whitespace: `not s.strip()` in Python. */
  predicate IsBlank(s: string) {
    forall i :: 0 <= i < |s| ==> IsSpace(s[i])
  }

  /** `s.lstrip()`: drops the leading whitespace and nothing else. */
  function LStrip(s: string): (r: string)
    ensures |r| <= |s|
  {
    if |s| > 0 && IsSpace(s[0]) then LStrip(s[1..]) else s
  }

  /** `lstrip()` removes only whitespace, and all of the leading whitespace. */
  lemma {:induction false} LStripSpec(s: string)
    ensures LStrip(s) == s[|s| - |LStrip(s)|..]
    ensures IsBlank(s[..|s| - |LStrip(s)|])
    ensures LStrip(s) != [] ==> !IsSpace(LStrip(s)[0])
  {
    if |s| > 0 && IsSpace(s[0]) {
      LStripSpec(s[1..]);
      var k := |s| - |LStrip(s)|;
      forall i | 0 <= i < k ensures IsSpace(s[..k][i]) {
        if i > 0 {
          assert s[..k][i] == s[1..][..k - 1][i - 1];
        }
      }
    }
  }

  /** `s.rstrip()`: drops the trailing whitespace and nothing else. */
  function RStrip(s: string): (r: string)
    ensures |r| <= |s|
  {
    if |s| > 0 && IsSpace(s[|s| - 1]) then RStrip(s[..|s| - 1]) else s
  }

  /** `rstrip()` removes only whitespace, and all of the trailing whitespace. */
  lemma {:induction false} RStripSpec(s: string)
    ensures RStrip(s) == s[..|RStrip(s)|]
    ensures IsBlank(s[|RStrip(s)|..])
    ensures RStrip(s) != [] ==> !IsSpace(RStrip(s)[|RStrip(s)| - 1])
  {
    if |s| > 0 && IsSpace(s[|s| - 1]) {
      var t := s[..|s| - 1];
      RStripSpec(t);
      var k := |RStrip(s)|;
      forall i | 0 <= i < |s| - k ensures IsSpace(s[k..][i]) {
        if i < |s| - 1 - k {
          assert s[k..][i] == t[k..][i];
        }
      }
    }
  }

  /** `s.strip()`. */
  function Strip(s: string): string {
    RStrip(LStrip(s))
  }

  /** How many whitespace characters `lstrip()` removes. */
  function LeadingSpaces(s: string): nat {
    |s| - |LStrip(s)|
  }

  /** What `strip()` returns: a contiguous piece of `s` with no whitespace at either
      end, empty exactly when `s` is blank. */
  lemma StripSpec(s: string)
    ensures LeadingSpaces(s) + |Strip(s)| <= |s|
    ensures Strip(s) == s[LeadingSpaces(s)..LeadingSpaces(s) + |Strip(s)|]
    ensures Strip(s) != [] ==> !IsSpace(Strip(s)[0]) && !IsSpace(Strip(s)[|Strip(s)| - 1])
    ensures Strip(s) == [] <==> IsBlank(s)
  {
    var l := LStrip(s);
    var r := RStrip(l);
    var i := |s| - |l|;
    assert l == s[i..] by { LStripSpec(s); }
    assert r == l[..|r|] by { RStripSpec(l); }
    assert s[i..i + |r|] == l[..|r|];
    if r != [] {
      assert !IsSpace(l[0]) by { LStripSpec(s); }
      assert !IsSpace(r[|r| - 1]) by { RStripSpec(l); }
    }
    StripEmptyIff(s);
  }

  lemma StripEmptyIff(s: string)
    ensures Strip(s) == [] <==> IsBlank(s)
  {
    if Strip(s) == [] {
      StripEmptyIsBlank(s);
    } else {
      var l := LStrip(s);
      LStripSpec(s);
      assert l[0] == s[|s| - |l|];
    }
  }

  lemma StripEmptyIsBlank(s: string)
    requires Strip(s) == []
    ensures IsBlank(s)
  {
    var l := LStrip(s);
    LStripSpec(s);
    RStripSpec(l);
    assert l[|Strip(s)|..] == l;
    assert l == [];
    var i := |s| - |l|;
    forall k | 0 <= k < |s| ensures IsSpace(s[k]) {
      assert s[k] == s[..i][k];
    }
  }

  /** A string that begins with a non-space character loses nothing on the left. */
  lemma LStripKeeps(s: string)
    requires s != [] && !IsSpace(s[0])
    ensures LStrip(s) == s
  {
  }

  /** Stripping the right end of `p + [c] + q` with `c` not a space keeps `p + [c]`. */
  lemma {:induction false} RStripAfterMark(p: string, c: char, q: string)
    requires !IsSpace(c)
    ensures RStrip(p + [c] + q) == p + [c] + RStrip(q)
            || (RStrip(q) == [] && RStrip(p + [c] + q) == p + [c])
  {
    if |q| > 0 && IsSpace(q[|q| - 1]) {
      assert (p + [c] + q)[..|p + [c] + q| - 1] == p + [c] + q[..|q| - 1];
      RStripAfterMark(p, c, q[..|q| - 1]);
    } else if q == [] {
      assert p + [c] + q == p + [c];
    }
  }

  /** Neither end of `s` is whitespace, so `strip()` leaves it as it is. */
  predicate Trimmed(s: string) {
    s == [] || (!IsSpace(s[0]) && !IsSpace(s[|s| - 1]))
  }

  lemma StripTrimmed(s: string)
    ensures Trimmed(Strip(s))
    ensures Trimmed(s) ==> Strip(s) == s
  {
    StripSpec(s);
    if Trimmed(s) && s != [] {
      LStripKeeps(s);
    }
  }

  lemma {:induction false} StripIdempotent(s: string)
    ensures Strip(Strip(s)) == Strip(s)
  {
    var t := Strip(s);
    StripSpec(s);
    if t != [] {
      assert !IsSpace(t[0]) && !IsSpace(t[|t| - 1]);
      assert LStrip(t) == t;
    }
  }

  // ---------------------------------------------------------------------------
  // lower(), startswith(), `in`
  // ---------------------------------------------------------------------------

  function LowerChar(c: char): char {
    if 'A' <= c <= 'Z' then (c as int - 'A' as int + 'a' as int) as char else c
  }

  /** ASCII `s.lower()`. */
  function Lower(s: string): (r: string)
    ensures |r| == |s|
  {
    if s == [] then [] else [LowerChar(s[0])] + Lower(s[1..])
  }

  /** `s.startswith(p)`. */
  predicate StartsWith(s: string, p: string) {
    |p| <= |s| && s[..|p|] == p
  }

  /** `s.endswith(p)`. */
  predicate EndsWith(s: string, p: string) {
    |p| <= |s| && s[|s| - |p|..] == p
  }

  /** `sub in s`; note that `"" in s` always holds. */
  predicate Contains(s: string, sub: string) {
    StartsWith(s, sub) || (|s| > 0 && Contains(s[1..], sub))
  }

  lemma {:induction false} ContainsMiddle(a: string, b: string, c: string)
    ensures Contains(a + b + c, b)
  {
    if a == [] {
      assert (a + b + c)[..|b|] == b;
    } else {
      assert (a + b + c)[1..] == a[1..] + b + c;
      ContainsMiddle(a[1..], b, c);
    }
  }

  // ---------------------------------------------------------------------------
  // sep.join(parts) and s.split(c)
  // ---------------------------------------------------------------------------

  /** `sep.join(parts)`. */
  function Join(sep: string, parts: seq<string>): string {
    if |parts| == 0 then ""
    else if |parts| == 1 then parts[0]
    else parts[0] + sep + Join(sep, parts[1..])
  }

  lemma {:induction false} JoinSnoc(sep: string, parts: seq<string>, x: string)
    requires |parts| >= 1
    ensures Join(sep, parts + [x]) == Join(sep, parts) + sep + x
  {
    if |parts| == 1 {
      assert (parts + [x])[1..] == [x];
    } else {
      assert (parts + [x])[1..] == parts[1..] + [x];
      JoinSnoc(sep, parts[1..], x);
    }
  }

  /** `s.split(c)` for a one-character separator: always at least one piece. */
  function Split(s: string, c: char): (r: seq<string>)
    ensures |r| >= 1
  {
    if |s| == 0 then [""]
    else
      var rest := Split(s[1..], c);
      if s[0] == c then [""] + rest
      else [[s[0]] + rest[0]] + rest[1..]
  }

  /** No piece of a split holds the separator. */
  lemma {:induction false} SplitPieces(s: string, c: char)
    ensures forall i :: 0 <= i < |Split(s, c)| ==> c !in Split(s, c)[i]
  {
    if |s| > 0 {
      SplitPieces(s[1..], c);
    }
  }

  /** Splitting and re-joining with the same separator gives the string back. */
  lemma {:induction false} JoinSplit(s: string, c: char)
    ensures Join([c], Split(s, c)) == s
  {
    if |s| > 0 {
      var rest := Split(s[1..], c);
      JoinSplit(s[1..], c);
      if s[0] == c {
        assert ([""] + rest)[1..] == rest;
      } else if |rest| > 1 {
        var r := [[s[0]] + rest[0]] + rest[1..];
        assert r[1..] == rest[1..];
        assert Join([c], rest) == rest[0] + [c] + Join([c], rest[1..]);
        assert s == [s[0]] + s[1..];
      } else {
        assert s == [s[0]] + s[1..];
      }
    }
  }

  lemma {:induction false} SplitNoSeparator(p: string, c: char)
    requires c !in p
    ensures Split(p, c) == [p]
  {
    if |p| > 0 {
      assert c !in p[1..];
      SplitNoSeparator(p[1..], c);
      assert [p[0]] + p[1..] == p;
    }
  }

  lemma {:induction false} SplitAtSeparator(p: string, c: char, rest: string)
    requires c !in p
    ensures Split(p + [c] + rest, c) == [p] + Split(rest, c)
  {
    if p == [] {
      assert (p + [c] + rest)[1..] == rest;
    } else {
      assert (p + [c] + rest)[1..] == p[1..] + [c] + rest;
      assert c !in p[1..];
      SplitAtSeparator(p[1..], c, rest);
      assert [p[0]] + p[1..] == p;
    }
  }

  /** Joining pieces free of the separator and splitting again gives the pieces back. */
  lemma {:induction false} SplitJoin(parts: seq<string>, c: char)
    requires |parts| >= 1
    requires forall i :: 0 <= i < |parts| ==> c !in parts[i]
    ensures Split(Join([c], parts), c) == parts
  {
    if |parts| == 1 {
      SplitNoSeparator(parts[0], c);
    } else {
      SplitJoin(parts[1..], c);
      SplitAtSeparator(parts[0], c, Join([c], parts[1..]));
      assert [parts[0]] + parts[1..] == parts;
    }
  }

  /** Index of the first `c` in `s`. */
  function FirstIndex(s: string, c: char): (i: nat)
    requires c in s
    ensures i < |s| && s[i] == c && c !in s[..i]
  {
    if s[0] == c then 0 else 1 + FirstIndex(s[1..], c)
  }

  /** `s.split(c, 1)[-1]`: the text after the first `c`, or all of `s` when it has none. */
  function AfterFirst(s: string, c: char): (r: string)
    ensures c !in s ==> r == s
    ensures c in s ==> |r| < |s| && s == s[..|s| - |r| - 1] + [c] + r && c !in s[..|s| - |r| - 1]
  {
    if c in s then s[FirstIndex(s, c) + 1..] else s
  }

  // ---------------------------------------------------------------------------
  // str(n) and f"{n:,}"
  // ---------------------------------------------------------------------------

  predicate IsDigit(c: char) {
    '0' <= c <= '9'
  }

  function DigitChar(d: nat): (c: char)
    requires d < 10
    ensures IsDigit(c)
  {
    ('0' as int + d) as char
  }

  /** Decimal digits of a natural number, without leading zeros. */
  function NatToString(n: nat): (r: string)
    ensures |r| >= 1
  {
    if n < 10 then [DigitChar(n)] else NatToString(n / 10) + [DigitChar(n % 10)]
  }

  lemma {:induction false} NatToStringDigits(n: nat)
    ensures forall i :: 0 <= i < |NatToString(n)| ==> IsDigit(NatToString(n)[i])
  {
    if n >= 10 {
      NatToStringDigits(n / 10);
    }
  }

  /** `str(i)` for a Python int. */
  function IntToString(i: int): string {
    if i < 0 then "-" + NatToString(-i) else NatToString(i)
  }

  /** Exactly three digits, zero padded. */
  function Pad3(r: nat): string
    requires r < 1000
  {
    [DigitChar(r / 100), DigitChar((r / 10) % 10), DigitChar(r % 10)]
  }

  function GroupThousands(n: nat): string {
    if n < 1000 then NatToString(n) else GroupThousands(n / 1000) + "," + Pad3(n % 1000)
  }

  /** `f"{i:,}"`: digits grouped in threes by commas, with a leading `-` for negatives. */
  function FormatThousands(i: int): string {
    if i < 0 then "-" + GroupThousands(-i) else GroupThousands(i)
  }

  function RemoveCommas(s: string): (r: string)
    ensures ',' !in r
  {
    if s == [] then [] else (if s[0] == ',' then [] else [s[0]]) + RemoveCommas(s[1..])
  }

  lemma {:induction false} RemoveCommasAppend(a: string, b: string)
    ensures RemoveCommas(a + b) == RemoveCommas(a) + RemoveCommas(b)
  {
    if a != [] {
      var h := if a[0] == ',' then [] else [a[0]];
      assert (a + b)[0] == a[0];
      assert (a + b)[1..] == a[1..] + b;
      RemoveCommasAppend(a[1..], b);
      calc {
        RemoveCommas(a + b);
        h + RemoveCommas(a[1..] + b);
        h + (RemoveCommas(a[1..]) + RemoveCommas(b));
        (h + RemoveCommas(a[1..])) + RemoveCommas(b);
        RemoveCommas(a) + RemoveCommas(b);
      }
    } else {
      assert a + b == b;
    }
  }

  lemma {:induction false} RemoveCommasDigits(s: string)
    requires forall i :: 0 <= i < |s| ==> IsDigit(s[i])
    ensures RemoveCommas(s) == s
  {
    if s != [] {
      RemoveCommasDigits(s[1..]);
    }
  }

  lemma NatToStringStep(q: nat, d: nat)
    requires q >= 1 && d < 10
    ensures NatToString(q * 10 + d) == NatToString(q) + [DigitChar(d)]
  {
    assert (q * 10 + d) / 10 == q;
    assert (q * 10 + d) % 10 == d;
  }

  lemma NatToStringThousands(q: nat, r: nat)
    requires q >= 1 && r < 1000
    ensures NatToString(q * 1000 + r) == NatToString(q) + Pad3(r)
  {
    ThousandsDigits(q, r);
    NatToStringStep(q, r / 100);
    NatToStringStep(q * 10 + r / 100, (r / 10) % 10);
    NatToStringStep(q * 100 + r / 10, r % 10);
  }

  /** The last three decimal digits of `q * 1000 + r`, one at a time. */
  lemma ThousandsDigits(q: nat, r: nat)
    requires q >= 1 && r < 1000
    ensures q * 10 + r / 100 >= 1 && q * 100 + r / 10 >= 1
    ensures q * 100 + r / 10 == (q * 10 + r / 100) * 10 + (r / 10) % 10
    ensures q * 1000 + r == (q * 100 + r / 10) * 10 + r % 10
  {
    var t := r / 10;
    assert t == (t / 10) * 10 + t % 10;
    assert t / 10 == r / 100;
  }

  lemma DivMod1000(n: nat)
    requires n >= 1000
    ensures n / 1000 >= 1 && n == (n / 1000) * 1000 + n % 1000
  {
  }

  lemma {:induction false} GroupThousandsRoundTrip(n: nat)
    ensures RemoveCommas(GroupThousands(n)) == NatToString(n)
  {
    if n < 1000 {
      NatToStringDigits(n);
      RemoveCommasDigits(NatToString(n));
    } else {
      DivMod1000(n);
      GroupThousandsRoundTrip(n / 1000);
      RoundTripStep(GroupThousands(n / 1000), n / 1000, n % 1000);
    }
  }

  /** One more group: if the commas of `g` hide `str(q)`, those of `g,ddd` hide
      `str(q * 1000 + r)`. */
  lemma RoundTripStep(g: string, q: nat, r: nat)
    requires q >= 1 && r < 1000
    requires RemoveCommas(g) == NatToString(q)
    ensures RemoveCommas(g + "," + Pad3(r)) == NatToString(q * 1000 + r)
  {
    RemoveCommasAppend(g + ",", Pad3(r));
    RemoveCommasAppend(g, ",");
    RemoveCommasDigits(Pad3(r));
    assert RemoveCommas(",") == "";
    NatToStringThousands(q, r);
  }

  /** Digits in groups of three separated by commas, after a first group of one to three
      digits: a comma stands exactly where a multiple of four characters remain, and
      every other character is a digit. */
  predicate ThreeDigitGroups(s: string) {
    |s| % 4 != 0
    && forall i :: 0 <= i < |s| ==> if (|s| - i) % 4 == 0 then s[i] == ',' else IsDigit(s[i])
  }

  /** A number below 1000 has at most three digits. */
  lemma {:induction false} NatToStringShort(n: nat)
    ensures n < 10 ==> |NatToString(n)| == 1
    ensures n < 100 ==> |NatToString(n)| <= 2
    ensures n < 1000 ==> |NatToString(n)| <= 3
  {
    if n >= 10 {
      NatToStringShort(n / 10);
    }
  }

  /** `f"{n:,}"` for a natural number groups its digits in threes. */
  lemma {:induction false} GroupThousandsGroups(n: nat)
    ensures ThreeDigitGroups(GroupThousands(n))
  {
    if n < 1000 {
      NatToStringShort(n);
      NatToStringDigits(n);
    } else {
      GroupThousandsGroups(n / 1000);
      GroupsAppend(GroupThousands(n / 1000), Pad3(n % 1000));
    }
  }

  /** One more comma and group of three digits keeps the grouping. */
  lemma GroupsAppend(g: string, p: string)
    requires ThreeDigitGroups(g)
    requires |p| == 3 && IsDigit(p[0]) && IsDigit(p[1]) && IsDigit(p[2])
    ensures ThreeDigitGroups(g + "," + p)
  {
    var s := g + "," + p;
    assert |s| == |g| + 4;
    ModFour(|g|);
    forall i | 0 <= i < |s|
      ensures if (|s| - i) % 4 == 0 then s[i] == ',' else IsDigit(s[i])
    {
      if i < |g| {
        assert s[i] == g[i];
        ModFour(|g| - i);
      } else if i == |g| {
        assert s[i] == ',' && |s| - i == 4;
      } else {
        assert s[i] == p[i - |g| - 1];
        assert 1 <= |s| - i <= 3;
      }
    }
  }

  lemma ModFour(k: int)
    ensures (k + 4) % 4 == k % 4
  {
  }

  /** The grouping of `f"{i:,}"`: digit groups of three, after a `-` for a negative. */
  lemma FormatThousandsGroups(i: int)
    ensures i >= 0 ==> ThreeDigitGroups(FormatThousands(i))
    ensures i < 0 ==> |FormatThousands(i)| >= 2 && FormatThousands(i)[0] == '-'
                      && ThreeDigitGroups(FormatThousands(i)[1..])
  {
    if i < 0 {
      GroupThousandsGroups(-i);
      assert FormatThousands(i)[1..] == GroupThousands(-i);
    } else {
      GroupThousandsGroups(i);
    }
  }

  /** Deleting the grouping commas gives back `str(i)`. */
  lemma FormatThousandsRoundTrip(i: int)
    ensures RemoveCommas(FormatThousands(i)) == IntToString(i)
  {
    if i < 0 {
      GroupThousandsRoundTrip(-i);
      RemoveCommasAppend("-", GroupThousands(-i));
    } else {
      GroupThousandsRoundTrip(i);
    }
  }
}
