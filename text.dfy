/**
 * The handful of Python `str` operations the scout relies on, over `string` (`seq<char>`):
 * `isspace`, `strip`, `rstrip(c)`, `split(c)`, `re.split(r'[,\s]+', ...)`, `in`, `lower`,
 * `str(n)` for a non-negative integer and `zfill`.
 */
module Text {

  /** Python's `str.isspace()` for one character (the characters `strip()` and `\s` remove). */
  predicate IsSpace(c: char) {
    || c == ' ' || ('\t' <= c <= '\r') || ('\U{1C}' <= c <= '\U{1F}')
    || c == '\U{85}' || c == '\U{A0}' || c == '\U{1680}' || ('\U{2000}' <= c <= '\U{200A}')
    || c == '\U{2028}' || c == '\U{2029}' || c == '\U{202F}' || c == '\U{205F}' || c == '\U{3000}'
  }

  /** No whitespace at either end: what `strip()` leaves behind. */
  predicate Trimmed(s: string) {
    s == [] || (!IsSpace(s[0]) && !IsSpace(s[|s| - 1]))
  }

  function TrimLeft(s: string): (r: string)
    ensures |r| <= |s| && r == s[|s| - |r|..]
    ensures r == [] || !IsSpace(r[0])
    ensures forall i :: 0 <= i < |s| - |r| ==> IsSpace(s[i])
  {
    if |s| > 0 && IsSpace(s[0]) then TrimLeft(s[1..]) else s
  }

  function TrimRight(s: string): (r: string)
    ensures |r| <= |s| && r == s[..|r|]
    ensures r == [] || !IsSpace(r[|r| - 1])
    ensures forall i :: |r| <= i < |s| ==> IsSpace(s[i])
  {
    if |s| > 0 && IsSpace(s[|s| - 1]) then TrimRight(s[..|s| - 1]) else s
  }

  /** Python's `s.strip()`: drops leading and trailing whitespace. */
  function Strip(s: string): (r: string)
    ensures |r| <= |s| && Trimmed(r)
  {
    TrimRight(TrimLeft(s))
  }

  /** Nothing but whitespace. */
  predicate AllSpace(s: string) {
    forall j :: 0 <= j < |s| ==> IsSpace(s[j])
  }

  /**
   * `strip()` removes whitespace at the two ends and nothing else: what it leaves is a slice of
   * `s` with only whitespace before it and after it, and no whitespace at its own ends.
   */
  lemma StripSpan(s: string)
    ensures Trimmed(Strip(s))
    ensures var r := Strip(s);
      exists i ::
        (0 <= i <= |s| - |r| && r == s[i..i + |r|] && AllSpace(s[..i]) && AllSpace(s[i + |r|..]))
  {
    var l := TrimLeft(s);
    var r := TrimRight(l);
    var i := |s| - |l|;
    LeftSpace(s);
    RightSpace(l);
    assert r == s[i..i + |r|];
    assert s[i + |r|..] == l[|r|..];
  }

  /** What `TrimLeft` drops is whitespace. */
  lemma LeftSpace(s: string)
    ensures AllSpace(s[..|s| - |TrimLeft(s)|])
  {
    var i := |s| - |TrimLeft(s)|;
    forall j | 0 <= j < i ensures IsSpace(s[..i][j]) {
      assert s[..i][j] == s[j];
    }
  }

  /** What `TrimRight` drops is whitespace. */
  lemma RightSpace(l: string)
    ensures AllSpace(l[|TrimRight(l)|..])
  {
    var n := |TrimRight(l)|;
    forall j | 0 <= j < |l| - n ensures IsSpace(l[n..][j]) {
      assert l[n..][j] == l[n + j];
    }
  }

  /** A string with no whitespace at its ends is its own `strip()`. */
  lemma StripTrimmed(s: string)
    requires Trimmed(s)
    ensures Strip(s) == s
  {
    assert TrimLeft(s) == s;
    assert |s| > 0 ==> !IsSpace(TrimLeft(s)[|s| - 1]);
  }

  /** `strip()` is idempotent. */
  lemma StripIdempotent(s: string)
    ensures Strip(Strip(s)) == Strip(s)
  {
    StripTrimmed(Strip(s));
  }

  /** Python's `s.rstrip(c)`: drops every trailing `c`. */
  function RStrip(s: string, c: char): (r: string)
    ensures |r| <= |s| && r == s[..|r|]
    ensures r == [] || r[|r| - 1] != c
    ensures forall i :: |r| <= i < |s| ==> s[i] == c
  {
    if |s| > 0 && s[|s| - 1] == c then RStrip(s[..|s| - 1], c) else s
  }

  /** `k` copies of `c`. */
  function Repeat(c: char, k: nat): (r: string)
    ensures |r| == k && forall i :: 0 <= i < k ==> r[i] == c
  {
    if k == 0 then [] else [c] + Repeat(c, k - 1)
  }

  /** Appending copies of `c` does not change what `rstrip(c)` leaves. */
  lemma {:induction false} RStripRepeat(s: string, c: char, k: nat)
    ensures RStrip(s + Repeat(c, k), c) == RStrip(s, c)
  {
    if k > 0 {
      var t := s + Repeat(c, k - 1);
      assert s + Repeat(c, k) == t + [c] by {
        assert Repeat(c, k) == Repeat(c, k - 1) + [c] by { RepeatSnoc(c, k - 1); }
      }
      assert (t + [c])[..|t + [c]| - 1] == t;
      assert RStrip(t + [c], c) == RStrip(t, c);
      RStripRepeat(s, c, k - 1);
    } else {
      assert s + Repeat(c, k) == s;
    }
  }

  lemma {:induction false} RepeatSnoc(c: char, k: nat)
    ensures Repeat(c, k + 1) == Repeat(c, k) + [c]
  {
    if k > 0 {
      RepeatSnoc(c, k - 1);
    }
  }

  // ---------------------------------------------------------------------------------------
  // str.split(c) with a one-character separator, and its inverse str.join

  /** Python's `s.split(c)`: the pieces between occurrences of `c`; never empty (`"".split(c) == [""]`). */
  function Split(s: string, c: char): (r: seq<string>)
    ensures |r| >= 1
    ensures forall i :: 0 <= i < |r| ==> c !in r[i]
    ensures |r| <= |s| + 1
  {
    if s == [] then [[]]
    else
      var rest := Split(s[1..], c);
      if s[0] == c then [[]] + rest else [[s[0]] + rest[0]] + rest[1..]
  }

  /** Python's `[c].join(ps)` for a non-empty list. */
  function Join(ps: seq<string>, c: char): string
    requires |ps| >= 1
  {
    if |ps| == 1 then ps[0] else ps[0] + [c] + Join(ps[1..], c)
  }

  /** Joining the pieces of a split gives back the string. */
  lemma {:induction false} JoinSplit(s: string, c: char)
    ensures Join(Split(s, c), c) == s
  {
    if s != [] {
      var rest := Split(s[1..], c);
      JoinSplit(s[1..], c);
      if s[0] != c {
        if |rest| == 1 {
        } else {
          assert Join(rest, c) == rest[0] + [c] + Join(rest[1..], c);
          assert ([s[0]] + rest[0]) + [c] + Join(rest[1..], c) == [s[0]] + Join(rest, c);
          assert ([[s[0]] + rest[0]] + rest[1..])[1..] == rest[1..];
        }
      }
    }
  }

  /** Splitting a join of separator-free pieces gives back the pieces. */
  lemma {:induction false} SplitJoin(ps: seq<string>, c: char)
    requires |ps| >= 1
    requires forall i :: 0 <= i < |ps| ==> c !in ps[i]
    ensures Split(Join(ps, c), c) == ps
  {
    if |ps| == 1 {
      SplitFree(ps[0], c);
    } else {
      SplitJoin(ps[1..], c);
      var w := [c] + Join(ps[1..], c);
      assert w[0] == c && w[1..] == Join(ps[1..], c);
      assert Split(w, c) == [[]] + ps[1..];
      SplitPrefix(ps[0], w, c);
      assert ps[0] + [c] + Join(ps[1..], c) == ps[0] + w;
      assert ps[0] + [] == ps[0] && [ps[0]] + ps[1..] == ps;
    }
  }

  lemma {:induction false} SplitFree(s: string, c: char)
    requires c !in s
    ensures Split(s, c) == [s]
  {
    if s != [] {
      assert s[0] != c;
      assert c !in s[1..] by { NotInTail(s, c); }
      SplitFree(s[1..], c);
      assert [s[0]] + s[1..] == s;
    }
  }

  lemma NotInTail<T>(s: seq<T>, x: T)
    requires |s| > 0 && x !in s
    ensures x !in s[1..]
  {
    assert s == [s[0]] + s[1..];
  }

  /** A separator-free head glues onto the first piece of what follows. */
  lemma {:induction false} SplitPrefix(t: string, u: string, c: char)
    requires c !in t
    ensures Split(t + u, c) == [t + Split(u, c)[0]] + Split(u, c)[1..]
  {
    var r := Split(u, c);
    if t == [] {
      assert t + u == u && t + r[0] == r[0];
      assert [r[0]] + r[1..] == r;
    } else {
      assert (t + u)[0] == t[0] != c;
      assert (t + u)[1..] == t[1..] + u;
      assert c !in t[1..] by { NotInTail(t, c); }
      SplitPrefix(t[1..], u, c);
      assert [t[0]] + (t[1..] + Split(u, c)[0]) == t + Split(u, c)[0];
    }
  }

  // ---------------------------------------------------------------------------------------
  // re.split(r'[,\s]+', s): pieces between maximal runs of commas and whitespace

  predicate IsSep(c: char) {
    c == ',' || IsSpace(c)
  }

  function SkipSeps(s: string): (r: string)
    ensures |r| <= |s| && r == s[|s| - |r|..]
    ensures r == [] || !IsSep(r[0])
    ensures |s| > 0 && IsSep(s[0]) ==> |r| < |s|
  {
    if |s| > 0 && IsSep(s[0]) then SkipSeps(s[1..]) else s
  }

  /**
   * `re.split(r'[,\s]+', s)`: a run of separators at the start or the end yields an empty
   * first or last piece, exactly as Python does.
   */
  function SplitRuns(s: string): (r: seq<string>)
    ensures |r| >= 1
    ensures forall i :: 0 <= i < |r| ==> forall j :: 0 <= j < |r[i]| ==> !IsSep(r[i][j])
    decreases |s|
  {
    if s == [] then [[]]
    else if IsSep(s[0]) then [[]] + SplitRuns(SkipSeps(s))
    else
      var rest := SplitRuns(s[1..]);
      [[s[0]] + rest[0]] + rest[1..]
  }

  /** `sep.join(ps)` with a string separator. */
  function JoinWith(ps: seq<string>, sep: string): string
    requires |ps| >= 1
  {
    if |ps| == 1 then ps[0] else ps[0] + sep + JoinWith(ps[1..], sep)
  }

  predicate SepFree(t: string) {
    forall j :: 0 <= j < |t| ==> !IsSep(t[j])
  }

  predicate AllSeps(t: string) {
    forall j :: 0 <= j < |t| ==> IsSep(t[j])
  }

  /**
   * Tokens joined by any non-empty run of commas and whitespace split back into the same tokens;
   * so `"a, b, c"` and `"a b c"` give the same pieces.
   */
  lemma {:induction false} SplitRunsJoin(ps: seq<string>, sep: string)
    requires |ps| >= 1 && |sep| >= 1 && AllSeps(sep)
    requires forall i :: 0 <= i < |ps| ==> |ps[i]| >= 1 && SepFree(ps[i])
    ensures SplitRuns(JoinWith(ps, sep)) == ps
  {
    if |ps| == 1 {
      SplitRunsFree(ps[0]);
    } else {
      var tail := JoinWith(ps[1..], sep);
      SplitRunsJoin(ps[1..], sep);
      assert tail[0] == ps[1][0] by { JoinWithHead(ps[1..], sep); }
      assert !IsSep(ps[1][0]);
      SplitRunsSeps(sep, tail);
      SplitRunsPrefix(ps[0], sep + tail);
      assert ps[0] + sep + tail == ps[0] + (sep + tail);
      assert ps[0] + [] == ps[0] && [ps[0]] + ps[1..] == ps;
    }
  }

  lemma {:induction false} JoinWithHead(ps: seq<string>, sep: string)
    requires |ps| >= 1 && |ps[0]| >= 1
    ensures |JoinWith(ps, sep)| >= 1 && JoinWith(ps, sep)[0] == ps[0][0]
  {
  }

  lemma {:induction false} JoinWithLast(ps: seq<string>, sep: string)
    requires |ps| >= 1 && |ps[|ps| - 1]| >= 1
    ensures var j := JoinWith(ps, sep); |j| >= 1 && j[|j| - 1] == ps[|ps| - 1][|ps[|ps| - 1]| - 1]
  {
    if |ps| > 1 {
      JoinWithLast(ps[1..], sep);
    }
  }

  lemma {:induction false} SplitRunsFree(t: string)
    requires SepFree(t)
    ensures SplitRuns(t) == [t]
  {
    if t != [] {
      assert !IsSep(t[0]);
      assert SepFree(t[1..]) by {
        forall j | 0 <= j < |t| - 1 ensures !IsSep(t[1..][j]) { assert t[1..][j] == t[j + 1]; }
      }
      SplitRunsFree(t[1..]);
      assert [t[0]] + t[1..] == t;
    }
  }

  lemma {:induction false} SplitRunsPrefix(t: string, u: string)
    requires SepFree(t)
    ensures SplitRuns(t + u) == [t + SplitRuns(u)[0]] + SplitRuns(u)[1..]
  {
    var r := SplitRuns(u);
    if t == [] {
      assert t + u == u && t + r[0] == r[0];
      assert [r[0]] + r[1..] == r;
    } else {
      assert (t + u)[0] == t[0] && !IsSep(t[0]);
      assert SepFree(t[1..]) by {
        forall j | 0 <= j < |t| - 1 ensures !IsSep(t[1..][j]) { assert t[1..][j] == t[j + 1]; }
      }
      assert (t + u)[1..] == t[1..] + u;
      SplitRunsPrefix(t[1..], u);
      assert [t[0]] + (t[1..] + SplitRuns(u)[0]) == t + SplitRuns(u)[0];
    }
  }

  lemma {:induction false} SplitRunsSeps(sep: string, u: string)
    requires |sep| >= 1 && AllSeps(sep) && (u == [] || !IsSep(u[0]))
    ensures SplitRuns(sep + u) == [[]] + SplitRuns(u)
  {
    SkipSepsPrefix(sep, u);
  }

  lemma {:induction false} SkipSepsPrefix(sep: string, u: string)
    requires AllSeps(sep) && (u == [] || !IsSep(u[0]))
    ensures SkipSeps(sep + u) == u
  {
    if sep != [] {
      assert (sep + u)[1..] == sep[1..] + u;
      SkipSepsPrefix(sep[1..], u);
    }
  }

  // ---------------------------------------------------------------------------------------
  // substring test and lower-casing

  predicate StartsWith(s: string, p: string) {
    |p| <= |s| && s[..|p|] == p
  }

  /** Python's `sub in s`. */
  predicate Contains(s: string, sub: string)
    decreases |s|
  {
    StartsWith(s, sub) || (|s| > 0 && Contains(s[1..], sub))
  }

  /** `Contains` holds exactly when `sub` occurs at some position of `s`. */
  lemma {:induction false} ContainsAt(s: string, sub: string, k: nat)
    requires k + |sub| <= |s| && s[k..k + |sub|] == sub
    ensures Contains(s, sub)
  {
    if k > 0 {
      assert s[1..][k - 1..k - 1 + |sub|] == s[k..k + |sub|];
      ContainsAt(s[1..], sub, k - 1);
    }
  }

  lemma {:induction false} ContainsWitness(s: string, sub: string) returns (k: nat)
    requires Contains(s, sub)
    ensures k + |sub| <= |s| && s[k..k + |sub|] == sub
  {
    if StartsWith(s, sub) {
      k := 0;
    } else {
      var k' := ContainsWitness(s[1..], sub);
      assert s[1..][k'..k' + |sub|] == s[k' + 1..k' + 1 + |sub|];
      k := k' + 1;
    }
  }

  /** A string in which the first character of `sub` never occurs does not contain `sub`. */
  lemma {:induction false} NotContains(s: string, sub: string)
    requires |sub| >= 1 && forall i :: 0 <= i < |s| ==> s[i] != sub[0]
    ensures !Contains(s, sub)
  {
    if |s| > 0 {
      assert |sub| <= |s| ==> s[..|sub|][0] == s[0];
      NotContains(s[1..], sub);
    } else {
      assert !StartsWith(s, sub);
    }
  }

  function LowerChar(c: char): char {
    if 'A' <= c <= 'Z' then (c as int + 32) as char else c
  }

  /**
   * `s.lower()` on the ASCII letters: no capital is left, each capital becomes its small letter
   * and every other character is kept.
   */
  function Lower(s: string): (r: string)
    ensures |r| == |s|
    ensures forall i :: 0 <= i < |r| ==> !('A' <= r[i] <= 'Z')
    ensures forall i :: 0 <= i < |s| && 'A' <= s[i] <= 'Z' ==> r[i] as int == s[i] as int + 32
    ensures forall i :: 0 <= i < |s| && !('A' <= s[i] <= 'Z') ==> r[i] == s[i]
  {
    seq(|s|, i requires 0 <= i < |s| => LowerChar(s[i]))
  }

  // ---------------------------------------------------------------------------------------
  // decimal digits, str(n) and zfill

  predicate IsDigit(c: char) {
    '0' <= c <= '9'
  }

  predicate AllDigits(s: string) {
    forall i :: 0 <= i < |s| ==> IsDigit(s[i])
  }

  /** The number a string of decimal digits denotes (leading zeros allowed). */
  function DigitsValue(s: string): nat
    requires AllDigits(s)
  {
    if s == [] then 0 else DigitsValue(s[..|s| - 1]) * 10 + (s[|s| - 1] as int - '0' as int)
  }

  function DigitChar(d: nat): (c: char)
    requires d < 10
    ensures IsDigit(c) && c as int - '0' as int == d
  {
    ('0' as int + d) as char
  }

  /** Python's `str(n)` for `n >= 0`: decimal, no leading zero. */
  function NatToString(n: nat): (r: string)
    ensures |r| >= 1 && AllDigits(r)
    ensures |r| > 1 ==> r[0] != '0'
  {
    if n < 10 then [DigitChar(n)] else NatToString(n / 10) + [DigitChar(n % 10)]
  }

  /** Reading `str(n)` back as digits gives `n`. */
  lemma {:induction false} NatToStringValue(n: nat)
    ensures DigitsValue(NatToString(n)) == n
  {
    if n >= 10 {
      var s := NatToString(n);
      assert s[..|s| - 1] == NatToString(n / 10);
      NatToStringValue(n / 10);
    }
  }

  /**
   * Python's `s.zfill(w)` for a string without sign: pads with `'0'` on the left up to width
   * `w`, and never truncates.
   */
  function ZFill(s: string, w: nat): (r: string)
    ensures |r| == if |s| >= w then |s| else w
    ensures r == Repeat('0', |r| - |s|) + s
  {
    if |s| >= w then s else Repeat('0', w - |s|) + s
  }

  /** Leading zeros do not change the value of a digit string. */
  lemma {:induction false} LeadingZerosValue(k: nat, s: string)
    requires AllDigits(s)
    ensures AllDigits(Repeat('0', k) + s)
    ensures DigitsValue(Repeat('0', k) + s) == DigitsValue(s)
  {
    var t := Repeat('0', k) + s;
    assert AllDigits(t) by {
      forall i | 0 <= i < |t| ensures IsDigit(t[i]) {
        if i >= k { assert t[i] == s[i - k]; }
      }
    }
    if s == [] {
      assert t == Repeat('0', k);
      ZerosValue(k);
    } else {
      var s' := s[..|s| - 1];
      assert t[..|t| - 1] == Repeat('0', k) + s';
      LeadingZerosValue(k, s');
    }
  }

  lemma {:induction false} ZerosValue(k: nat)
    ensures AllDigits(Repeat('0', k)) && DigitsValue(Repeat('0', k)) == 0
  {
    if k > 0 {
      assert Repeat('0', k)[..k - 1] == Repeat('0', k - 1) by { RepeatSnoc('0', k - 1); }
      ZerosValue(k - 1);
    }
  }

  /** A zero-padded `str(n)` still reads back as `n`. */
  lemma ZFillValue(n: nat, w: nat)
    ensures AllDigits(ZFill(NatToString(n), w))
    ensures DigitsValue(ZFill(NatToString(n), w)) == n
  {
    var s := NatToString(n);
    LeadingZerosValue(|ZFill(s, w)| - |s|, s);
    NatToStringValue(n);
  }
}
