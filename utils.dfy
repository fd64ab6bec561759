/**
 * The pure helpers of lib/utils/index.ts: duration text, slugs, truncation
 * at a word boundary, reading time, star ratings, e-mail and year checks, the
 * generic key sort and the three lookup tables with a default.
 */
module Utils {
  import opened Wrappers
  import opened JsText
  import opened Sorting
  import JsValue
  import opened Types

  // ---------------------------------------------------------------- durations

  /** `Math.trunc(a / b)`: the quotient rounded toward zero. */
  function JsQuot(a: int, b: int): int
    requires b > 0
  {
    if a >= 0 then a / b else -((-a) / b)
  }

  /** JavaScript's `%` on integers: the remainder takes the sign of the dividend. */
  function JsRem(a: int, b: int): (r: int)
    requires b > 0
    ensures -b < r < b
    ensures a >= 0 ==> r == a % b
    ensures a <= 0 ==> r <= 0
  {
    if a >= 0 then a % b else -((-a) % b)
  }

  /** The remainder completes the quotient rounded toward zero, which pins it for either sign. */
  lemma JsRemTruncates(a: int, b: int)
    requires b > 0
    ensures a == b * JsQuot(a, b) + JsRem(a, b)
  {
    if a < 0 {
      var q := (-a) / b;
      assert -a == b * q + (-a) % b;
      assert b * -q == -(b * q);
    }
  }

  /** A negative count keeps its sign in both parts: -30 minutes is "-1h -30m". */
  lemma NegativeDuration()
    ensures JsRem(-30, 60) == -30 && -30 / 60 == -1
    ensures FormatDuration(-30) == "-1h -30m"
  {
    assert IntToString(-1) == "-1" by { assert NatToString(1) == "1"; }
    assert IntToString(-30) == "-30" by { assert NatToString(30) == NatToString(3) + [DigitChar(0)] == "30"; }
  }

  /** `formatDuration`: whole hours by `Math.floor`, the rest by `%`. */
  function FormatDuration(minutes: int): string {
    var hours := minutes / 60;  // floor division, as the divisor is positive
    var mins := JsRem(minutes, 60);
    if hours == 0 then IntToString(mins) + "m"
    else if mins == 0 then IntToString(hours) + "h"
    else IntToString(hours) + "h " + IntToString(mins) + "m"
  }

  /** Reads the three forms "Mm", "Hh" and "Hh Mm" back into minutes. */
  function ParseDuration(s: string): Option<nat> {
    if |s| < 2 then None
    else
      var body := s[..|s| - 1];
      if s[|s| - 1] == 'h' then
        if AllDigits(body) then Some(60 * DigitsValue(body)) else None
      else if s[|s| - 1] != 'm' then None
      else if AllDigits(body) then Some(DigitsValue(body))
      else ParseHoursMinutes(body)
  }

  /** Reads "Hh M", the part of "Hh Mm" before its unit. */
  function ParseHoursMinutes(body: string): Option<nat> {
    match IndexOf(body, "h ")
    case None => None
    case Some(k) => HoursAndMinutes(body[..k], body[k + 2..])
  }

  /** Two non-empty digit runs as hours and minutes. */
  function HoursAndMinutes(h: string, m: string): Option<nat> {
    if |h| > 0 && |m| > 0 && AllDigits(h) && AllDigits(m)
    then Some(60 * DigitsValue(h) + DigitsValue(m))
    else None
  }

  /** A string of digits holds no separator that starts with a non-digit. */
  lemma DigitsHoldNo(x: string, sep: string)
    requires AllDigits(x) && |sep| > 0 && !IsDigit(sep[0])
    ensures !Contains(x, sep)
  {
    forall i | 0 <= i <= |x| - |sep| ensures !OccursAt(x, sep, i) {
      assert x[i..i + |sep|][0] == x[i];
    }
  }

  /**
   * For a non-negative count of minutes the text is "Mm" below an hour, "Hh" for
   * whole hours and "Hh Mm" otherwise, with M below 60; reading it back gives
   * the count again.
   */
  lemma DurationRoundTrip(minutes: nat)
    ensures ParseDuration(FormatDuration(minutes)) == Some(minutes)
  {
    var hours, mins := minutes / 60, minutes % 60;
    DigitsOfNat(hours);
    DigitsOfNat(mins);
    if hours == 0 {
      assert FormatDuration(minutes) == NatToString(mins) + "m";
      ReadSuffixed(NatToString(mins), 'm');
    } else if mins == 0 {
      assert FormatDuration(minutes) == NatToString(hours) + "h";
      ReadSuffixed(NatToString(hours), 'h');
    } else {
      assert FormatDuration(minutes) == NatToString(hours) + "h " + NatToString(mins) + "m";
      ReadBoth(NatToString(hours), NatToString(mins));
      assert HoursAndMinutes(NatToString(hours), NatToString(mins)) == Some(60 * hours + mins);
    }
  }

  /** "Dm" and "Dh" read back as D minutes and D hours. */
  lemma ReadSuffixed(d: string, unit: char)
    requires |d| > 0 && AllDigits(d) && (unit == 'm' || unit == 'h')
    ensures ParseDuration(d + [unit]) == Some(if unit == 'h' then 60 * DigitsValue(d) else DigitsValue(d))
  {
    var s := d + [unit];
    assert s[..|s| - 1] == d;
  }

  /** "Hh Mm" reads back as its hours part and its minutes part. */
  lemma ReadBoth(h: string, m: string)
    requires |h| > 0 && |m| > 0 && AllDigits(h) && AllDigits(m)
    ensures ParseDuration(h + "h " + m + "m") == HoursAndMinutes(h, m)
  {
    var body := h + "h " + m;
    HoursNotDigits(h, m);
    ReadMinutesUnit(body);
    ReadHoursMinutes(h, m);
  }

  lemma HoursNotDigits(h: string, m: string)
    ensures !AllDigits(h + "h " + m)
  {
    var body := h + "h " + m;
    assert body[|h|] == 'h';
  }

  /** A text ending in "m" that is not all digits is read as hours and minutes. */
  lemma ReadMinutesUnit(body: string)
    requires !AllDigits(body)
    ensures ParseDuration(body + "m") == ParseHoursMinutes(body)
  {
    var s := body + "m";
    assert s[..|s| - 1] == body;
  }

  lemma ReadHoursMinutes(h: string, m: string)
    requires AllDigits(h)
    ensures ParseHoursMinutes(h + "h " + m) == HoursAndMinutes(h, m)
  {
    var body := h + "h " + m;
    HoursSeparatorFound(h, m);
    HoursSeparatorAt(body, |h|);
    assert body[..|h|] == h;
    assert body[|h| + 2..] == m;
  }

  lemma HoursSeparatorAt(body: string, k: nat)
    requires IndexOf(body, "h ") == Some(k)
    ensures k + 2 <= |body|
    ensures ParseHoursMinutes(body) == HoursAndMinutes(body[..k], body[k + 2..])
  {
    assert OccursAt(body, "h ", k);
  }

  /** In "Hh M" the first "h " is the one after the hours. */
  lemma HoursSeparatorFound(h: string, m: string)
    requires AllDigits(h)
    ensures IndexOf(h + "h " + m, "h ") == Some(|h|)
  {
    DigitsHoldNo(h, "h ");
    IndexOfSeparator(h, "h ", m);
  }

  /** Different non-negative counts never share a duration text. */
  lemma DurationInjective(a: nat, b: nat)
    requires FormatDuration(a) == FormatDuration(b)
    ensures a == b
  {
    DurationRoundTrip(a);
    DurationRoundTrip(b);
  }

  /** The three forms: minutes alone under an hour, hours alone on a whole hour, else both. */
  lemma DurationForms(minutes: nat)
    ensures minutes < 60 ==> FormatDuration(minutes) == IntToString(minutes) + "m"
    ensures minutes >= 60 && minutes % 60 == 0 ==> FormatDuration(minutes) == IntToString(minutes / 60) + "h"
    ensures minutes >= 60 && minutes % 60 != 0 ==>
      FormatDuration(minutes) == IntToString(minutes / 60) + "h " + IntToString(minutes % 60) + "m"
    ensures FormatDuration(0) == "0m"
  {
    assert IntToString(0) == "0";
  }

  // ---------------------------------------------------------------- slugs

  /** The characters of `[\s_-]`. */
  predicate IsSeparator(c: char) { IsSpace(c) || c == '_' || c == '-' }

  /** `.replace(/[^\w\s-]/g, "")`. */
  function KeepSlugChars(s: string): (r: string)
    ensures forall i :: 0 <= i < |r| ==> IsWordChar(r[i]) || IsSpace(r[i]) || r[i] == '-'
  {
    if s == [] then []
    else (if IsWordChar(s[0]) || IsSpace(s[0]) || s[0] == '-' then [s[0]] else []) + KeepSlugChars(s[1..])
  }

  /** The length of the run of separators that starts `s`. */
  function SeparatorRun(s: string): (n: nat)
    ensures n <= |s|
    ensures forall i :: 0 <= i < n ==> IsSeparator(s[i])
    ensures n == |s| || !IsSeparator(s[n])
  {
    if s == [] || !IsSeparator(s[0]) then 0 else 1 + SeparatorRun(s[1..])
  }

  /** `.replace(/[\s_-]+/g, "-")`: every maximal run of separators becomes one dash. */
  function CollapseSeparators(s: string): string
    decreases |s|
  {
    if s == [] then []
    else if IsSeparator(s[0]) then "-" + CollapseSeparators(s[SeparatorRun(s)..])
    else [s[0]] + CollapseSeparators(s[1..])
  }

  function DashPrefix(s: string): (n: nat)
    ensures n <= |s|
    ensures forall i :: 0 <= i < n ==> s[i] == '-'
    ensures n == |s| || s[n] != '-'
  {
    if s == [] || s[0] != '-' then 0 else 1 + DashPrefix(s[1..])
  }

  function DashSuffix(s: string): (n: nat)
    ensures n <= |s|
    ensures forall i :: |s| - n <= i < |s| ==> s[i] == '-'
    ensures n == |s| || s[|s| - n - 1] != '-'
  {
    if s == [] || s[|s| - 1] != '-' then 0 else 1 + DashSuffix(s[..|s| - 1])
  }

  /** `.replace(/^-+|-+$/g, "")`. */
  function TrimDashes(s: string): string {
    var t := s[DashPrefix(s)..];
    t[..|t| - DashSuffix(t)]
  }

  /** `generateSlug`. */
  function GenerateSlug(text: string): string {
    TrimDashes(CollapseSeparators(KeepSlugChars(Lower(text))))
  }

  predicate IsSlugChar(c: char) { IsLower(c) || IsDigit(c) || c == '-' }

  predicate SlugChars(s: string) { forall i :: 0 <= i < |s| ==> IsSlugChar(s[i]) }

  predicate NoDoubleDash(s: string) {
    forall i :: 0 <= i < |s| - 1 ==> !(s[i] == '-' && s[i + 1] == '-')
  }

  /** Lower-case letters, digits and single inner dashes. */
  predicate IsSlug(s: string) {
    SlugChars(s) && NoDoubleDash(s) && (s == [] || (s[0] != '-' && s[|s| - 1] != '-'))
  }

  /** What is left after lowering and dropping: lower-case letters, digits, `_`, white space and `-`. */
  predicate Cleaned(s: string) {
    forall i :: 0 <= i < |s| ==> IsLower(s[i]) || IsDigit(s[i]) || IsSeparator(s[i])
  }

  lemma {:induction false} CollapseShape(s: string)
    requires Cleaned(s)
    ensures SlugChars(CollapseSeparators(s)) && NoDoubleDash(CollapseSeparators(s))
    ensures CollapseSeparators(s) != [] && CollapseSeparators(s)[0] == '-' ==> IsSeparator(s[0])
    decreases |s|
  {
    if s != [] {
      if IsSeparator(s[0]) {
        var rest := s[SeparatorRun(s)..];
        CollapseShape(rest);
      } else {
        CollapseShape(s[1..]);
      }
    }
  }

  /** Every slug is made of lower-case letters, digits and single inner dashes. */
  lemma SlugShape(text: string)
    ensures IsSlug(GenerateSlug(text))
  {
    var lowered := Lower(text);
    assert forall i :: 0 <= i < |lowered| ==> !IsUpper(lowered[i]);
    var kept := KeepSlugChars(lowered);
    KeepCleans(lowered);
    CollapseShape(kept);
    TrimDashesShape(CollapseSeparators(kept));
  }

  lemma TrimDashesShape(c: string)
    requires SlugChars(c) && NoDoubleDash(c)
    ensures IsSlug(TrimDashes(c))
  {
    var t := c[DashPrefix(c)..];
    SliceShape(c, DashPrefix(c), |c|);
    assert c[DashPrefix(c)..|c|] == t;
    var r := t[..|t| - DashSuffix(t)];
    SliceShape(t, 0, |t| - DashSuffix(t));
    assert t[0..|t| - DashSuffix(t)] == r;
    if r != [] {
      assert r[0] == t[0] == c[DashPrefix(c)];
      assert r[|r| - 1] == t[|t| - DashSuffix(t) - 1];
    }
  }

  lemma {:induction false} KeepCleans(s: string)
    requires forall i :: 0 <= i < |s| ==> !IsUpper(s[i])
    ensures Cleaned(KeepSlugChars(s))
  {
    if s != [] {
      KeepCleans(s[1..]);
    }
  }

  lemma SliceShape(s: string, i: nat, j: nat)
    requires i <= j <= |s|
    requires SlugChars(s) && NoDoubleDash(s)
    ensures SlugChars(s[i..j]) && NoDoubleDash(s[i..j])
  {
    forall k | 0 <= k < j - i - 1 ensures !(s[i..j][k] == '-' && s[i..j][k + 1] == '-') {
      assert s[i..j][k] == s[i + k] && s[i..j][k + 1] == s[i + k + 1];
    }
  }

  lemma {:induction false} KeepAll(s: string)
    requires SlugChars(s)
    ensures KeepSlugChars(s) == s
  {
    if s != [] { KeepAll(s[1..]); }
  }

  lemma {:induction false} CollapseKeeps(s: string)
    requires SlugChars(s) && NoDoubleDash(s)
    ensures CollapseSeparators(s) == s
  {
    if s != [] {
      SliceShape(s, 1, |s|);
      assert s[1..|s|] == s[1..];
      CollapseKeeps(s[1..]);
      CollapseHead(s);
      assert s == [s[0]] + s[1..];
    }
  }

  /** In a text with no double dash, the first character stays as it is. */
  lemma CollapseHead(s: string)
    requires s != [] && SlugChars(s) && NoDoubleDash(s)
    ensures CollapseSeparators(s) == [s[0]] + CollapseSeparators(s[1..])
  {
    if s[0] == '-' {
      assert SeparatorRun(s) == 1 by {
        if |s| > 1 { assert s[1] != '-' && !IsSeparator(s[1]); }
      }
    }
  }

  /** A slug is its own slug. */
  lemma SlugFixed(s: string)
    requires IsSlug(s)
    ensures GenerateSlug(s) == s
  {
    assert Lower(s) == s;
    KeepAll(s);
    CollapseKeeps(s);
    assert DashPrefix(s) == 0;
    assert s[0..] == s;
    assert DashSuffix(s) == 0;
  }

  /** `generateSlug` is idempotent. */
  lemma SlugIdempotent(text: string)
    ensures GenerateSlug(GenerateSlug(text)) == GenerateSlug(text)
  {
    SlugShape(text);
    SlugFixed(GenerateSlug(text));
  }

  predicate IsAlnum(c: char) { IsLower(c) || IsDigit(c) }

  /** The lower-case letters and digits of `s`, in order. */
  function Alnum(s: string): string {
    if s == [] then [] else (if IsAlnum(s[0]) then [s[0]] else []) + Alnum(s[1..])
  }

  lemma {:induction false} AlnumAppend(a: string, b: string)
    ensures Alnum(a + b) == Alnum(a) + Alnum(b)
  {
    if a == [] {
      assert a + b == b;
    } else {
      var head := if IsAlnum(a[0]) then [a[0]] else [];
      assert (a + b)[0] == a[0];
      assert (a + b)[1..] == a[1..] + b;
      AlnumAppend(a[1..], b);
      assert Alnum(a + b) == head + (Alnum(a[1..]) + Alnum(b));
      assert head + (Alnum(a[1..]) + Alnum(b)) == (head + Alnum(a[1..])) + Alnum(b);
    }
  }

  /** Dropping a leading or trailing part without letters or digits keeps the letters and digits. */
  lemma AlnumSlices(s: string, i: nat, j: nat)
    requires i <= j <= |s|
    requires forall k :: 0 <= k < i ==> !IsAlnum(s[k])
    requires forall k :: j <= k < |s| ==> !IsAlnum(s[k])
    ensures Alnum(s[i..j]) == Alnum(s)
  {
    AlnumNoneIn(s, 0, i);
    AlnumNoneIn(s, j, |s|);
    CutTwice(s, i, j);
    AlnumFrame(s[0..i], s[i..j], s[j..|s|]);
  }

  lemma CutTwice(s: string, i: nat, j: nat)
    requires i <= j <= |s|
    ensures s == s[0..i] + s[i..j] + s[j..|s|]
  {
  }

  lemma AlnumFrame(a: string, m: string, b: string)
    requires Alnum(a) == [] && Alnum(b) == []
    ensures Alnum(a + m + b) == Alnum(m)
  {
    AlnumAppend(a + m, b);
    AlnumAppend(a, m);
  }

  lemma {:induction false} AlnumNoneIn(s: string, lo: nat, hi: nat)
    requires lo <= hi <= |s|
    requires forall k :: lo <= k < hi ==> !IsAlnum(s[k])
    ensures Alnum(s[lo..hi]) == []
    decreases hi - lo
  {
    if lo < hi {
      assert s[lo..hi][0] == s[lo];
      assert s[lo..hi][1..] == s[lo + 1..hi];
      AlnumNoneIn(s, lo + 1, hi);
    }
  }

  lemma {:induction false} AlnumKeep(s: string)
    ensures Alnum(KeepSlugChars(s)) == Alnum(s)
  {
    if s != [] {
      AlnumKeep(s[1..]);
      var head := if IsWordChar(s[0]) || IsSpace(s[0]) || s[0] == '-' then [s[0]] else [];
      AlnumAppend(head, KeepSlugChars(s[1..]));
    }
  }

  lemma {:induction false} AlnumCollapse(s: string)
    ensures Alnum(CollapseSeparators(s)) == Alnum(s)
    decreases |s|
  {
    if s != [] {
      if IsSeparator(s[0]) {
        var rest := s[SeparatorRun(s)..];
        AlnumCollapse(rest);
        AlnumAppend("-", CollapseSeparators(rest));
        AlnumSlices(s, SeparatorRun(s), |s|);
        assert s[SeparatorRun(s)..|s|] == rest;
      } else {
        AlnumCollapse(s[1..]);
        AlnumAppend([s[0]], CollapseSeparators(s[1..]));
      }
    }
  }

  /** The slug keeps every lower-case letter and digit of the lowered text, in order, and adds none. */
  lemma SlugKeepsContent(text: string)
    ensures Alnum(GenerateSlug(text)) == Alnum(Lower(text))
  {
    var kept := KeepSlugChars(Lower(text));
    AlnumKeep(Lower(text));
    AlnumCollapse(kept);
    TrimDashesAlnum(CollapseSeparators(kept));
  }

  /** Trimming dashes drops no letter or digit. */
  lemma TrimDashesAlnum(c: string)
    ensures Alnum(TrimDashes(c)) == Alnum(c)
  {
    var t := c[DashPrefix(c)..];
    DashesAround(c, DashPrefix(c), |t| - DashSuffix(t));
  }

  /** Dashes before position `p` and after `k` more characters hold no letter or digit. */
  lemma DashesAround(c: string, p: nat, k: nat)
    requires p <= |c| && k <= |c[p..]|
    requires forall i :: 0 <= i < p ==> c[i] == '-'
    requires forall i :: |c[p..]| - (|c[p..]| - k) <= i < |c[p..]| ==> c[p..][i] == '-'
    ensures Alnum(c[p..][..k]) == Alnum(c)
  {
    var t := c[p..];
    DashesNoAlnum(c, 0, p);
    DashesNoAlnum(t, k, |t|);
    CutInside(c, p, k);
    AlnumFrame(c[0..p], t[..k], t[k..|t|]);
  }

  lemma DashesNoAlnum(s: string, lo: nat, hi: nat)
    requires lo <= hi <= |s|
    requires forall i :: lo <= i < hi ==> s[i] == '-'
    ensures Alnum(s[lo..hi]) == []
  {
    AlnumNoneIn(s, lo, hi);
  }

  /** `c` is its first `p` characters, then `k` more, then the rest. */
  lemma CutInside(c: string, p: nat, k: nat)
    requires p <= |c| && k <= |c[p..]|
    ensures c == c[0..p] + c[p..][..k] + c[p..][k..|c[p..]|]
  {
  }

  // ---------------------------------------------------------------- truncation

  /** The length of the run of non-space characters that ends `s`. */
  function WordSuffix(s: string): (n: nat)
    ensures n <= |s|
    ensures forall i :: |s| - n <= i < |s| ==> !IsSpace(s[i])
    ensures n == |s| || IsSpace(s[|s| - n - 1])
  {
    if s == [] || IsSpace(s[|s| - 1]) then 0 else 1 + WordSuffix(s[..|s| - 1])
  }

  /** `u` matches `\s+\S*$` from its first character: white space, then none up to the end. */
  predicate SpaceThenWord(u: string) {
    |u| > 0 && IsSpace(u[0]) && forall i, j :: 0 <= i < j < |u| && !IsSpace(u[i]) ==> !IsSpace(u[j])
  }

  /**
   * `.replace(/\s+\S*$/, "")`: the text is cut where the leftmost match starts;
   * with no match it is unchanged.
   */
  function DropLastWord(s: string): (r: string)
    ensures |r| <= |s| && r == s[..|r|]
    ensures forall i :: 0 <= i < |r| ==> !SpaceThenWord(s[i..])
    ensures r == s || SpaceThenWord(s[|r|..])
  {
    var w := WordSuffix(s);
    if w == |s| then s
    else
      var front := s[..|s| - w];
      var r := front[..|front| - SpaceSuffix(front)];
      assert SpaceThenWord(s[|r|..]) by {
        var u := s[|r|..];
        forall i, j | 0 <= i < j < |u| && !IsSpace(u[i]) ensures !IsSpace(u[j]) {
          assert u[i] == s[|r| + i];
          assert u[j] == s[|r| + j];
        }
      }
      forall i | 0 <= i < |r| ensures !SpaceThenWord(s[i..]) {
        var u := s[i..];
        assert u[|r| - 1 - i] == s[|r| - 1];
        assert u[|r| - i] == s[|r|];
      }
      r
  }

  /**
   * `truncateText`: the text itself when it fits, otherwise its first
   * `maxLength` characters (none for a negative length, as `substring` clamps)
   * cut before their last run of white space, followed by "...".
   */
  function TruncateText(text: string, maxLength: int): (r: string)
    ensures |text| <= maxLength ==> r == text
    ensures |text| > maxLength ==>
      var n := if maxLength < 0 then 0 else maxLength;
      |r| >= 3 && r[|r| - 3..] == "..."
      && var p := r[..|r| - 3]; p == DropLastWord(text[..n]) && |p| <= n && p == text[..|p|]
  {
    if |text| <= maxLength then text
    else
      var n := if maxLength < 0 then 0 else maxLength;
      var p := DropLastWord(text[..n]);
      assert (p + "...")[..|p|] == p;
      p + "..."
  }

  // ---------------------------------------------------------------- reading time

  /** The length of the run of non-space characters that starts `s`. */
  function WordPrefix(s: string): (n: nat)
    ensures n <= |s|
    ensures forall i :: 0 <= i < n ==> !IsSpace(s[i])
    ensures n == |s| || IsSpace(s[n])
  {
    if s == [] || IsSpace(s[0]) then 0 else 1 + WordPrefix(s[1..])
  }

  /** `s.split(/\s+/)`: the pieces between maximal runs of white space. */
  function SplitOnSpace(s: string): (r: seq<string>)
    ensures |r| >= 1
    ensures Trimmed(s) ==> |r| == WordCount(s)
    decreases |s|
  {
    var n := WordPrefix(s);
    if n == |s| then
      OneWord(s);
      [s]
    else
      var rest := s[n + SpacePrefix(s[n..])..];
      NextWord(s, n);
      [s[..n]] + SplitOnSpace(rest)
  }

  /** A text with no white space at either end. */
  predicate Trimmed(s: string) {
    s != [] && !IsSpace(s[0]) && !IsSpace(s[|s| - 1])
  }

  /**
   * The number of words of `s`: the non-space characters that start `s` or
   * follow white space, `atStart` saying whether the position before `s` counts
   * as a start.
   */
  function WordStarts(s: string, atStart: bool): nat {
    if s == [] then 0
    else (if atStart && !IsSpace(s[0]) then 1 else 0) + WordStarts(s[1..], IsSpace(s[0]))
  }

  function WordCount(s: string): nat { WordStarts(s, true) }

  /** `calculateReadingTime`: `Math.ceil` of the piece count over 200 words a minute. */
  function ReadingTime(text: string): int {
    (|SplitOnSpace(Trim(text))| + 199) / 200
  }

  lemma {:induction false} StartsWithWord(w: string, x: string, atStart: bool)
    requires |w| > 0 && NoSpace(w)
    ensures WordStarts(w + x, atStart) == (if atStart then 1 else 0) + WordStarts(x, false)
    decreases |w|
  {
    assert (w + x)[0] == w[0];
    assert (w + x)[1..] == w[1..] + x;
    if |w| > 1 {
      StartsWithWord(w[1..], x, false);
    } else {
      assert w[1..] + x == x;
    }
  }

  lemma {:induction false} StartsWithSpace(sp: string, x: string, atStart: bool)
    requires forall i :: 0 <= i < |sp| ==> IsSpace(sp[i])
    ensures WordStarts(sp + x, atStart) == WordStarts(x, if sp == [] then atStart else true)
    decreases |sp|
  {
    if sp == [] {
      assert sp + x == x;
    } else {
      assert (sp + x)[0] == sp[0];
      assert (sp + x)[1..] == sp[1..] + x;
      StartsWithSpace(sp[1..], x, true);
    }
  }

  lemma {:induction false} StartsEndingInSpace(x: string, sp: string, atStart: bool)
    requires forall i :: 0 <= i < |sp| ==> IsSpace(sp[i])
    ensures WordStarts(x + sp, atStart) == WordStarts(x, atStart)
    decreases |x|
  {
    if x == [] {
      assert x + sp == sp + [];
      StartsWithSpace(sp, [], atStart);
    } else {
      assert (x + sp)[0] == x[0];
      assert (x + sp)[1..] == x[1..] + sp;
      StartsEndingInSpace(x[1..], sp, IsSpace(x[0]));
    }
  }

  /** A trimmed text without white space is one word. */
  lemma OneWord(s: string)
    requires WordPrefix(s) == |s|
    ensures Trimmed(s) ==> WordCount(s) == 1
  {
    if Trimmed(s) {
      StartsAfterWord(s, |s|, true);
      assert s[|s|..] == [];
    }
  }

  /**
   * In a trimmed text the white space after the first word is followed by a
   * trimmed rest holding every other word.
   */
  lemma NextWord(t: string, n: nat)
    requires n == WordPrefix(t) < |t|
    ensures var rest := t[n + SpacePrefix(t[n..])..];
      Trimmed(t) ==> Trimmed(rest) && WordCount(t) == 1 + WordCount(rest)
  {
    if Trimmed(t) {
      var m := SpacePrefix(t[n..]);
      SpaceRunInside(t, n);
      StartsAfterWord(t, n, true);
    }
  }

  lemma StartsAfterWord(t: string, n: nat, atStart: bool)
    requires 0 < n <= |t| && forall i :: 0 <= i < n ==> !IsSpace(t[i])
    ensures WordStarts(t, atStart) == (if atStart then 1 else 0) + WordStarts(t[n..], false)
  {
    assert t == t[..n] + t[n..];
    StartsWithWord(t[..n], t[n..], atStart);
  }

  lemma StartsAfterSpace(u: string, m: nat, atStart: bool)
    requires 0 < m <= |u| && forall i :: 0 <= i < m ==> IsSpace(u[i])
    ensures WordStarts(u, atStart) == WordStarts(u[m..], true)
  {
    assert u == u[..m] + u[m..];
    StartsWithSpace(u[..m], u[m..], atStart);
  }

  /**
   * In a text that ends with a word, the white space run at `n` is followed by
   * a trimmed rest, and starts no word itself.
   */
  lemma SpaceRunInside(t: string, n: nat)
    requires n < |t| && IsSpace(t[n]) && !IsSpace(t[|t| - 1])
    ensures var m := SpacePrefix(t[n..]);
      n + m < |t| && Trimmed(t[n + m..]) && WordStarts(t[n..], false) == WordStarts(t[n + m..], true)
  {
    SpaceRunBounds(t, n);
    StartsAcrossSpace(t, n, n + SpacePrefix(t[n..]));
  }

  lemma SpaceRunBounds(t: string, n: nat)
    requires n < |t| && IsSpace(t[n]) && !IsSpace(t[|t| - 1])
    ensures var m := SpacePrefix(t[n..]);
      0 < m && n + m < |t| && (forall i :: n <= i < n + m ==> IsSpace(t[i])) && Trimmed(t[n + m..])
  {
    var u := t[n..];
    var m := SpacePrefix(u);
    assert u[0] == t[n];
    assert u[|u| - 1] == t[|t| - 1];
    forall i | n <= i < n + m ensures IsSpace(t[i]) {
      assert u[i - n] == t[i];
    }
    var rest := t[n + m..];
    assert rest[0] == u[m];
    assert rest[|rest| - 1] == t[|t| - 1];
  }

  /** White space between positions `n` and `k` starts no word. */
  lemma StartsAcrossSpace(t: string, n: nat, k: nat)
    requires n < k <= |t| && forall i :: n <= i < k ==> IsSpace(t[i])
    ensures WordStarts(t[n..], false) == WordStarts(t[k..], true)
  {
    var u := t[n..];
    forall i | 0 <= i < k - n ensures IsSpace(u[i]) {
      assert u[i] == t[n + i];
    }
    StartsAfterSpace(u, k - n, false);
    assert u[k - n..] == t[k..];
  }

  /**
   * The reading time is at least one minute: an empty or all-white-space text
   * counts as one word, otherwise it is the word count over 200, rounded up.
   */
  lemma ReadingTimeCountsWords(text: string)
    ensures ReadingTime(text) == (if WordCount(text) == 0 then 1 else (WordCount(text) + 199) / 200)
    ensures ReadingTime(text) >= 1
  {
    var t := Trim(text);
    TrimKeepsWords(text);
    if t == [] {
      assert SplitOnSpace(t) == [t];
    }
  }

  /** Trimming white space off both ends keeps the words. */
  lemma TrimKeepsWords(text: string)
    ensures WordCount(Trim(text)) == WordCount(text)
  {
    var p := SpacePrefix(text);
    var s := text[p..];
    var q := SpaceSuffix(s);
    var t := s[..|s| - q];
    assert text == text[..p] + s;
    StartsWithSpace(text[..p], s, true);
    assert s == t + s[|s| - q..];
    StartsEndingInSpace(t, s[|s| - q..], true);
  }

  // ---------------------------------------------------------------- stars

  function RepeatChar(c: char, n: nat): (r: string)
    ensures |r| == n && forall i :: 0 <= i < n ==> r[i] == c
  {
    if n == 0 then [] else [c] + RepeatChar(c, n - 1)
  }

  /** JavaScript's `%` on numbers: the dividend less the truncated multiple of the divisor. */
  function JsRealRem(a: real, b: real): real
    requires b > 0.0
  {
    a - b * (JsValue.Trunc(a / b) as real)
  }

  /**
   * `getStarRating`: `Math.floor(rating / 2)` full stars, then the half star and
   * the empty ones, both drawn "☆"; `None` where a count is negative and
   * `repeat` throws a RangeError.
   */
  function StarRating(rating: real): Option<string> {
    var full := (rating / 2.0).Floor;
    var half := if JsRealRem(rating, 2.0) >= 1.0 then 1 else 0;
    var empty := 5 - full - half;
    if full < 0 || empty < 0 then None
    else Some(RepeatChar('★', full) + RepeatChar('☆', half) + RepeatChar('☆', empty))
  }

  /**
   * A rating from 0 up to (not including) 11 draws five glyphs, the first
   * `floor(rating / 2)` of them full; any other rating makes `repeat` throw.
   */
  lemma StarRatingShape(rating: real)
    ensures StarRating(rating).Some? <==> 0.0 <= rating < 11.0
    ensures StarRating(rating).Some? ==>
      var s := StarRating(rating).value;
      |s| == 5 && forall i :: 0 <= i < 5 ==> s[i] == (if i < (rating / 2.0).Floor then '★' else '☆')
  {
    var full := (rating / 2.0).Floor;
    assert full as real <= rating / 2.0 < full as real + 1.0;
    if rating >= 0.0 {
      assert JsValue.Trunc(rating / 2.0) == full;
      var rem := JsRealRem(rating, 2.0);
      assert rem == rating - 2.0 * full as real;
      if full == 5 {
        assert rem >= 1.0 <==> rating >= 11.0;
      }
    }
  }

  // ---------------------------------------------------------------- validation

  /**
   * `/^[^\s@]+@[^\s@]+\.[^\s@]+$/` matches `e`: no white space, exactly one "@"
   * with something before it, and a "." after it with a character on each side.
   */
  predicate EmailShape(e: string) {
    exists at, dot ::
      0 < at && at + 1 < dot < |e| - 1 && e[at] == '@' && e[dot] == '.'
      && forall j :: 0 <= j < |e| && j != at ==> !IsSpace(e[j]) && e[j] != '@'
  }

  /** `validateEmail`, as a left-to-right reading of the pattern. */
  function ValidateEmail(email: string): bool {
    match IndexOf(email, "@")
    case None => false
    case Some(at) =>
      var domain := email[at + 1..];
      at > 0 && NoSpace(email) && !Contains(domain, "@")
      && |domain| >= 3 && Contains(domain[1..|domain| - 1], ".")
  }

  lemma ValidateEmailMatches(email: string)
    ensures ValidateEmail(email) <==> EmailShape(email)
  {
    if ValidateEmail(email) {
      ValidIsShape(email, IndexOf(email, "@").value);
    }
    if EmailShape(email) {
      var at, dot :| 0 < at && at + 1 < dot < |email| - 1 && email[at] == '@' && email[dot] == '.'
        && forall j :: 0 <= j < |email| && j != at ==> !IsSpace(email[j]) && email[j] != '@';
      ShapeIsValid(email, at, dot);
    }
  }

  lemma ValidIsShape(email: string, at: nat)
    requires IndexOf(email, "@") == Some(at) && ValidateEmail(email)
    ensures EmailShape(email)
  {
    var dot := InnerDot(email, at);
    AtOnlyAt(email, at);
    assert 0 < at && at + 1 < dot < |email| - 1 && email[at] == '@' && email[dot] == '.';
  }

  /** The single character a one-character occurrence stands for. */
  lemma OccursOne(s: string, sub: string, i: int)
    requires |sub| == 1
    ensures OccursAt(s, sub, i) <==> 0 <= i < |s| && s[i] == sub[0]
  {
    if 0 <= i < |s| {
      assert s[i..i + 1] == [s[i]];
      assert sub == [sub[0]];
    }
  }

  /** The "." the domain holds strictly inside it. */
  lemma InnerDot(email: string, at: nat) returns (dot: nat)
    requires at < |email| && |email[at + 1..]| >= 3
    requires Contains(email[at + 1..][1..|email[at + 1..]| - 1], ".")
    ensures at + 1 < dot < |email| - 1 && email[dot] == '.'
  {
    var domain := email[at + 1..];
    var inner := domain[1..|domain| - 1];
    var k :| 0 <= k <= |inner| - 1 && OccursAt(inner, ".", k);
    OccursOne(inner, ".", k);
    dot := at + 2 + k;
    assert email[dot] == inner[k];
  }

  /** The first "@", with none in the domain after it, is the only one. */
  lemma AtOnlyAt(email: string, at: nat)
    requires IndexOf(email, "@") == Some(at) && at < |email| && !Contains(email[at + 1..], "@")
    requires NoSpace(email)
    ensures email[at] == '@'
    ensures forall j :: 0 <= j < |email| && j != at ==> !IsSpace(email[j]) && email[j] != '@'
  {
    OccursOne(email, "@", at);
    forall j | 0 <= j < |email| && j != at ensures email[j] != '@' {
      if j < at {
        NoAtBefore(email, at, j);
      } else {
        NoAtAfter(email, at, j);
      }
    }
  }

  lemma NoAtBefore(email: string, at: nat, j: nat)
    requires IndexOf(email, "@") == Some(at) && j < at
    ensures email[j] != '@'
  {
    OccursOne(email, "@", j);
  }

  lemma NoAtAfter(email: string, at: nat, j: nat)
    requires at < j < |email| && !Contains(email[at + 1..], "@")
    ensures email[j] != '@'
  {
    var domain := email[at + 1..];
    assert domain[j - at - 1] == email[j];
    OccursOne(domain, "@", j - at - 1);
  }

  lemma ShapeIsValid(email: string, at: nat, dot: nat)
    requires 0 < at && at + 1 < dot < |email| - 1 && email[at] == '@' && email[dot] == '.'
    requires forall j :: 0 <= j < |email| && j != at ==> !IsSpace(email[j]) && email[j] != '@'
    ensures ValidateEmail(email)
  {
    assert email[at..at + 1] == [email[at]];
    assert OccursAt(email, "@", at);
    forall j | 0 <= j < at ensures !OccursAt(email, "@", j) {
      assert email[j..j + 1][0] == email[j];
    }
    assert IndexOf(email, "@") == Some(at);
    var domain := email[at + 1..];
    forall j | 0 <= j < |domain| ensures !OccursAt(domain, "@", j) {
      assert domain[j..j + 1][0] == email[at + 1 + j];
    }
    var inner := domain[1..|domain| - 1];
    assert inner[dot - at - 2] == email[dot];
    assert inner[dot - at - 2..dot - at - 1] == [inner[dot - at - 2]];
    assert OccursAt(inner, ".", dot - at - 2);
  }

  /** `validateYear`, with the current year as a parameter. */
  function ValidateYear(year: int, currentYear: int): (ok: bool)
    ensures ok <==> 1800 <= year <= currentYear + 10
  {
    year >= 1800 && year <= currentYear + 10
  }

  /**
   * As the clock advances a valid year stays valid; for a current year
   * `c` of 1790 or later the accepted years run from 1800 through `c + 10`,
   * neither end excluded and nothing beyond them.
   */
  lemma ValidateYearWindow(year: int, c1: int, c2: int)
    requires c1 <= c2
    ensures ValidateYear(year, c1) ==> ValidateYear(year, c2)
    ensures c1 >= 1790 ==> ValidateYear(1800, c1) && ValidateYear(c1 + 10, c1)
    ensures !ValidateYear(1799, c1) && !ValidateYear(c1 + 11, c1)
  {
  }

  // ---------------------------------------------------------------- sorting

  /** A property value as JavaScript's `<` sees it: a number, a string or null. */
  datatype JsKey = JsNum(n: real) | JsStr(s: string) | JsNull

  /**
   * The atom `<` compares: null converts to the number 0; two numbers compare
   * by value and two strings by character codes.
   */
  function JsAtom(k: JsKey): Atom {
    match k
    case JsNum(n) => Num(n)
    case JsStr(s) => Text(s)
    case JsNull => Num(0.0)
  }

  /** JavaScript's `a < b` for two keys of one kind (numbers and nulls, or strings). */
  predicate JsLess(a: JsKey, b: JsKey) {
    if a.JsStr? then b.JsStr? && TextLess(a.s, b.s)
    else !b.JsStr? && JsAtom(a).n < JsAtom(b).n
  }

  /**
   * The keys are all strings, or all numbers and nulls. With mixed keys `<`
   * converts the strings to numbers and the comparator is no consistent
   * order, so the result depends on the engine.
   */
  predicate OneKind<T>(items: seq<T>, key: T -> JsKey) {
    (forall i :: 0 <= i < |items| ==> key(items[i]).JsStr?)
    || (forall i :: 0 <= i < |items| ==> !key(items[i]).JsStr?)
  }

  /** The default of `sortBy`'s third parameter. */
  const DefaultSortDirection := Asc

  /** `sortBy(items, key, direction)`: a sorted copy; `key` reads the chosen property. */
  function SortBy<T>(items: seq<T>, key: T -> JsKey, direction: Direction): seq<T>
    requires OneKind(items, key)
  {
    Sort(items, (x: T) => [JsAtom(key(x))], direction)
  }

  /** On keys of one kind the model's order is JavaScript's `<`. */
  lemma JsLessIsBefore(a: JsKey, b: JsKey)
    requires a.JsStr? == b.JsStr?
    ensures JsLess(a, b) <==> Before(Asc, [JsAtom(a)], [JsAtom(b)])
    ensures JsLess(b, a) <==> Before(Desc, [JsAtom(a)], [JsAtom(b)])
  {
    SingletonKeyLess(JsAtom(a), JsAtom(b));
    SingletonKeyLess(JsAtom(b), JsAtom(a));
  }

  lemma SingletonKeyLess(x: Atom, y: Atom)
    ensures KeyLess([x], [y]) <==> AtomLess(x, y)
  {
    assert [x][1..] == [] && [y][1..] == [];
  }

  /**
   * The sorted copy is a permutation of the input; no element is followed by
   * one whose key is `<` its own ("asc") or `>` it ("desc"); and elements whose
   * keys are neither `<` nor `>` each other keep their input order.
   */
  lemma SortByCorrect<T>(items: seq<T>, key: T -> JsKey, direction: Direction, k: JsKey)
    requires OneKind(items, key)
    ensures multiset(SortBy(items, key, direction)) == multiset(items)
    ensures var s := SortBy(items, key, direction);
      forall i, j :: 0 <= i < j < |s| ==>
        !(if direction == Asc then JsLess(key(s[j]), key(s[i])) else JsLess(key(s[i]), key(s[j])))
    ensures WithKey(SortBy(items, key, direction), (x: T) => [JsAtom(key(x))], [JsAtom(k)])
         == WithKey(items, (x: T) => [JsAtom(key(x))], [JsAtom(k)])
  {
    var kf := (x: T) => [JsAtom(key(x))];
    var s := SortBy(items, key, direction);
    SortPermutes(items, kf, direction);
    SortOrders(items, kf, direction);
    SortStable(items, kf, direction, [JsAtom(k)]);
    forall i, j | 0 <= i < j < |s|
      ensures !(if direction == Asc then JsLess(key(s[j]), key(s[i])) else JsLess(key(s[i]), key(s[j])))
    {
      assert s[i] in multiset(items) && s[j] in multiset(items);
      var i', j' :| 0 <= i' < |items| && 0 <= j' < |items| && items[i'] == s[i] && items[j'] == s[j];
      JsLessIsBefore(key(s[j]), key(s[i]));
      assert !Before(direction, kf(s[j]), kf(s[i]));
    }
  }

  // ---------------------------------------------------------------- lookup tables

  /** The icon table, `undefined` for a key it does not list; its keys are not all enumeration names ("SHOW", "GAME"). */
  function IconEntry(key: string): Option<string> {
    if key == "MOVIE" then Some("🎬")
    else if key == "SHOW" then Some("📺")
    else if key == "BOOK" then Some("📚")
    else if key == "DOCUMENTARY" then Some("🎞\U{FE0F}")
    else if key == "PODCAST" then Some("🎙\U{FE0F}")
    else if key == "AUDIOBOOK" then Some("🎧")
    else if key == "GAME" then Some("🎮")
    else if key == "ANIME" then Some("🎌")
    else if key == "MANGA" then Some("📖")
    else None
  }

  function TypeColorEntry(key: string): Option<string> {
    if key == "MOVIE" then Some("bg-red-100 text-red-800")
    else if key == "SHOW" then Some("bg-blue-100 text-blue-800")
    else if key == "BOOK" then Some("bg-green-100 text-green-800")
    else if key == "DOCUMENTARY" then Some("bg-purple-100 text-purple-800")
    else if key == "PODCAST" then Some("bg-yellow-100 text-yellow-800")
    else if key == "AUDIOBOOK" then Some("bg-indigo-100 text-indigo-800")
    else if key == "GAME" then Some("bg-pink-100 text-pink-800")
    else if key == "ANIME" then Some("bg-orange-100 text-orange-800")
    else if key == "MANGA" then Some("bg-teal-100 text-teal-800")
    else None
  }

  function PriorityColorEntry(key: string): Option<string> {
    if key == "LOW" then Some("bg-gray-100 text-gray-800")
    else if key == "MEDIUM" then Some("bg-yellow-100 text-yellow-800")
    else if key == "HIGH" then Some("bg-orange-100 text-orange-800")
    else if key == "URGENT" then Some("bg-red-100 text-red-800")
    else None
  }

  const DefaultIcon := "📄"
  const DefaultColor := "bg-gray-100 text-gray-800"

  /** `table[key] || fallback`: `undefined` and the empty string are both falsy. */
  function LookupOr(entry: Option<string>, fallback: string): string {
    var v := entry.GetOr("");
    if v != "" then v else fallback
  }

  function MediaTypeIcon(t: string): string { LookupOr(IconEntry(t), DefaultIcon) }
  function MediaTypeColor(t: string): string { LookupOr(TypeColorEntry(t), DefaultColor) }
  function PriorityColor(p: string): string { LookupOr(PriorityColorEntry(p), DefaultColor) }

  /** No table value is empty, so each lookup gives the table value for a listed key and the default otherwise. */
  lemma LookupsUseTables(key: string)
    ensures MediaTypeIcon(key) == IconEntry(key).GetOr(DefaultIcon)
    ensures MediaTypeColor(key) == TypeColorEntry(key).GetOr(DefaultColor)
    ensures PriorityColor(key) == PriorityColorEntry(key).GetOr(DefaultColor)
  {
  }

  /** Two enumeration names are missing from the media tables and fall back to the defaults. */
  lemma UnlistedMediaTypes()
    ensures MediaTypeIcon(MediaTypeName(TV_SHOW)) == DefaultIcon
    ensures MediaTypeIcon(MediaTypeName(VIDEO_GAME)) == DefaultIcon
    ensures MediaTypeColor(MediaTypeName(TV_SHOW)) == DefaultColor
    ensures MediaTypeColor(MediaTypeName(VIDEO_GAME)) == DefaultColor
    ensures forall t :: t != TV_SHOW && t != VIDEO_GAME ==> IconEntry(MediaTypeName(t)).Some?
  {
  }
}
