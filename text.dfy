/** The JavaScript string operations the scraper applies to text read from the
    page: `replace(/\D/g, "")` followed by `parseInt`, `trim()`,
    `replace(literal, "")`, `replace(/\?.*$/, "")` and `split("/").pop()`.
    Strings are sequences of Unicode scalar values. */
module Text {
  import opened Results

  // ---------------------------------------------------------------------
  // Decimal digits and the review-count parser
  // ---------------------------------------------------------------------

  predicate IsDigit(c: char) {
    '0' <= c <= '9'
  }

  predicate AllDigits(s: string) {
    forall i :: 0 <= i < |s| ==> IsDigit(s[i])
  }

  predicate NoDigits(s: string) {
    forall i :: 0 <= i < |s| ==> !IsDigit(s[i])
  }

  function DigitValue(c: char): (d: nat)
    requires IsDigit(c)
    ensures d < 10
  {
    c as int - '0' as int
  }

  function DigitChar(d: nat): (c: char)
    requires d < 10
    ensures IsDigit(c) && DigitValue(c) == d
  {
    ('0' as int + d) as char
  }

  /** `s.replace(/\D/g, "")`: the digits of `s`, in their order. */
  function Digits(s: string): (r: string)
    ensures AllDigits(r) && |r| <= |s|
    ensures r == [] <==> NoDigits(s)
  {
    if s == [] then []
    else (if IsDigit(s[0]) then [s[0]] else []) + Digits(s[1..])
  }

  lemma {:induction false} DigitsAppend(a: string, b: string)
    ensures Digits(a + b) == Digits(a) + Digits(b)
  {
    if a == [] {
      assert a + b == b;
    } else {
      var ab := a + b;
      var head := if IsDigit(a[0]) then [a[0]] else [];
      assert ab[0] == a[0];
      assert ab[1..] == a[1..] + b;
      assert Digits(ab) == head + Digits(a[1..] + b);
      DigitsAppend(a[1..], b);
      assert Digits(a) == head + Digits(a[1..]);
    }
  }

  lemma {:induction false} DigitsOfDigits(s: string)
    requires AllDigits(s)
    ensures Digits(s) == s
  {
    if s != [] {
      DigitsOfDigits(s[1..]);
    }
  }

  /** The value of a run of decimal digits, most significant digit first. */
  function DecimalValue(ds: string): nat
    requires AllDigits(ds)
  {
    if ds == [] then 0
    else DecimalValue(ds[..|ds| - 1]) * 10 + DigitValue(ds[|ds| - 1])
  }

  /** The decimal numeral of `n`, without leading zeros. */
  function ShowNat(n: nat): (s: string)
    ensures |s| >= 1 && AllDigits(s)
    ensures n >= 10 ==> s[0] != '0'
  {
    if n < 10 then [DigitChar(n)] else ShowNat(n / 10) + [DigitChar(n % 10)]
  }

  lemma {:induction false} DecimalValueOfShowNat(n: nat)
    ensures DecimalValue(ShowNat(n)) == n
  {
    if n >= 10 {
      var s := ShowNat(n);
      assert s[..|s| - 1] == ShowNat(n / 10);
      DecimalValueOfShowNat(n / 10);
    }
  }

  /** `parseInt(text.replace(/\D/g, ""))`: the digits of `text` read as one
      decimal number; `None` stands for `NaN`, the result when no digit is left. */
  function ParseCount(text: string): (r: Option<nat>)
    ensures r.None? <==> NoDigits(text)
  {
    var ds := Digits(text);
    if ds == [] then None else Some(DecimalValue(ds))
  }

  /** The count text the page shows ("1,234 reviews", "(87)") parses back to
      the number it was written from, whatever non-digit text surrounds it. */
  lemma CountRoundTrip(prefix: string, n: nat, suffix: string)
    requires NoDigits(prefix) && NoDigits(suffix)
    ensures ParseCount(prefix + ShowNat(n) + suffix) == Some(n)
  {
    var s := ShowNat(n);
    DigitsAppend(prefix + s, suffix);
    DigitsAppend(prefix, s);
    DigitsOfDigits(s);
    assert Digits(prefix) == [] && Digits(suffix) == [];
    calc {
      Digits(prefix + s + suffix);
      Digits(prefix + s) + Digits(suffix);
      Digits(prefix) + Digits(s);
      s;
    }
    DecimalValueOfShowNat(n);
  }

  // ---------------------------------------------------------------------
  // String.prototype.trim
  // ---------------------------------------------------------------------

  /** The characters `trim()` removes: ECMAScript WhiteSpace (tab, vertical
      tab, form feed, space, no-break space, byte-order mark and the Unicode
      space separators) and LineTerminator. */
  predicate IsJsSpace(c: char) {
    c == '\t' || c == '\n' || c == '\U{B}' || c == '\U{C}' || c == '\r' || c == ' '
    || c == '\U{A0}' || c == '\U{1680}' || ('\U{2000}' <= c <= '\U{200A}')
    || c == '\U{2028}' || c == '\U{2029}' || c == '\U{202F}' || c == '\U{205F}'
    || c == '\U{3000}' || c == '\U{FEFF}'
  }

  predicate AllSpace(s: string) {
    forall i :: 0 <= i < |s| ==> IsJsSpace(s[i])
  }

  /** `s` without its leading white space: a suffix of `s`. */
  function TrimStart(s: string): (r: string)
    ensures |r| <= |s|
    ensures r == [] || !IsJsSpace(r[0])
  {
    if s != [] && IsJsSpace(s[0]) then TrimStart(s[1..]) else s
  }

  /** What `TrimStart` removes is a run of white space at the front. */
  lemma {:induction false} TrimStartSuffix(s: string)
    ensures var r := TrimStart(s); r == s[|s| - |r|..] && AllSpace(s[..|s| - |r|])
  {
    if s != [] && IsJsSpace(s[0]) {
      TrimStartSuffix(s[1..]);
      var r := TrimStart(s);
      assert s[..|s| - |r|] == [s[0]] + s[1..][..|s| - 1 - |r|];
    }
  }

  /** `s` without its trailing white space: a prefix of `s`. */
  function TrimEnd(s: string): (r: string)
    ensures |r| <= |s|
    ensures r == [] || !IsJsSpace(r[|r| - 1])
  {
    if s != [] && IsJsSpace(s[|s| - 1]) then TrimEnd(s[..|s| - 1]) else s
  }

  /** What `TrimEnd` removes is a run of white space at the back. */
  lemma {:induction false} TrimEndPrefix(s: string)
    ensures var r := TrimEnd(s); r == s[..|r|] && AllSpace(s[|r|..])
  {
    if s != [] && IsJsSpace(s[|s| - 1]) {
      TrimEndPrefix(s[..|s| - 1]);
      var r := TrimEnd(s);
      assert s[|r|..] == s[..|s| - 1][|r|..] + [s[|s| - 1]];
    }
  }

  /** `s.trim()`. */
  function Trim(s: string): (r: string)
    ensures |r| <= |s|
    ensures r == [] || (!IsJsSpace(r[0]) && !IsJsSpace(r[|r| - 1]))
  {
    TrimEndPrefix(TrimStart(s));
    TrimEnd(TrimStart(s))
  }

  lemma {:induction false} TrimStartPadded(lead: string, rest: string)
    requires AllSpace(lead)
    requires rest == [] || !IsJsSpace(rest[0])
    ensures TrimStart(lead + rest) == rest
  {
    if lead != [] {
      assert (lead + rest)[1..] == lead[1..] + rest;
      TrimStartPadded(lead[1..], rest);
    } else {
      assert lead + rest == rest;
    }
  }

  lemma {:induction false} TrimEndPadded(rest: string, trail: string)
    requires AllSpace(trail)
    requires rest == [] || !IsJsSpace(rest[|rest| - 1])
    ensures TrimEnd(rest + trail) == rest
  {
    if trail != [] {
      assert (rest + trail)[..|rest + trail| - 1] == rest + trail[..|trail| - 1];
      TrimEndPadded(rest, trail[..|trail| - 1]);
    } else {
      assert rest + trail == rest;
    }
  }

  /** `trim()` removes exactly the white space around the text and nothing
      of the text itself: padding a text that neither starts nor ends with
      white space and trimming it gives the text back. */
  lemma TrimPadded(lead: string, core: string, trail: string)
    requires AllSpace(lead) && AllSpace(trail)
    requires core == [] || (!IsJsSpace(core[0]) && !IsJsSpace(core[|core| - 1]))
    ensures Trim(lead + core + trail) == core
  {
    if core == [] {
      assert lead + core + trail == lead + trail;
      assert AllSpace(lead + trail);
      TrimStartPadded(lead + trail, []);
      assert lead + trail + [] == lead + trail;
      TrimEndPadded([], []);
    } else {
      assert lead + core + trail == lead + (core + trail);
      TrimStartPadded(lead, core + trail);
      TrimEndPadded(core, trail);
    }
  }

  // ---------------------------------------------------------------------
  // String.prototype.replace with a literal pattern: the first occurrence
  // ---------------------------------------------------------------------

  predicate OccursAt(s: string, pat: string, i: nat) {
    i + |pat| <= |s| && s[i..i + |pat|] == pat
  }

  function IndexOfFrom(s: string, pat: string, from: nat): (r: Option<nat>)
    requires from <= |s|
    ensures r.Some? ==> from <= r.value && OccursAt(s, pat, r.value)
    ensures r.Some? ==> forall j: nat :: from <= j < r.value ==> !OccursAt(s, pat, j)
    ensures r.None? ==> forall j: nat :: from <= j <= |s| ==> !OccursAt(s, pat, j)
    decreases |s| - from
  {
    if OccursAt(s, pat, from) then Some(from)
    else if from == |s| then None
    else IndexOfFrom(s, pat, from + 1)
  }

  /** `s.indexOf(pat)`: the first position where `pat` occurs in `s`. */
  function IndexOf(s: string, pat: string): (r: Option<nat>)
    ensures r.Some? ==> OccursAt(s, pat, r.value)
    ensures r.Some? ==> forall j: nat :: j < r.value ==> !OccursAt(s, pat, j)
    ensures r.None? ==> forall j: nat :: j <= |s| ==> !OccursAt(s, pat, j)
  {
    IndexOfFrom(s, pat, 0)
  }

  /** `s.replace(pat, "")` for a literal string `pat`: the first occurrence of
      `pat` is cut out; without one, `s` is returned unchanged. */
  function RemoveFirst(s: string, pat: string): (r: string)
    ensures IndexOf(s, pat).None? ==> r == s
    ensures IndexOf(s, pat).Some? ==> |r| + |pat| == |s|
  {
    match IndexOf(s, pat)
    case None => s
    case Some(i) => s[..i] + s[i + |pat|..]
  }

  /** What `replace` cut out is exactly the first occurrence of `pat`:
      putting `pat` back at that position restores `s`, and the text before
      it is untouched. */
  lemma RemoveFirstRestores(s: string, pat: string)
    requires IndexOf(s, pat).Some?
    ensures var i := IndexOf(s, pat).value; var r := RemoveFirst(s, pat);
      i <= |r| && r[..i] == s[..i] && r[..i] + pat + r[i..] == s
  {
    var i := IndexOf(s, pat).value;
    var r := RemoveFirst(s, pat);
    assert r[..i] == s[..i] && r[i..] == s[i + |pat|..];
    assert s == s[..i] + s[i..i + |pat|] + s[i + |pat|..];
  }

  const RatedPrefix: string := "Rated "
  const OutOfFive: string := " out of 5,"

  /** The text handed to `parseFloat` for a rating: the `aria-label` with the
      first "Rated " and then the first " out of 5," removed. A label that
      holds neither phrase reaches `parseFloat` unchanged. */
  function RatingText(ariaLabel: string): (r: string)
    ensures |ariaLabel| - |RatedPrefix| - |OutOfFive| <= |r| <= |ariaLabel|
    ensures IndexOf(ariaLabel, RatedPrefix).None? && IndexOf(ariaLabel, OutOfFive).None? ==> r == ariaLabel
  {
    RemoveFirst(RemoveFirst(ariaLabel, RatedPrefix), OutOfFive)
  }

  /** The label Google renders, "Rated 4.0 out of 5,", leaves exactly the
      number for `parseFloat`, as long as the number holds no space. */
  lemma RatingTextOfLabel(v: string)
    requires ' ' !in v
    ensures RatingText(RatedPrefix + v + OutOfFive) == v
  {
    var full := RatedPrefix + v + OutOfFive;
    assert OccursAt(full, RatedPrefix, 0) by {
      assert full[0..|RatedPrefix|] == RatedPrefix;
    }
    var s := RemoveFirst(full, RatedPrefix);
    assert s == v + OutOfFive by {
      assert full[|RatedPrefix|..] == v + OutOfFive;
    }
    assert OccursAt(s, OutOfFive, |v|) by {
      assert s[|v|..|v| + |OutOfFive|] == OutOfFive;
    }
    forall j: nat | j < |v|
      ensures !OccursAt(s, OutOfFive, j)
    {
      assert s[j] == v[j];
    }
    assert IndexOf(s, OutOfFive) == Some(|v|);
    assert s[..|v|] == v;
    assert s[|v| + |OutOfFive|..] == [];
  }

  // ---------------------------------------------------------------------
  // href.replace(/\?.*$/, "") and split("/").pop()
  // ---------------------------------------------------------------------

  /** The characters `.` does not match in a JavaScript regular expression. */
  predicate IsLineTerminator(c: char) {
    c == '\n' || c == '\r' || c == '\U{2028}' || c == '\U{2029}'
  }

  predicate NoLineTerminator(s: string) {
    forall i :: 0 <= i < |s| ==> !IsLineTerminator(s[i])
  }

  /** Whether `/\?.*$/` matches at position `i` of `s`: a question mark there,
      and only characters `.` matches from there to the end of the input
      (the pattern has no multiline flag, so `$` is the end of the input). */
  predicate QueryMatchAt(s: string, i: nat) {
    i < |s| && s[i] == '?' && NoLineTerminator(s[i + 1..])
  }

  function QueryStartFrom(s: string, from: nat): (r: Option<nat>)
    requires from <= |s|
    ensures r.Some? ==> from <= r.value && QueryMatchAt(s, r.value)
    ensures r.Some? ==> forall j: nat :: from <= j < r.value ==> !QueryMatchAt(s, j)
    ensures r.None? ==> forall j: nat :: from <= j ==> !QueryMatchAt(s, j)
    decreases |s| - from
  {
    if from == |s| then None
    else if QueryMatchAt(s, from) then Some(from)
    else QueryStartFrom(s, from + 1)
  }

  /** `href.replace(/\?.*$/, "")`: the leftmost match is cut off, so the
      result is the prefix of `s` before the first question mark the pattern
      matches at; without a match `s` is returned unchanged. */
  function StripQuery(s: string): (r: string)
    ensures |r| <= |s| && r == s[..|r|]
    ensures |r| < |s| ==> QueryMatchAt(s, |r|)
    ensures forall j: nat :: j < |r| ==> !QueryMatchAt(s, j)
    ensures r == s <==> forall j: nat :: !QueryMatchAt(s, j)
  {
    match QueryStartFrom(s, 0)
    case None => s
    case Some(i) => s[..i]
  }

  /** An address with a query string loses exactly the query string. */
  lemma StripQueryOfUrl(path: string, query: string)
    requires '?' !in path
    requires NoLineTerminator(query)
    ensures StripQuery(path + "?" + query) == path
  {
    var s := path + "?" + query;
    assert s[|path| + 1..] == query;
    assert QueryMatchAt(s, |path|);
    forall j: nat | j < |path|
      ensures !QueryMatchAt(s, j)
    {
      assert s[j] == path[j];
    }
    assert s[..|path|] == path;
  }

  /** `s.split("/").pop()`: the text after the last slash of `s`, or all of
      `s` when it has no slash. */
  function LastSegment(s: string): (r: string)
    ensures |r| <= |s|
    ensures '/' !in r
  {
    if s == [] then []
    else if s[|s| - 1] == '/' then []
    else LastSegment(s[..|s| - 1]) + [s[|s| - 1]]
  }

  /** The last segment is the part of `s` after its last `/`: a suffix of
      `s`, preceded by a `/` unless it is all of `s`. */
  lemma {:induction false} LastSegmentSuffix(s: string)
    ensures var r := LastSegment(s);
      r == s[|s| - |r|..] && (|r| < |s| ==> s[|s| - |r| - 1] == '/')
  {
    if s != [] && s[|s| - 1] != '/' {
      var init := s[..|s| - 1];
      LastSegmentSuffix(init);
      var r' := LastSegment(init);
      var k := |init| - |r'|;
      assert LastSegment(s) == r' + [s[|s| - 1]];
      assert s[k..] == init[k..] + [s[|s| - 1]];
      assert k > 0 ==> s[k - 1] == init[k - 1];
    }
  }

  /** The reviewer identifier is the final path segment of a contributor
      address. */
  lemma {:induction false} LastSegmentOfPath(dir: string, seg: string)
    requires '/' !in seg
    ensures LastSegment(dir + "/" + seg) == seg
  {
    var s := dir + "/" + seg;
    if seg != [] {
      var init := seg[..|seg| - 1];
      assert s[..|s| - 1] == dir + "/" + init;
      assert s[|s| - 1] == seg[|seg| - 1];
      LastSegmentOfPath(dir, init);
      assert init + [seg[|seg| - 1]] == seg;
    }
  }
}
