/** Free-text score parsing and description extraction of the chat report
    (`parse_score_from_text` and `extract_description` in app.py). */
module ScoreParser {
  import opened Text

  // ---------------------------------------------------------------------
  // Maximal digit runs: the matches of `re.findall(r'\d+', text)`
  // ---------------------------------------------------------------------

  /** `s[a..b]` is a maximal run of digits of `s`. */
  predicate IsRun(s: string, a: int, b: int) {
    && 0 <= a < b <= |s|
    && (forall k :: a <= k < b ==> IsDigit(s[k]))
    && (a == 0 || !IsDigit(s[a - 1]))
    && (b == |s| || !IsDigit(s[b]))
  }

  /** Where the run of digits starting at `i` ends. */
  function RunEnd(s: string, i: nat): (j: nat)
    requires i <= |s|
    ensures i <= j <= |s|
    ensures forall k :: i <= k < j ==> IsDigit(s[k])
    ensures j == |s| || !IsDigit(s[j])
    decreases |s| - i
  {
    if i < |s| && IsDigit(s[i]) then RunEnd(s, i + 1) else i
  }

  /** The digit runs of `s` from position `i` on, left to right. */
  function RunsFrom(s: string, i: nat): (runs: seq<string>)
    requires i <= |s|
    ensures forall r :: r in runs ==> r != [] && AllDigits(r)
    ensures runs == [] <==> forall k :: i <= k < |s| ==> !IsDigit(s[k])
    decreases |s| - i
  {
    if i == |s| then []
    else if !IsDigit(s[i]) then RunsFrom(s, i + 1)
    else
      var j := RunEnd(s, i);
      [s[i..j]] + RunsFrom(s, j)
  }

  /** `re.findall(r'\d+', s)`: non-empty runs of digits, none at all exactly when `s` has no digit. */
  function DigitRuns(s: string): (runs: seq<string>)
    ensures forall r :: r in runs ==> r != [] && AllDigits(r)
    ensures runs == [] <==> forall k :: 0 <= k < |s| ==> !IsDigit(s[k])
  {
    RunsFrom(s, 0)
  }

  /** The value of the first run whose value is at most 10; none if there is none. */
  function FirstInRange(runs: seq<string>): (r: Option<nat>)
    requires forall x :: x in runs ==> AllDigits(x)
    ensures r.Some? ==> r.value <= 10
    ensures r.None? <==> forall i :: 0 <= i < |runs| ==> NumValue(runs[i]) > 10
  {
    if runs == [] then None
    else if NumValue(runs[0]) <= 10 then Some(NumValue(runs[0]))
    else FirstInRange(runs[1..])
  }

  // ---------------------------------------------------------------------
  // Keyword buckets
  // ---------------------------------------------------------------------

  datatype Bucket = Bucket(score: nat, keywords: seq<string>)

  /** The keyword buckets in the order they are tried. */
  const KeywordBuckets: seq<Bucket> := [
    Bucket(0, ["沒有", "完全沒有", "零", "不會"]),
    Bucket(9, ["非常嚴重", "極度", "劇烈"]),
    Bucket(8, ["很嚴重", "嚴重"]),
    Bucket(7, ["明顯", "很痛", "很喘", "很累"]),
    Bucket(5, ["中等", "普通", "還好"]),
    Bucket(2, ["輕微", "一點點", "有點"])
  ]

  /** The score of the first bucket one of whose keywords occurs in `text`. */
  function FirstBucket(text: string, buckets: seq<Bucket>): (r: Option<nat>)
    ensures r.Some? ==> exists i :: 0 <= i < |buckets| && buckets[i].score == r.value
  {
    if buckets == [] then None
    else if ContainsAny(text, buckets[0].keywords) then Some(buckets[0].score)
    else
      var r := FirstBucket(text, buckets[1..]);
      assert r.Some? ==> exists i :: 1 <= i < |buckets| && buckets[i].score == r.value by {
        if r.Some? {
          var i :| 0 <= i < |buckets[1..]| && buckets[1..][i].score == r.value;
          assert buckets[i + 1].score == r.value;
        }
      }
      r
  }

  function KeywordScore(text: string): (r: Option<nat>)
    ensures r.Some? ==> r.value in {0, 9, 8, 7, 5, 2}
  {
    FirstBucket(text, KeywordBuckets)
  }

  /** First match wins: the bucket at `i` decides when it matches and no earlier bucket does. */
  lemma {:induction false} FirstBucketPicksFirstMatch(text: string, buckets: seq<Bucket>, i: nat)
    requires i < |buckets| && ContainsAny(text, buckets[i].keywords)
    requires forall j :: 0 <= j < i ==> !ContainsAny(text, buckets[j].keywords)
    ensures FirstBucket(text, buckets) == Some(buckets[i].score)
  {
    if i > 0 {
      assert !ContainsAny(text, buckets[0].keywords);
      FirstBucketPicksFirstMatch(text, buckets[1..], i - 1);
    }
  }

  /** No bucket matching is exactly the case where the keyword stage finds nothing. */
  lemma {:induction false} FirstBucketNone(text: string, buckets: seq<Bucket>)
    ensures FirstBucket(text, buckets).None? <==> forall j :: 0 <= j < |buckets| ==> !ContainsAny(text, buckets[j].keywords)
  {
    if buckets != [] {
      FirstBucketNone(text, buckets[1..]);
      if !ContainsAny(text, buckets[0].keywords) {
        forall j | 0 <= j < |buckets| && j > 0 ensures buckets[j] == buckets[1..][j - 1] { }
      }
    }
  }

  // ---------------------------------------------------------------------
  // parse_score_from_text
  // ---------------------------------------------------------------------

  /** The first digit run whose value lies in [0, 10]; failing that, the keyword buckets. */
  function ParseScore(text: string): (r: Option<int>)
    ensures r.Some? ==> 0 <= r.value <= 10
  {
    var first := FirstInRange(DigitRuns(text));
    if first.Some? then Some(first.value)
    else
      var keyword := KeywordScore(text);
      if keyword.Some? then Some(keyword.value) else None
  }

  lemma RunEndOfRun(s: string, k: nat, b: nat)
    requires k <= b <= |s|
    requires forall m :: k <= m < b ==> IsDigit(s[m])
    requires b == |s| || !IsDigit(s[b])
    ensures RunEnd(s, k) == b
    decreases b - k
  {
    if k < b { RunEndOfRun(s, k + 1, b); }
  }

  /** Position `i` is not strictly inside a run of digits. */
  predicate AtRunBoundary(s: string, i: int)
    requires 0 <= i <= |s|
  {
    i == 0 || i == |s| || !IsDigit(s[i - 1]) || !IsDigit(s[i])
  }

  lemma {:induction false} RunsFromFindsFirst(s: string, i: nat, a: nat, b: nat)
    requires i <= a && IsRun(s, a, b) && AtRunBoundary(s, i)
    requires NumValue(s[a..b]) <= 10
    requires forall a', b' :: IsRun(s, a', b') && i <= a' < a ==> NumValue(s[a'..b']) > 10
    ensures FirstInRange(RunsFrom(s, i)) == Some(NumValue(s[a..b]))
    decreases |s| - i
  {
    if !IsDigit(s[i]) {
      RunsFromFindsFirst(s, i + 1, a, b);
    } else {
      var j := RunEnd(s, i);
      var rest := RunsFrom(s, j);
      assert RunsFrom(s, i) == [s[i..j]] + rest;
      assert ([s[i..j]] + rest)[1..] == rest;
      if i == a {
        RunEndOfRun(s, a, b);
      } else {
        assert IsRun(s, i, j);
        RunsFromFindsFirst(s, j, a, b);
      }
    }
  }

  lemma {:induction false} RunsFromNoneInRange(s: string, i: nat)
    requires i <= |s| && AtRunBoundary(s, i)
    requires forall a, b :: IsRun(s, a, b) && i <= a ==> NumValue(s[a..b]) > 10
    ensures FirstInRange(RunsFrom(s, i)).None?
    decreases |s| - i
  {
    if i < |s| {
      if !IsDigit(s[i]) {
        RunsFromNoneInRange(s, i + 1);
      } else {
        var j := RunEnd(s, i);
        var rest := RunsFrom(s, j);
        assert IsRun(s, i, j);
        assert NumValue(s[i..j]) > 10;
        assert RunsFrom(s, i) == [s[i..j]] + rest;
        assert ([s[i..j]] + rest)[1..] == rest;
        RunsFromNoneInRange(s, j);
      }
    }
  }

  /** The value of the first maximal digit run lying in [0, 10] is the score, whatever keywords the text holds. */
  lemma ParseScoreTakesFirstInRangeRun(text: string, a: nat, b: nat)
    requires IsRun(text, a, b) && NumValue(text[a..b]) <= 10
    requires forall a', b' :: IsRun(text, a', b') && a' < a ==> NumValue(text[a'..b']) > 10
    ensures ParseScore(text) == Some(NumValue(text[a..b]))
  {
    RunsFromFindsFirst(text, 0, a, b);
  }

  /** Without a digit run in [0, 10] (runs such as "100" do not count) the keyword buckets decide. */
  lemma ParseScoreFallsBackToKeywords(text: string)
    requires forall a, b :: IsRun(text, a, b) ==> NumValue(text[a..b]) > 10
    ensures ParseScore(text) == KeywordScore(text)
  {
    RunsFromNoneInRange(text, 0);
  }

  /** In the keyword stage the first matching bucket, in the order 0, 9, 8, 7, 5, 2, wins. */
  lemma ParseScoreKeywordOrder(text: string, i: nat)
    requires forall a, b :: IsRun(text, a, b) ==> NumValue(text[a..b]) > 10
    requires i < |KeywordBuckets| && ContainsAny(text, KeywordBuckets[i].keywords)
    requires forall j :: 0 <= j < i ==> !ContainsAny(text, KeywordBuckets[j].keywords)
    ensures ParseScore(text) == Some(KeywordBuckets[i].score)
  {
    ParseScoreFallsBackToKeywords(text);
    FirstBucketPicksFirstMatch(text, KeywordBuckets, i);
  }

  /** No in-range number and no keyword: no score. */
  lemma ParseScoreNone(text: string)
    requires forall a, b :: IsRun(text, a, b) ==> NumValue(text[a..b]) > 10
    requires forall j :: 0 <= j < |KeywordBuckets| ==> !ContainsAny(text, KeywordBuckets[j].keywords)
    ensures ParseScore(text).None?
  {
    ParseScoreFallsBackToKeywords(text);
    FirstBucketNone(text, KeywordBuckets);
  }

  /** A text that opens with the decimal rendering of n <= 10, followed by a non-digit, parses to n. */
  lemma LeadingScoreParses(n: nat, rest: string)
    requires n <= 10
    requires rest == [] || !IsDigit(rest[0])
    ensures ParseScore(NatToString(n) + rest) == Some(n)
  {
    var ds := NatToString(n);
    NatToStringRoundTrip(n);
    var t := ds + rest;
    assert t[..|ds|] == ds;
    assert IsRun(t, 0, |ds|);
    ParseScoreTakesFirstInRangeRun(t, 0, |ds|);
  }

  /** The text a score button writes into the chat ("7 分") parses back to that score. */
  lemma ScoreTextParsesBack(n: nat)
    requires n <= 10
    ensures ParseScore(ScoreText(n)) == Some(n)
  {
    LeadingScoreParses(n, " 分");
  }

  /** "{score} 分", the user message recorded for a button press. */
  function ScoreText(score: nat): string
  {
    NatToString(score) + " 分"
  }

  // ---------------------------------------------------------------------
  // extract_description
  // ---------------------------------------------------------------------

  /** Where the run of whitespace starting at `i` ends. */
  function SpaceEnd(s: string, i: nat): (j: nat)
    requires i <= |s|
    ensures i <= j <= |s|
    decreases |s| - i
  {
    if i < |s| && IsSpace(s[i]) then SpaceEnd(s, i + 1) else i
  }

  /** `re.sub(r'\d+\s*分?', '', s)`: every digit run, the whitespace after it and
      one optional "分" after that are deleted. */
  function RemoveScoreTokens(s: string): (r: string)
    ensures |r| <= |s|
    ensures forall k :: 0 <= k < |r| ==> !IsDigit(r[k])
    decreases |s|
  {
    if s == [] then []
    else if IsDigit(s[0]) then
      var j := SpaceEnd(s, RunEnd(s, 0));
      var m := if j < |s| && s[j] == '分' then j + 1 else j;
      RemoveScoreTokens(s[m..])
    else [s[0]] + RemoveScoreTokens(s[1..])
  }

  /** The deletion only removes characters: whatever is left was in the input. */
  lemma {:induction false} RemoveScoreTokensFromInput(s: string)
    ensures forall c :: c in RemoveScoreTokens(s) ==> c in s
    decreases |s|
  {
    if s != [] {
      if IsDigit(s[0]) {
        var j := SpaceEnd(s, RunEnd(s, 0));
        var m := if j < |s| && s[j] == '分' then j + 1 else j;
        RemoveScoreTokensFromInput(s[m..]);
        assert forall c :: c in s[m..] ==> c in s;
      } else {
        RemoveScoreTokensFromInput(s[1..]);
        assert forall c :: c in s[1..] ==> c in s;
      }
    }
  }

  /** Text without digits passes through the deletion unchanged. */
  lemma {:induction false} RemoveScoreTokensIdentity(s: string)
    requires forall k :: 0 <= k < |s| ==> !IsDigit(s[k])
    ensures RemoveScoreTokens(s) == s
  {
    if s != [] {
      RemoveScoreTokensIdentity(s[1..]);
      assert s == [s[0]] + s[1..];
    }
  }

  /** One unfolding of `RemoveScoreTokens` at a character that is not a digit. */
  lemma RemoveScoreTokensPlainHead(t: string)
    requires t != [] && !IsDigit(t[0])
    ensures RemoveScoreTokens(t) == [t[0]] + RemoveScoreTokens(t[1..])
  {
  }

  /** Text before the first digit passes through the deletion unchanged, whatever follows it. */
  lemma {:induction false} RemoveScoreTokensKeepsPlainPrefix(p: string, s: string)
    requires forall k :: 0 <= k < |p| ==> !IsDigit(p[k])
    ensures RemoveScoreTokens(p + s) == p + RemoveScoreTokens(s)
  {
    if p != [] {
      var t, q, rest := p + s, p[1..], RemoveScoreTokens(s);
      assert t[0] == p[0] && t[1..] == q + s;
      RemoveScoreTokensPlainHead(t);
      RemoveScoreTokensKeepsPlainPrefix(q, s);
      assert RemoveScoreTokens(t) == [p[0]] + (q + rest);
      assert p == [p[0]] + q;
    } else {
      assert p + s == s;
    }
  }

  lemma SpaceEndOfRun(s: string, k: nat, b: nat)
    requires k <= b <= |s|
    requires forall m :: k <= m < b ==> IsSpace(s[m])
    requires b == |s| || !IsSpace(s[b])
    ensures SpaceEnd(s, k) == b
    decreases b - k
  {
    if k < b { SpaceEndOfRun(s, k + 1, b); }
  }

  /** A whole token (digits `ds`, whitespace `ws`, an optional "分" `f`) is deleted
      as one match and the text after it is processed on its own. Without "分", the
      text after the token must not begin with a digit, whitespace or "分", which
      the greedy match would take as well. */
  lemma RemoveScoreTokenWhole(ds: string, ws: string, f: string, s: string)
    requires ds != [] && AllDigits(ds)
    requires forall k :: 0 <= k < |ws| ==> IsSpace(ws[k])
    requires f == "" || f == "分"
    requires f == "" && s != [] ==> !IsDigit(s[0]) && !IsSpace(s[0]) && s[0] != '分'
    ensures RemoveScoreTokens(ds + ws + f + s) == RemoveScoreTokens(s)
  {
    var t := ds + ws + f + s;
    var a := |ds|;
    var b := |ds| + |ws|;
    assert forall m :: 0 <= m < a ==> t[m] == ds[m];
    assert forall m :: a <= m < b ==> t[m] == ws[m - a];
    assert t[b..] == f + s;
    RunEndOfRun(t, 0, a);
    SpaceEndOfRun(t, a, b);
    var m := if b < |t| && t[b] == '分' then b + 1 else b;
    assert t[m..] == s;
  }

  /** A score token inside a text leaves the same description as the text without it. */
  lemma ExtractDescriptionSkipsToken(p: string, ds: string, ws: string, f: string, s: string, score: int)
    requires forall k :: 0 <= k < |p| ==> !IsDigit(p[k])
    requires ds != [] && AllDigits(ds)
    requires forall k :: 0 <= k < |ws| ==> IsSpace(ws[k])
    requires f == "" || f == "分"
    requires f == "" && s != [] ==> !IsDigit(s[0]) && !IsSpace(s[0]) && s[0] != '分'
    ensures ExtractDescription(p + ds + ws + f + s, score) == ExtractDescription(p + s, score)
  {
    assert p + ds + ws + f + s == p + (ds + ws + f + s);
    RemoveScoreTokensKeepsPlainPrefix(p, ds + ws + f + s);
    RemoveScoreTokenWhole(ds, ws, f, s);
    RemoveScoreTokensKeepsPlainPrefix(p, s);
  }

  /** `r` is `s[i..j]`, and everything outside `i..j` is whitespace. */
  predicate TrimmedAt(s: string, r: string, i: int, j: int) {
    && 0 <= i <= j <= |s| && r == s[i..j]
    && (forall k :: 0 <= k < i ==> IsSpace(s[k]))
    && (forall k :: j <= k < |s| ==> IsSpace(s[k]))
  }

  /** `r` is `s` with whitespace removed at its two ends only. */
  predicate TrimmedFrom(s: string, r: string) {
    exists i, j :: 0 <= i <= j <= |s| && TrimmedAt(s, r, i, j)
  }

  lemma TrimmedFromDropFirst(s: string, r: string)
    requires s != [] && IsSpace(s[0]) && TrimmedFrom(s[1..], r)
    ensures TrimmedFrom(s, r)
  {
    var t := s[1..];
    var i, j :| 0 <= i <= j <= |t| && TrimmedAt(t, r, i, j);
    assert t[i..j] == s[i + 1..j + 1];
    forall k | 0 <= k < i + 1 ensures IsSpace(s[k]) {
      if k > 0 { assert s[k] == t[k - 1]; }
    }
    forall k | j + 1 <= k < |s| ensures IsSpace(s[k]) {
      assert s[k] == t[k - 1];
    }
    assert TrimmedAt(s, r, i + 1, j + 1);
  }

  lemma TrimmedFromDropLast(s: string, r: string)
    requires s != [] && IsSpace(s[|s| - 1]) && TrimmedFrom(s[..|s| - 1], r)
    ensures TrimmedFrom(s, r)
  {
    var t := s[..|s| - 1];
    var i, j :| 0 <= i <= j <= |t| && TrimmedAt(t, r, i, j);
    assert t[i..j] == s[i..j];
    forall k | 0 <= k < i ensures IsSpace(s[k]) {
      assert s[k] == t[k];
    }
    forall k | j <= k < |s| ensures IsSpace(s[k]) {
      if k < |s| - 1 { assert s[k] == t[k]; }
    }
    assert TrimmedAt(s, r, i, j);
  }

  /** Python's `str.strip()` over the whitespace set `IsSpace`. */
  function Strip(s: string): (r: string)
    ensures |r| <= |s|
    ensures r == [] || (!IsSpace(r[0]) && !IsSpace(r[|r| - 1]))
    ensures forall k :: 0 <= k < |r| ==> r[k] in s
    decreases |s|
  {
    if s == [] then []
    else if IsSpace(s[0]) then
      var r := Strip(s[1..]);
      assert forall c :: c in s[1..] ==> c in s;
      r
    else if IsSpace(s[|s| - 1]) then
      var r := Strip(s[..|s| - 1]);
      assert forall c :: c in s[..|s| - 1] ==> c in s;
      r
    else s
  }

  /** `Strip` removes exactly the leading and the trailing spaces: its result is a slice of `s`
      with nothing but spaces on either side. */
  lemma {:induction false} StripTrims(s: string)
    ensures TrimmedFrom(s, Strip(s))
    decreases |s|
  {
    if s == [] {
      assert TrimmedAt(s, [], 0, 0);
    } else if IsSpace(s[0]) {
      StripTrims(s[1..]);
      TrimmedFromDropFirst(s, Strip(s[1..]));
    } else if IsSpace(s[|s| - 1]) {
      StripTrims(s[..|s| - 1]);
      TrimmedFromDropLast(s, Strip(s[..|s| - 1]));
    } else {
      assert TrimmedAt(s, s, 0, |s|);
    }
  }

  /** Stripping a text without surrounding whitespace changes nothing. */
  lemma StripIdentity(s: string)
    requires s == [] || (!IsSpace(s[0]) && !IsSpace(s[|s| - 1]))
    ensures Strip(s) == s
  {
  }

  /** Residues that are a bare particle and carry no description. */
  const FillerWords: seq<string> := ["是", "的", "了", "吧", "呢", "啊"]

  /** Every filler word is a single character, so the length test alone already drops it. */
  lemma FillerWordsAreShort(d: string)
    requires |d| > 2
    ensures d !in FillerWords
  {
    forall w | w in FillerWords ensures |w| == 1 { }
  }

  /** Every character left once the score tokens are removed and the ends trimmed is a
      non-digit character of the original text. */
  lemma ResidueCharsFromText(text: string)
    ensures var d := Strip(RemoveScoreTokens(text));
            forall k :: 0 <= k < |d| ==> !IsDigit(d[k]) && d[k] in text
  {
    var removed := RemoveScoreTokens(text);
    var d := Strip(removed);
    RemoveScoreTokensFromInput(text);
    forall k | 0 <= k < |d| ensures !IsDigit(d[k]) && d[k] in text {
      var c := d[k];
      assert c in removed;
      var m :| 0 <= m < |removed| && removed[m] == c;
    }
  }

  /** The description left in `text` once score tokens are removed and the ends
      trimmed: that residue when it is longer than two characters, else "".
      (`score` is accepted and, as in app.py, unused.) */
  function ExtractDescription(text: string, score: int): (r: string)
    ensures var residue := Strip(RemoveScoreTokens(text));
            && (|residue| > 2 ==> r == residue)
            && (|residue| <= 2 ==> r == [])
    ensures r == [] || |r| > 2
    ensures r == [] || (!IsSpace(r[0]) && !IsSpace(r[|r| - 1]))
    ensures forall k :: 0 <= k < |r| ==> !IsDigit(r[k]) && r[k] in text
  {
    var d := Strip(RemoveScoreTokens(text));
    ResidueCharsFromText(text);
    if |d| > 2 then FillerWordsAreShort(d); assert d !in FillerWords; d
    else if d in FillerWords then []
    else []
  }

  /** Extracting again from an extracted description returns it unchanged. */
  lemma ExtractDescriptionIdempotent(text: string, score: int, score': int)
    ensures ExtractDescription(ExtractDescription(text, score), score') == ExtractDescription(text, score)
  {
    var d := ExtractDescription(text, score);
    RemoveScoreTokensIdentity(d);
    StripIdentity(d);
  }

  /** A digit-free, trimmed text longer than two characters is kept verbatim. */
  lemma ExtractDescriptionKeepsPlainText(text: string, score: int)
    requires |text| > 2 && !IsSpace(text[0]) && !IsSpace(text[|text| - 1])
    requires forall k :: 0 <= k < |text| ==> !IsDigit(text[k])
    ensures ExtractDescription(text, score) == text
  {
    RemoveScoreTokensIdentity(text);
    StripIdentity(text);
  }

  // ---------------------------------------------------------------------
  // Worked cases
  // ---------------------------------------------------------------------

  /** A text without digits has no digit runs. */
  lemma NoDigitsNoRuns(s: string)
    requires forall k :: 0 <= k < |s| ==> !IsDigit(s[k])
    ensures forall a, b :: !IsRun(s, a, b)
  {
    forall a, b ensures !IsRun(s, a, b) {
      if 0 <= a < |s| { assert !IsDigit(s[a]); }
    }
  }

  /** A keyword whose last character does not occur in the text is not contained in it. */
  lemma LastCharMissing(text: string, kw: string)
    requires |kw| > 0 && kw[|kw| - 1] !in text
    ensures !Contains(text, kw)
  {
    ContainsIffOccurs(text, kw);
    forall k ensures !OccursAt(text, kw, k) {
      if 0 <= k && k + |kw| <= |text| {
        assert text[k..k + |kw|][|kw| - 1] == text[k + |kw| - 1];
        assert text[k + |kw| - 1] in text;
      }
    }
  }

  /** The only digit run of "100 很痛" is "100", which is out of range. */
  lemma HundredIsOutOfRange()
    ensures forall a, b :: IsRun("100 很痛", a, b) ==> NumValue("100 很痛"[a..b]) > 10
  {
    var t := "100 很痛";
    assert t == ['1', '0', '0', ' ', '很', '痛'];
    forall a, b ensures IsRun(t, a, b) ==> a == 0 && b == 3 {
      if 0 < a <= 2 { assert IsDigit(t[a - 1]); }
      if 3 <= a < |t| { assert !IsDigit(t[a]); }
      if 0 < b < 3 { assert IsDigit(t[b]); }
      if 3 < b <= |t| { assert !IsDigit(t[3]); }
    }
    assert t[0..3] == "100";
    assert "100"[..2] == "10" && "10"[..1] == "1" && "1"[..0] == "";
  }

  /** Of the buckets before the 7 bucket, none has a keyword in "100 很痛". */
  lemma HundredMissesEarlierBuckets(j: nat)
    requires j < 3
    ensures !ContainsAny("100 很痛", KeywordBuckets[j].keywords)
  {
    var t := "100 很痛";
    forall kw | kw in KeywordBuckets[j].keywords ensures !Contains(t, kw) {
      LastCharMissing(t, kw);
    }
  }

  /** "100" is out of range and does not suppress the keywords: "很痛" gives 7. */
  lemma OutOfRangeNumberKeepsKeywords()
    ensures ParseScore("100 很痛") == Some(7)
  {
    var t := "100 很痛";
    HundredIsOutOfRange();
    assert OccursAt(t, "很痛", 4);
    ContainsIffOccurs(t, "很痛");
    assert ContainsAny(t, KeywordBuckets[3].keywords) by { assert KeywordBuckets[3].keywords[1] == "很痛"; }
    forall j | 0 <= j < 3 ensures !ContainsAny(t, KeywordBuckets[j].keywords) {
      HundredMissesEarlierBuckets(j);
    }
    ParseScoreKeywordOrder(t, 3);
  }

  /** "沒有很嚴重" holds keywords of the 0 and the 8 bucket; the 0 bucket is tried first. */
  lemma NoneBucketComesFirst()
    ensures ParseScore("沒有很嚴重") == Some(0)
  {
    var t := "沒有很嚴重";
    NoDigitsNoRuns(t);
    assert OccursAt(t, "沒有", 0);
    ContainsIffOccurs(t, "沒有");
    assert ContainsAny(t, KeywordBuckets[0].keywords) by { assert KeywordBuckets[0].keywords[0] == "沒有"; }
    ParseScoreKeywordOrder(t, 0);
  }

  /** Deleting the leading score token "d分" of a digit-free remainder leaves the remainder. */
  lemma RemoveLeadingScoreToken(d: char, rest: string)
    requires IsDigit(d)
    requires rest == [] || (!IsSpace(rest[0]) && !IsDigit(rest[0]))
    requires forall k :: 0 <= k < |rest| ==> !IsDigit(rest[k])
    ensures RemoveScoreTokens([d, '分'] + rest) == rest
  {
    var t := [d, '分'] + rest;
    LeadingTokenEnd(t);
    assert t[2..] == rest;
    RemoveScoreTokensIdentity(rest);
  }

  /** In a text opening with one digit and "分", the score token spans exactly those two characters. */
  lemma LeadingTokenEnd(t: string)
    requires |t| >= 2 && IsDigit(t[0]) && t[1] == '分'
    ensures SpaceEnd(t, RunEnd(t, 0)) == 1
  {
    RunEndOfRun(t, 0, 1);
  }

  /** "9分很痛" scores 9. */
  lemma NineWithShortResidueScores()
    ensures ParseScore("9分很痛") == Some(9)
  {
    var t := "9分很痛";
    assert IsRun(t, 0, 1);
    assert t[0..1] == "9";
    ParseScoreTakesFirstInRangeRun(t, 0, 1);
  }

  /** A text made of one digit, "分" and a digit-free, trimmed remainder: the remainder
      is the description exactly when it is longer than two characters. */
  lemma LeadingTokenResidue(text: string, d: char, rest: string, score: int)
    requires text == [d, '分'] + rest
    requires IsDigit(d) && rest != [] && !IsSpace(rest[0]) && !IsSpace(rest[|rest| - 1])
    requires forall k :: 0 <= k < |rest| ==> !IsDigit(rest[k])
    ensures |rest| > 2 ==> ExtractDescription(text, score) == rest
    ensures |rest| <= 2 ==> ExtractDescription(text, score) == ""
  {
    RemoveLeadingScoreToken(d, rest);
    StripIdentity(rest);
  }

  /** The residue of "9分很痛" is "很痛", only two characters, and is dropped. */
  lemma ShortResidueIsDropped()
    ensures ExtractDescription("9分很痛", 9) == ""
  {
    LeadingTokenResidue("9分很痛", '9', "很痛", 9);
  }

  /** The residue of "7分非常痛" is the three-character description "非常痛", which is kept. */
  lemma LongerResidueIsKept()
    ensures ExtractDescription("7分非常痛", 7) == "非常痛"
  {
    LeadingTokenResidue("7分非常痛", '7', "非常痛", 7);
  }

  /** A one-digit score with "分" between two digit-free phrases is cut out, and the
      phrases, joined as they stand, are the description. */
  lemma MidTokenResidue(text: string, p: string, d: char, s: string, score: int, residue: string)
    requires text == p + [d, '分'] + s && residue == p + s
    requires IsDigit(d)
    requires forall k :: 0 <= k < |p| ==> !IsDigit(p[k])
    requires forall k :: 0 <= k < |s| ==> !IsDigit(s[k])
    requires p != [] && !IsSpace(p[0]) && s != [] && !IsSpace(s[|s| - 1])
    requires |p| + |s| > 2
    ensures ExtractDescription(text, score) == residue
  {
    var plain := p + s;
    assert plain[0] == p[0] && plain[|plain| - 1] == s[|s| - 1];
    assert forall k :: 0 <= k < |plain| ==> !IsDigit(plain[k]) by {
      forall k | 0 <= k < |plain| ensures !IsDigit(plain[k]) {
        if k >= |p| { assert plain[k] == s[k - |p|]; }
      }
    }
    ExtractDescriptionKeepsPlainText(plain, score);
    assert p + [d] + "" + "分" + s == text by {
      assert p + [d] + "" + "分" == p + [d, '分'];
    }
    ExtractDescriptionSkipsToken(p, [d], "", "分", s, score);
  }

  /** A score in the middle of "很痛 7分 晚上更痛" is cut out together with its "分";
      the spaces on either side of it stay, and the rest is the description. */
  lemma MidTextTokenIsCut()
    ensures ExtractDescription("很痛 7分 晚上更痛", 7) == "很痛  晚上更痛"
  {
    MidTokenResidue("很痛 7分 晚上更痛", "很痛 ", '7', " 晚上更痛", 7, "很痛  晚上更痛");
  }
}
