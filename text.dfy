/** Character classes and small string utilities shared by the chat report and the voice call. */
module Text {

  datatype Option<+T> = None | Some(value: T)

  /** An ASCII decimal digit (the model's reading of the regex class `\d`). */
  predicate IsDigit(c: char) {
    '0' <= c <= '9'
  }

  function DigitValue(c: char): (d: nat)
    requires IsDigit(c)
    ensures d <= 9
  {
    (c as int) - ('0' as int)
  }

  /** Whitespace as matched by `\s` and removed by `strip()`: the ASCII
      whitespace characters and the ideographic space U+3000. */
  predicate IsSpace(c: char) {
    c == ' ' || c == '\t' || c == '\n' || c == '\r' || c == '\U{0B}' || c == '\U{0C}' || c == '\U{3000}'
  }

  /** Every character is a decimal digit. */
  predicate AllDigits(ds: string) {
    forall k :: 0 <= k < |ds| ==> IsDigit(ds[k])
  }

  /** The value of a run of decimal digits, read most significant first (Python's `int(num_str)`). */
  function NumValue(ds: string): nat
    requires AllDigits(ds)
  {
    if |ds| == 0 then 0 else NumValue(ds[..|ds| - 1]) * 10 + DigitValue(ds[|ds| - 1])
  }

  function DigitChar(d: nat): (c: char)
    requires d <= 9
    ensures IsDigit(c) && DigitValue(c) == d
  {
    ('0' as int + d) as char
  }

  /** Decimal rendering of a natural number, as Python's `str(n)`. */
  function NatToString(n: nat): string
  {
    if n < 10 then [DigitChar(n)] else NatToString(n / 10) + [DigitChar(n % 10)]
  }

  /** `NatToString` yields a non-empty run of digits that reads back as `n`. */
  lemma {:induction false} NatToStringRoundTrip(n: nat)
    ensures |NatToString(n)| >= 1
    ensures AllDigits(NatToString(n))
    ensures NumValue(NatToString(n)) == n
  {
    var s := NatToString(n);
    if n < 10 {
      assert s[..0] == [];
    } else {
      NatToStringRoundTrip(n / 10);
      var p := NatToString(n / 10);
      assert s == p + [DigitChar(n % 10)];
      assert s[..|s| - 1] == p;
    }
  }

  /** `kw` occurs in `text` starting at index `k`. */
  predicate OccursAt(text: string, kw: string, k: int) {
    0 <= k && k + |kw| <= |text| && text[k..k + |kw|] == kw
  }

  /** Substring containment, Python's `kw in text`. */
  predicate Contains(text: string, kw: string)
    decreases |text|
  {
    if |kw| > |text| then false
    else if text[..|kw|] == kw then true
    else Contains(text[1..], kw)
  }

  /** `Contains` holds exactly when the keyword occurs at some position. */
  lemma {:induction false} ContainsIffOccurs(text: string, kw: string)
    ensures Contains(text, kw) <==> exists k :: OccursAt(text, kw, k)
    decreases |text|
  {
    if |kw| > |text| {
    } else if text[..|kw|] == kw {
      assert OccursAt(text, kw, 0);
    } else {
      ContainsIffOccurs(text[1..], kw);
      if Contains(text[1..], kw) {
        var k :| OccursAt(text[1..], kw, k);
        assert text[1..][k..k + |kw|] == text[k + 1..k + 1 + |kw|];
        assert OccursAt(text, kw, k + 1);
      }
      if exists k :: OccursAt(text, kw, k) {
        var k :| OccursAt(text, kw, k);
        assert k != 0;
        assert text[1..][k - 1..k - 1 + |kw|] == text[k..k + |kw|];
        assert OccursAt(text[1..], kw, k - 1);
      }
    }
  }

  /** Python's `any(kw in text for kw in kws)`. */
  predicate ContainsAny(text: string, kws: seq<string>) {
    exists i :: 0 <= i < |kws| && Contains(text, kws[i])
  }

  /** The first `n` characters followed by "..." when the text is longer than `n`, else the text. */
  function Abbreviate(s: string, n: nat): (r: string)
    ensures |s| <= n ==> r == s
    ensures |s| > n ==> r == s[..n] + "..."
    ensures |r| <= n + 3
  {
    if |s| > n then s[..n] + "..." else s
  }

  /** Python's `sep.join(parts)`. */
  function Join(parts: seq<string>, sep: string): (r: string)
    ensures parts == [] ==> r == ""
    ensures |parts| == 1 ==> r == parts[0]
    ensures |parts| >= 1 ==> parts[0] <= r
  {
    if |parts| == 0 then ""
    else if |parts| == 1 then parts[0]
    else parts[0] + sep + Join(parts[1..], sep)
  }

  /** `sep.join` cut at any boundary between parts: the join of the parts before it,
      one separator, and the join of the parts from it on. Together with the one-part
      case of `Join`, this places every part in order with `sep` between neighbours. */
  lemma {:induction false} JoinSplits(parts: seq<string>, sep: string, i: nat)
    requires 0 < i < |parts|
    ensures Join(parts, sep) == Join(parts[..i], sep) + sep + Join(parts[i..], sep)
  {
    if i > 1 {
      var rest := parts[1..];
      JoinSplits(rest, sep, i - 1);
      var before, after := Join(rest[..i - 1], sep), Join(parts[i..], sep);
      assert rest[i - 1..] == parts[i..];
      assert parts[..i][1..] == rest[..i - 1];
      calc {
        Join(parts, sep);
        parts[0] + sep + Join(rest, sep);
        parts[0] + sep + (before + sep + after);
        { assert parts[0] + sep + (before + sep + after) == (parts[0] + sep + before) + sep + after; }
        (parts[0] + sep + before) + sep + after;
        Join(parts[..i], sep) + sep + after;
      }
    }
  }
}
