/** The per-input validation of ScoreInput's change handler
    (components/ScoreInput.tsx): parse the typed text as a base-10 integer,
    treat a failed parse (NaN) as 0, clamp into [0, maxScore], and hand the
    result on as its decimal string. */
module ScoreInput {
  import opened Wrappers

  predicate IsDigit(c: char) {
    '0' <= c <= '9'
  }

  /** The value of one decimal digit character. */
  function DigitValue(c: char): nat
    requires IsDigit(c)
  {
    (c as int) - ('0' as int)
  }

  /** The character of one decimal digit. */
  function DigitChar(d: nat): (c: char)
    requires d < 10
    ensures IsDigit(c) && DigitValue(c) == d
  {
    (('0' as int) + d) as char
  }

  predicate AllDigits(s: string) {
    forall i :: 0 <= i < |s| ==> IsDigit(s[i])
  }

  /** The value of a string of decimal digits, most significant first. */
  function DigitsValue(ds: string): nat
    requires AllDigits(ds)
  {
    if |ds| == 0 then 0
    else DigitsValue(ds[..|ds| - 1]) * 10 + DigitValue(ds[|ds| - 1])
  }

  /** The length of the longest prefix of `s` made of decimal digits. */
  function LeadingDigits(s: string): (n: nat)
    ensures n <= |s|
    ensures AllDigits(s[..n])
    ensures n < |s| ==> !IsDigit(s[n])
  {
    if |s| == 0 || !IsDigit(s[0]) then 0 else 1 + LeadingDigits(s[1..])
  }

  /** The sign given by an optional leading '-' or '+'. */
  function SignOf(s: string): int {
    if |s| > 0 && s[0] == '-' then -1 else 1
  }

  /** The text after an optional leading '-' or '+'. */
  function Unsigned(s: string): string {
    if |s| > 0 && (s[0] == '-' || s[0] == '+') then s[1..] else s
  }

  /** `parseInt(s, 10)`: an optional sign, then the longest run of digits;
      anything after the run is ignored; no digit at all gives NaN (None). */
  function ParseInt(s: string): (r: Option<int>)
    ensures r.None? <==> |Unsigned(s)| == 0 || !IsDigit(Unsigned(s)[0])
    ensures r.Some? && SignOf(s) == 1 ==> r.value >= 0
    ensures r.Some? && SignOf(s) == -1 ==> r.value <= 0
  {
    var rest := Unsigned(s);
    var n := LeadingDigits(rest);
    if n == 0 then None else Some(SignOf(s) * DigitsValue(rest[..n]))
  }

  /** `String(n)` for a non-negative integer: its decimal digits without
      leading zeros. */
  function ShowNat(n: nat): (s: string)
    ensures |s| >= 1
    ensures AllDigits(s)
    ensures s[0] == '0' ==> n == 0
  {
    if n < 10 then [DigitChar(n)] else ShowNat(n / 10) + [DigitChar(n % 10)]
  }

  /** Reading back the digits of `ShowNat(n)` gives `n`. */
  lemma {:induction false} DigitsValueOfShowNat(n: nat)
    ensures DigitsValue(ShowNat(n)) == n
  {
    var s := ShowNat(n);
    if n >= 10 {
      DigitsValueOfShowNat(n / 10);
      assert s[..|s| - 1] == ShowNat(n / 10);
      assert s[|s| - 1] == DigitChar(n % 10);
    } else {
      assert s[..0] == [];
    }
  }

  /** A run of digits followed by text that does not start with a digit
      parses to the value of the run: "3.7" and "3abc" both give 3. */
  lemma {:induction false} ParseIgnoresTail(ds: string, tail: string)
    requires |ds| >= 1 && AllDigits(ds)
    requires |tail| == 0 || !IsDigit(tail[0])
    ensures ParseInt(ds + tail) == Some(DigitsValue(ds))
  {
    var s := ds + tail;
    assert Unsigned(s) == s;
    LeadingDigitsOfRun(ds, tail);
    assert s[..|ds|] == ds;
  }

  lemma {:induction false} LeadingDigitsOfRun(ds: string, tail: string)
    requires AllDigits(ds)
    requires |tail| == 0 || !IsDigit(tail[0])
    ensures LeadingDigits(ds + tail) == |ds|
    decreases |ds|
  {
    if |ds| > 0 {
      assert (ds + tail)[1..] == ds[1..] + tail;
      LeadingDigitsOfRun(ds[1..], tail);
    } else {
      assert ds + tail == tail;
    }
  }

  /** The decimal string of a non-negative integer parses back to it. */
  lemma ParseShowNat(n: nat)
    ensures ParseInt(ShowNat(n)) == Some(n)
  {
    DigitsValueOfShowNat(n);
    ParseIgnoresTail(ShowNat(n), []);
    assert ShowNat(n) + [] == ShowNat(n);
  }

  function Min(a: int, b: int): int { if a < b then a else b }
  function Max(a: int, b: int): int { if a < b then b else a }

  /** The score kept for a parse result: NaN becomes 0, then
      `Math.max(0, Math.min(score, maxScore))`. */
  function Clamp(parsed: Option<int>, maxScore: int): (r: nat)
    ensures 0 <= maxScore ==> r <= maxScore
    ensures maxScore < 0 ==> r == 0
    ensures parsed.None? ==> r == 0
    ensures parsed.Some? && 0 <= parsed.value <= maxScore ==> r == parsed.value
    ensures parsed.Some? && parsed.value > maxScore ==> r == Max(0, maxScore)
    ensures parsed.Some? && parsed.value < 0 ==> r == 0
  {
    var score := parsed.GetOr(0);
    Max(0, Min(score, maxScore))
  }

  /** Clamping an already clamped score changes nothing. */
  lemma ClampIdempotent(parsed: Option<int>, maxScore: int)
    ensures Clamp(Some(Clamp(parsed, maxScore)), maxScore) == Clamp(parsed, maxScore)
  {
  }

  /** The change handler: the text emitted for the typed text `raw`. The
      form parses it back to exactly the clamped score. */
  function HandleChange(raw: string, maxScore: int): (out: string)
    ensures AllDigits(out) && |out| >= 1
    ensures ParseInt(out) == Some(Clamp(ParseInt(raw), maxScore))
  {
    var score := Clamp(ParseInt(raw), maxScore);
    ParseShowNat(score);
    ShowNat(score)
  }
}
