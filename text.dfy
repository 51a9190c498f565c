/**
 * The pieces of Rust's string library that the core uses, restricted to ASCII:
 * `trim`, `split_whitespace`, `join`, `to_lowercase`, `contains`, `find` and
 * `parse::<u32>`. A `char` stands for one byte, so lengths and slice bounds are
 * the byte lengths and byte offsets of the source.
 */
module Text {
  import opened Wrappers

  /** `char::is_whitespace` on ASCII: space, tab, line feed, vertical tab, form feed, carriage return. */
  predicate IsSpace(c: char) {
    c == ' ' || c == '\t' || c == '\n' || c == '\r' || c == 11 as char || c == 12 as char
  }

  predicate AllSpace(s: string) {
    forall i :: 0 <= i < |s| ==> IsSpace(s[i])
  }

  /** A field of `split_whitespace`: non-empty, no whitespace in it. */
  predicate IsWord(w: string) {
    |w| > 0 && forall i :: 0 <= i < |w| ==> !IsSpace(w[i])
  }

  // ---------------------------------------------------------------- trim

  function TrimStart(s: string): (r: string)
    ensures |r| <= |s| && r == s[|s| - |r|..]
    ensures AllSpace(s[..|s| - |r|])
    ensures |r| > 0 ==> !IsSpace(r[0])
  {
    if |s| > 0 && IsSpace(s[0]) then TrimStart(s[1..]) else s
  }

  function TrimEnd(s: string): (r: string)
    ensures |r| <= |s| && r == s[..|r|]
    ensures AllSpace(s[|r|..])
    ensures |r| > 0 ==> !IsSpace(r[|r| - 1])
  {
    if |s| > 0 && IsSpace(s[|s| - 1]) then TrimEnd(s[..|s| - 1]) else s
  }

  lemma SliceOfSuffix(s: string, k: nat, n: nat)
    requires k + n <= |s|
    ensures s[k..][..n] == s[k..k + n] && s[k..][n..] == s[k + n..]
  {
  }

  /** `str::trim`: drops leading and trailing whitespace and nothing else (TrimIsInfix). */
  function Trim(s: string): (r: string)
    ensures |r| <= |s|
    ensures |r| > 0 ==> !IsSpace(r[0]) && !IsSpace(r[|r| - 1])
  {
    TrimEnd(TrimStart(s))
  }

  /** The trimmed text is the part of `s` between a whitespace prefix and a whitespace suffix. */
  lemma TrimIsInfix(s: string)
    ensures var r := Trim(s);
            exists k :: 0 <= k <= |s| - |r| && r == s[k..k + |r|] && AllSpace(s[..k]) && AllSpace(s[k + |r|..])
  {
    var a := TrimStart(s);
    var r := TrimEnd(a);
    var k := |s| - |a|;
    SliceOfSuffix(s, k, |r|);
    assert r == s[k..k + |r|];
    assert AllSpace(s[k + |r|..]);
  }

  /** A line trims to the empty string exactly when it is blank or whitespace only. */
  lemma TrimEmptyIffBlank(s: string)
    ensures Trim(s) == [] <==> AllSpace(s)
  {
  }

  // ---------------------------------------------------------------- split_whitespace / join

  /** Length of the leading run of non-whitespace characters. */
  function WordLength(s: string): (n: nat)
    ensures n <= |s|
    ensures forall i :: 0 <= i < n ==> !IsSpace(s[i])
    ensures n < |s| ==> IsSpace(s[n])
  {
    if |s| == 0 || IsSpace(s[0]) then 0 else 1 + WordLength(s[1..])
  }

  /** `str::split_whitespace`: the maximal runs of non-whitespace characters, in order. */
  function Fields(s: string): (r: seq<string>)
    ensures forall k :: 0 <= k < |r| ==> IsWord(r[k])
    decreases |s|
  {
    if |s| == 0 then []
    else if IsSpace(s[0]) then Fields(s[1..])
    else
      var n := WordLength(s);
      [s[..n]] + Fields(s[n..])
  }

  /** `[T]::join(sep)`. */
  function Join(ws: seq<string>, sep: string): string {
    if |ws| == 0 then ""
    else if |ws| == 1 then ws[0]
    else ws[0] + sep + Join(ws[1..], sep)
  }

  lemma {:induction false} WordLengthOfWord(w: string, rest: string)
    requires IsWord(w)
    requires |rest| == 0 || IsSpace(rest[0])
    ensures WordLength(w + rest) == |w|
    decreases |w|
  {
    if |w| > 1 {
      assert (w + rest)[1..] == w[1..] + rest;
      WordLengthOfWord(w[1..], rest);
    } else {
      assert (w + rest)[1..] == rest;
    }
  }

  lemma {:induction false} FieldsSkipSpace(gap: string, s: string)
    requires AllSpace(gap)
    ensures Fields(gap + s) == Fields(s)
    decreases |gap|
  {
    if |gap| > 0 {
      assert (gap + s)[1..] == gap[1..] + s;
      FieldsSkipSpace(gap[1..], s);
    } else {
      assert gap + s == s;
    }
  }

  /** Words each followed by its own run of separator characters: `ws[0] + gaps[0] + ws[1] + gaps[1] + ...`. */
  function Layout(ws: seq<string>, gaps: seq<string>): string
    requires |gaps| == |ws|
    decreases |ws|
  {
    if |ws| == 0 then "" else ws[0] + gaps[0] + Layout(ws[1..], gaps[1..])
  }

  /**
   * `split_whitespace` recovers the words of any whitespace layout: leading
   * whitespace, and between words runs of any non-empty whitespace, each its
   * own length, with whitespace or nothing after the last word.
   */
  lemma FieldsOfLayout(lead: string, ws: seq<string>, gaps: seq<string>)
    requires forall k :: 0 <= k < |ws| ==> IsWord(ws[k])
    requires AllSpace(lead) && |gaps| == |ws|
    requires forall k :: 0 <= k < |gaps| ==> AllSpace(gaps[k])
    requires forall k :: 0 <= k < |gaps| - 1 ==> |gaps[k]| > 0
    ensures Fields(lead + Layout(ws, gaps)) == ws
  {
    FieldsSkipSpace(lead, Layout(ws, gaps));
    FieldsOfSpacedWords(ws, gaps);
  }

  lemma {:induction false} FieldsOfSpacedWords(ws: seq<string>, gaps: seq<string>)
    requires forall k :: 0 <= k < |ws| ==> IsWord(ws[k])
    requires |gaps| == |ws|
    requires forall k :: 0 <= k < |gaps| ==> AllSpace(gaps[k])
    requires forall k :: 0 <= k < |gaps| - 1 ==> |gaps[k]| > 0
    ensures Fields(Layout(ws, gaps)) == ws
    decreases |ws|
  {
    if |ws| > 0 {
      var w, g, rest := ws[0], gaps[0], Layout(ws[1..], gaps[1..]);
      var tail := g + rest;
      var s := w + tail;
      assert Layout(ws, gaps) == s;
      assert |ws| == 1 ==> rest == "";
      assert |tail| == 0 || IsSpace(tail[0]);
      WordLengthOfWord(w, tail);
      assert s[..|w|] == w && s[|w|..] == tail;
      FieldsSkipSpace(g, rest);
      FieldsOfSpacedWords(ws[1..], gaps[1..]);
      assert ws == [w] + ws[1..];
    }
  }

  // ---------------------------------------------------------------- to_lowercase

  function LowerChar(c: char): char {
    if 'A' <= c <= 'Z' then (c as int + 32) as char else c
  }

  predicate IsLower(s: string) {
    forall i :: 0 <= i < |s| ==> !('A' <= s[i] <= 'Z')
  }

  /** `str::to_lowercase` on ASCII: maps each upper-case letter to its lower-case letter. */
  function Lower(s: string): (r: string)
    ensures |r| == |s|
    ensures forall i :: 0 <= i < |s| ==> r[i] == LowerChar(s[i])
    ensures IsLower(r)
  {
    seq(|s|, i requires 0 <= i < |s| => LowerChar(s[i]))
  }

  // ---------------------------------------------------------------- contains / find

  predicate OccursAt(s: string, t: string, i: nat) {
    i + |t| <= |s| && s[i..i + |t|] == t
  }

  /** `str::contains` for a string pattern. */
  predicate Contains(s: string, t: string) {
    exists i: nat | i <= |s| - |t| :: OccursAt(s, t, i)
  }

  /** A non-empty pattern cannot occur in a string that lacks its first character. */
  lemma NotContainsWithoutFirst(s: string, t: string)
    requires |t| > 0 && t[0] !in s
    ensures !Contains(s, t)
  {
  }

  /** `str::find` for one character: the first index where it occurs. */
  function IndexOf(s: string, c: char): (r: Option<nat>)
    ensures r.None? <==> c !in s
    ensures r.Some? ==> r.value < |s| && s[r.value] == c && c !in s[..r.value]
  {
    if |s| == 0 then None
    else if s[0] == c then Some(0)
    else match IndexOf(s[1..], c)
      case None => None
      case Some(i) =>
        assert s[..i + 1] == [s[0]] + s[1..][..i];
        Some(i + 1)
  }

  // ---------------------------------------------------------------- parse::<u32>

  const U32_LIMIT: nat := 0x1_0000_0000

  predicate IsDigit(c: char) {
    '0' <= c <= '9'
  }

  predicate AllDigits(s: string) {
    forall i :: 0 <= i < |s| ==> IsDigit(s[i])
  }

  function DigitValue(c: char): nat
    requires IsDigit(c)
  {
    c as int - '0' as int
  }

  function DigitChar(d: nat): char
    requires d < 10
  {
    ('0' as int + d) as char
  }

  /** The value of a decimal digit string, most significant digit first. */
  function DigitsValue(s: string): nat
    requires AllDigits(s)
  {
    if |s| == 0 then 0 else DigitsValue(s[..|s| - 1]) * 10 + DigitValue(s[|s| - 1])
  }

  /** The decimal representation of `n`, as `n.to_string()` writes it. */
  function NatToString(n: nat): (r: string)
    ensures |r| > 0 && AllDigits(r)
  {
    if n < 10 then [DigitChar(n)] else NatToString(n / 10) + [DigitChar(n % 10)]
  }

  lemma {:induction false} DigitsValueOfNatToString(n: nat)
    ensures DigitsValue(NatToString(n)) == n
  {
    if n >= 10 {
      var s := NatToString(n);
      assert s[..|s| - 1] == NatToString(n / 10);
      DigitsValueOfNatToString(n / 10);
    }
  }

  /**
   * `str::parse::<u32>`: an optional leading `+` and then at least one ASCII
   * digit, with a value below 2^32. Anything else (empty, a sign alone, a minus,
   * whitespace, overflow) is an error.
   */
  function ParseU32(s: string): (r: Option<nat>)
    ensures r.Some? ==> r.value < U32_LIMIT
    ensures r.Some? ==> |s| > 0 && (AllDigits(s) || (|s| > 1 && s[0] == '+' && AllDigits(s[1..])))
    ensures |s| > 0 && AllDigits(s) ==> r == if DigitsValue(s) < U32_LIMIT then Some(DigitsValue(s)) else None
    ensures |s| > 1 && s[0] == '+' && IsDigit(s[1]) ==> r == ParseU32(s[1..])
    decreases |s|
  {
    var d := if |s| > 0 && s[0] == '+' then s[1..] else s;
    if |d| > 0 && AllDigits(d) && DigitsValue(d) < U32_LIMIT then Some(DigitsValue(d)) else None
  }

  /** Every u32 written in decimal parses back to itself. */
  lemma ParseU32OfNatToString(n: nat)
    requires n < U32_LIMIT
    ensures ParseU32(NatToString(n)) == Some(n)
  {
    DigitsValueOfNatToString(n);
  }

  /** A leading `+` and leading zeros are accepted: "+5" and "007" parse; "+", "++5", "-5" and " 5" do not. */
  lemma ParseU32Examples()
    ensures ParseU32("+5") == Some(5) && ParseU32("007") == Some(7)
    ensures ParseU32("+").None? && ParseU32("++5").None? && ParseU32("-5").None? && ParseU32(" 5").None?
  {
    assert AllDigits("5") && DigitsValue("5") == 5;
    assert "+5"[1..] == "5";
    assert "007"[..2] == "00" && "00"[..1] == "0";
    assert !IsDigit("++5"[0]) && !IsDigit("++5"[1]);
  }

  lemma NatToStringIsWord(n: nat)
    ensures IsWord(NatToString(n))
  {
    var s := NatToString(n);
    forall i | 0 <= i < |s| ensures !IsSpace(s[i]) {
      assert IsDigit(s[i]);
    }
  }

  /** Regrouping a concatenation; loops that append use it to keep their suffix invariant. */
  lemma ConcatAssociative<T>(a: seq<T>, b: seq<T>, c: seq<T>)
    ensures (a + b) + c == a + (b + c)
  {
  }
}
