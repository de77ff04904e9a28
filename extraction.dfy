/**
 * The heuristic extractors the response interpreter falls back on when a provider
 * answers in free text: numbers after a keyword, list items after a keyword, a
 * one-sentence summary and a keyword-based sentiment.
 *
 * The regular expressions are matched case-insensitively; since every keyword is
 * lower-case ASCII, matching runs on the lower-cased text, and what is captured is cut
 * from the original text at the same positions.
 */
module Extraction {
  import opened Wrappers
  import opened Text

  /** A character of the class `[:\s]` that may separate a keyword from what follows it. */
  predicate IsSeparator(c: char) {
    c == ':' || IsSpace(c)
  }

  /** A character that ends a capture of `[^.\n]+`. */
  predicate IsStop(c: char) {
    c == '.' || c == '\n'
  }

  /** The end of the greedy run `[:\s]*` that starts at `j`. */
  function SkipSeparators(t: string, j: nat): (k: nat)
    requires j <= |t|
    ensures j <= k <= |t|
    ensures forall i :: j <= i < k ==> IsSeparator(t[i])
    ensures k < |t| ==> !IsSeparator(t[k])
    decreases |t| - j
  {
    if j < |t| && IsSeparator(t[j]) then SkipSeparators(t, j + 1) else j
  }

  /** The end of the greedy run `[0-9]*` that starts at `j`. */
  function DigitsEnd(t: string, j: nat): (k: nat)
    requires j <= |t|
    ensures j <= k <= |t|
    ensures forall i :: j <= i < k ==> IsDigit(t[i])
    ensures k < |t| ==> !IsDigit(t[k])
    decreases |t| - j
  {
    if j < |t| && IsDigit(t[j]) then DigitsEnd(t, j + 1) else j
  }

  /** The end of the greedy run `[^.\n]*` that starts at `j`. */
  function StopIndex(t: string, j: nat): (k: nat)
    requires j <= |t|
    ensures j <= k <= |t|
    ensures forall i :: j <= i < k ==> !IsStop(t[i])
    ensures k < |t| ==> IsStop(t[k])
    decreases |t| - j
  {
    if j < |t| && !IsStop(t[j]) then StopIndex(t, j + 1) else j
  }

  // ---------------------------------------------------------------- numbers

  /** The number that `keyword[:\s]*([0-9]+)` captures at position `i` of `lt`, if the pattern matches there. */
  function NumberAt(lt: string, k: string, i: nat): (r: Option<nat>)
    requires i + |k| <= |lt|
  {
    var j := SkipSeparators(lt, i + |k|);
    var e := DigitsEnd(lt, j);
    if OccursAt(lt, k, i) && e > j then Some(DigitsValue(lt[j..e])) else None
  }

  /** The number captured by the leftmost match of `keyword[:\s]*([0-9]+)` at or after `from`. */
  function FirstNumberFrom(lt: string, k: string, from: nat): (r: Option<nat>)
    ensures r.Some? ==> exists i :: from <= i <= |lt| - |k| && NumberAt(lt, k, i) == r
                                    && forall i' :: from <= i' < i ==> NumberAt(lt, k, i').None?
    ensures r.None? ==> forall i :: from <= i <= |lt| - |k| ==> NumberAt(lt, k, i).None?
    decreases |lt| - from
  {
    if from + |k| > |lt| then None
    else
      var here := NumberAt(lt, k, from);
      if here.Some? then here else FirstNumberFrom(lt, k, from + 1)
  }

  /** The number after the first keyword of `keywords[from..]`, in list order, whose pattern matches anywhere in `lt`. */
  function KeywordNumberFrom(lt: string, keywords: seq<string>, from: nat): (r: Option<nat>)
    requires from <= |keywords|
    ensures r.None? <==> forall j :: from <= j < |keywords| ==> FirstNumberFrom(lt, keywords[j], 0).None?
    ensures r.Some? ==> exists j :: from <= j < |keywords| && FirstNumberFrom(lt, keywords[j], 0) == r
                                    && forall j' :: from <= j' < j ==> FirstNumberFrom(lt, keywords[j'], 0).None?
    decreases |keywords| - from
  {
    if from == |keywords| then None
    else
      var here := FirstNumberFrom(lt, keywords[from], 0);
      if here.Some? then here
      else
        var rest := KeywordNumberFrom(lt, keywords, from + 1);
        if rest.Some? then
          var j :| from + 1 <= j < |keywords| && FirstNumberFrom(lt, keywords[j], 0) == rest
                   && forall j' :: from + 1 <= j' < j ==> FirstNumberFrom(lt, keywords[j'], 0).None?;
          assert forall j' :: from <= j' < j ==> FirstNumberFrom(lt, keywords[j'], 0).None?;
          rest
        else
          rest
  }

  /** The number after the first keyword of `keywords`, in list order, whose pattern matches anywhere in `lt`. */
  function FirstKeywordNumber(lt: string, keywords: seq<string>): (r: Option<nat>)
    ensures r.None? <==> forall j :: 0 <= j < |keywords| ==> FirstNumberFrom(lt, keywords[j], 0).None?
    ensures r.Some? ==> exists j :: 0 <= j < |keywords| && FirstNumberFrom(lt, keywords[j], 0) == r
                                    && forall j' :: 0 <= j' < j ==> FirstNumberFrom(lt, keywords[j'], 0).None?
  {
    KeywordNumberFrom(lt, keywords, 0)
  }

  /**
   * `extractNumericValue`: the number after the first keyword, in list order, whose
   * pattern matches anywhere in the text, or nothing. Only the integer part of the
   * number is kept.
   */
  function ExtractNumericValue(text: string, keywords: seq<string>): Option<nat> {
    FirstKeywordNumber(Lower(text), keywords)
  }

  /** The callers' `extracted || fallback`: nothing and zero both give the fallback. */
  function ScoreOr(extracted: Option<nat>, fallback: int): (r: int)
    ensures extracted.Some? && extracted.value != 0 ==> r == extracted.value
    ensures extracted.None? || extracted.value == 0 ==> r == fallback
  {
    if extracted.Some? && extracted.value != 0 then extracted.value else fallback
  }

  // ---------------------------------------------------------------- list items

  /**
   * Where `keyword[s]?[:\s]*([^.\n]+)` puts its capture for an occurrence of the keyword
   * at `i`: after an optional `s` and the separators, up to the next dot or new line.
   * The capture is empty when a dot or new line comes first.
   */
  function CaptureStart(lt: string, k: string, i: nat): (s: nat)
    requires i + |k| <= |lt|
    ensures i + |k| <= s <= |lt|
  {
    var j0 := i + |k|;
    var j1 := if j0 < |lt| && lt[j0] == 's' then j0 + 1 else j0;
    SkipSeparators(lt, j1)
  }

  /** An item as `extractListItems` keeps it: trimmed, non-empty, without dots or new lines. */
  predicate IsItem(x: string) {
    && x != []
    && !IsSpace(x[0]) && !IsSpace(x[|x| - 1])
    && forall i :: 0 <= i < |x| ==> !IsStop(x[i])
  }

  /** Lower-casing neither makes nor unmakes a stop or a white-space character. */
  lemma LowerKeepsClass(c: char)
    ensures IsStop(LowerChar(c)) == IsStop(c)
    ensures IsSpace(LowerChar(c)) == IsSpace(c)
  {
  }

  /** Trimming a string that starts with a non-space and holds no stop character yields an item. */
  lemma TrimmedIsItem(c: string)
    requires c != [] && !IsSpace(c[0])
    requires forall i :: 0 <= i < |c| ==> !IsStop(c[i])
    ensures IsItem(Trim(c))
  {
    var r := Trim(c);
    assert r != [];
    var a :| 0 <= a <= |c| - |r| && OccursAt(c, r, a);
    forall i | 0 <= i < |r| ensures !IsStop(r[i]) {
      assert r[i] == c[a + i];
    }
  }

  /** What the lower-cased text says about stops and separators holds of the text itself. */
  lemma CaptureInText(text: string, lt: string, s: nat, e: nat)
    requires lt == Lower(text)
    requires s < e <= |text|
    requires !IsSeparator(lt[s])
    requires forall i :: s <= i < e ==> !IsStop(lt[i])
    ensures !IsSpace(text[s..e][0])
    ensures forall i :: 0 <= i < e - s ==> !IsStop(text[s..e][i])
  {
    LowerKeepsClass(text[s]);
    forall i | 0 <= i < e - s ensures !IsStop(text[s..e][i]) {
      LowerKeepsClass(text[s + i]);
    }
  }

  /** Trimming a capture that starts with a non-separator and holds no stop character yields an item. */
  lemma TrimmedCaptureIsItem(text: string, lt: string, s: nat, e: nat)
    requires lt == Lower(text)
    requires s < e <= |text|
    requires !IsSeparator(lt[s])
    requires forall i :: s <= i < e ==> !IsStop(lt[i])
    ensures IsItem(Trim(text[s..e]))
  {
    CaptureInText(text, lt, s, e);
    TrimmedIsItem(text[s..e]);
  }

  /**
   * The kept captures of successive matches of the keyword from `from` on: a capture
   * longer than 3 characters is kept trimmed, and the search resumes where the match
   * ended; where the keyword is not followed by a capture, the search moves on by one.
   */
  function LongCaptures(text: string, lt: string, k: string, from: nat): (r: seq<string>)
    requires lt == Lower(text)
    requires from <= |lt|
    ensures forall x :: x in r ==> IsItem(x)
    decreases |lt| - from
  {
    if from >= |lt| || from + |k| > |lt| then []
    else if OccursAt(lt, k, from) then
      var s := CaptureStart(lt, k, from);
      var e := StopIndex(lt, s);
      if e > s then
        if e - s > 3 then
          TrimmedCaptureIsItem(text, lt, s, e);
          [Trim(text[s..e])] + LongCaptures(text, lt, k, e)
        else
          LongCaptures(text, lt, k, e)
      else
        LongCaptures(text, lt, k, from + 1)
    else
      LongCaptures(text, lt, k, from + 1)
  }

  /** The kept captures of every keyword, ordered by keyword, then by position. */
  function AllCaptures(text: string, keywords: seq<string>): (r: seq<string>)
    ensures forall x :: x in r ==> IsItem(x)
  {
    if keywords == [] then [] else LongCaptures(text, Lower(text), keywords[0], 0) + AllCaptures(text, keywords[1..])
  }

  const Placeholder := "Identified through AI analysis"

  /** `extractListItems`, as a function of the text: the first three kept captures, or the placeholder. */
  function ListItems(text: string, keywords: seq<string>): seq<string> {
    var all := AllCaptures(text, keywords);
    if |all| > 0 then (if |all| <= 3 then all else all[..3]) else [Placeholder]
  }

  /**
   * There are always one to three items; they are the leading kept captures when there is
   * any, and the placeholder alone otherwise.
   */
  lemma ListItemsShape(text: string, keywords: seq<string>)
    ensures 1 <= |ListItems(text, keywords)| <= 3
    ensures AllCaptures(text, keywords) == [] ==> ListItems(text, keywords) == [Placeholder]
    ensures AllCaptures(text, keywords) != [] ==> ListItems(text, keywords) <= AllCaptures(text, keywords)
    ensures |AllCaptures(text, keywords)| >= 3 ==> |ListItems(text, keywords)| == 3
    ensures forall x :: x in ListItems(text, keywords) ==> IsItem(x)
  {
    var all := AllCaptures(text, keywords);
    var r := ListItems(text, keywords);
    if all != [] {
      assert r[0] == all[0];
      forall x | x in r ensures IsItem(x) {
        var i :| 0 <= i < |r| && r[i] == x;
        assert x == all[i];
      }
    }
  }

  /** The inner loop of `extractListItems`: the kept captures of every match of one keyword, left to right. */
  method KeywordCaptures(text: string, lt: string, k: string) returns (caps: seq<string>)
    requires lt == Lower(text)
    ensures caps == LongCaptures(text, lt, k, 0)
  {
    caps := [];
    var pos := 0;
    while pos < |lt|
      invariant pos <= |lt|
      invariant caps + LongCaptures(text, lt, k, pos) == LongCaptures(text, lt, k, 0)
      decreases |lt| - pos
    {
      if pos + |k| <= |lt| && OccursAt(lt, k, pos) {
        var s := CaptureStart(lt, k, pos);
        var e := StopIndex(lt, s);
        if e > s {
          if e - s > 3 {
            caps := caps + [Trim(text[s..e])];
          }
          pos := e;
        } else {
          pos := pos + 1;
        }
      } else {
        pos := pos + 1;
      }
    }
  }

  /**
   * `extractListItems`: for each keyword in turn, walk its matches left to right and
   * push every capture longer than 3 characters, trimmed; keep the first three.
   */
  method ExtractListItems(text: string, keywords: seq<string>) returns (items: seq<string>)
    ensures items == ListItems(text, keywords)
  {
    var lt := Lower(text);
    var found: seq<string> := [];
    for n := 0 to |keywords|
      invariant found + AllCaptures(text, keywords[n..]) == AllCaptures(text, keywords)
    {
      var caps := KeywordCaptures(text, lt, keywords[n]);
      assert keywords[n..][1..] == keywords[n + 1..];
      found := found + caps;
    }
    assert keywords[|keywords|..] == [];
    if |found| > 0 {
      items := if |found| <= 3 then found else found[..3];
    } else {
      items := [Placeholder];
    }
  }

  // ---------------------------------------------------------------- summary

  /** The first fragment of `frags[from..]` that is longer than 10 characters once trimmed, trimmed, with a dot appended. */
  function LongFragmentFrom(frags: seq<string>, from: nat): (r: Option<string>)
    requires from <= |frags|
    ensures r.None? <==> forall i :: from <= i < |frags| ==> |Trim(frags[i])| <= 10
    ensures r.Some? ==> exists i :: from <= i < |frags| && r.value == Trim(frags[i]) + "."
                                    && |Trim(frags[i])| > 10
                                    && forall j :: from <= j < i ==> |Trim(frags[j])| <= 10
    decreases |frags| - from
  {
    if from == |frags| then None
    else if |Trim(frags[from])| > 10 then Some(Trim(frags[from]) + ".")
    else
      var r := LongFragmentFrom(frags, from + 1);
      if r.Some? then
        var i :| from + 1 <= i < |frags| && r.value == Trim(frags[i]) + "."
                 && |Trim(frags[i])| > 10
                 && forall j :: from + 1 <= j < i ==> |Trim(frags[j])| <= 10;
        assert forall j :: from <= j < i ==> |Trim(frags[j])| <= 10;
        r
      else
        r
  }

  /** The first fragment that is longer than 10 characters once trimmed, trimmed, with a dot appended. */
  function FirstLongFragment(frags: seq<string>): (r: Option<string>)
    ensures r.None? <==> forall i :: 0 <= i < |frags| ==> |Trim(frags[i])| <= 10
    ensures r.Some? ==> exists i :: 0 <= i < |frags| && r.value == Trim(frags[i]) + "."
                                    && |Trim(frags[i])| > 10
                                    && forall j :: 0 <= j < i ==> |Trim(frags[j])| <= 10
  {
    LongFragmentFrom(frags, 0)
  }

  /** `extractSummary`. */
  function ExtractSummary(text: string): (r: Option<string>)
    ensures r.Some? ==> |r.value| > 11 && r.value[|r.value| - 1] == '.'
  {
    FirstLongFragment(Fragments(text))
  }

  /** A fragment without sentence ends, trimmed and closed by a dot, is one clean sentence. */
  lemma ClosedFragment(f: string)
    requires forall i :: 0 <= i < |f| ==> !IsSentenceEnd(f[i])
    requires |Trim(f)| > 10
    ensures var s := Trim(f) + ".";
            && !IsSpace(s[0]) && !IsSpace(s[|s| - 2])
            && forall i :: 0 <= i < |s| - 1 ==> !IsSentenceEnd(s[i])
  {
    var t := Trim(f);
    var a :| 0 <= a <= |f| - |t| && OccursAt(f, t, a);
    forall m | 0 <= m < |t| ensures !IsSentenceEnd(t[m]) {
      assert t[m] == f[a + m];
    }
  }

  /** The summary holds no sentence end before its final dot, and is not padded with white space. */
  lemma SummaryIsOneSentence(text: string)
    requires ExtractSummary(text).Some?
    ensures var s := ExtractSummary(text).value;
            && !IsSpace(s[0]) && !IsSpace(s[|s| - 2])
            && forall i :: 0 <= i < |s| - 1 ==> !IsSentenceEnd(s[i])
  {
    var frags := Fragments(text);
    var i :| 0 <= i < |frags| && ExtractSummary(text).value == Trim(frags[i]) + "." && |Trim(frags[i])| > 10;
    ClosedFragment(frags[i]);
  }

  // ---------------------------------------------------------------- sentiment

  datatype Sentiment = Positive | Neutral | Negative

  function SentimentName(s: Sentiment): string {
    match s
    case Positive => "positive"
    case Neutral => "neutral"
    case Negative => "negative"
  }

  const PositiveWords: seq<string> := ["happy", "satisfied", "pleased", "good", "great", "excellent"]

  const NegativeWords: seq<string> := ["angry", "frustrated", "upset", "bad", "poor", "terrible"]

  predicate ContainsAny(s: string, words: seq<string>) {
    exists i :: 0 <= i < |words| && Contains(s, words[i])
  }

  /**
   * `extractSentiment`: the target (agent or customer) is ignored; positive when only
   * positive keywords occur, negative when only negative ones do, neutral otherwise.
   */
  function ExtractSentiment(text: string, target: string): (r: Sentiment)
    ensures r == Positive <==> ContainsAny(Lower(text), PositiveWords) && !ContainsAny(Lower(text), NegativeWords)
    ensures r == Negative <==> ContainsAny(Lower(text), NegativeWords) && !ContainsAny(Lower(text), PositiveWords)
  {
    var lower := Lower(text);
    var hasPositive := ContainsAny(lower, PositiveWords);
    var hasNegative := ContainsAny(lower, NegativeWords);
    if hasPositive && !hasNegative then Positive
    else if hasNegative && !hasPositive then Negative
    else Neutral
  }

  /** The verdict is the same for both targets and does not depend on letter case. */
  lemma SentimentIgnoresTargetAndCase(text: string, t1: string, t2: string)
    ensures ExtractSentiment(text, t1) == ExtractSentiment(text, t2)
    ensures ExtractSentiment(Lower(text), t1) == ExtractSentiment(text, t1)
  {
    LowerIdempotent(text);
  }
}
