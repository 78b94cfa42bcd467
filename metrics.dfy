/**
 * `MetricsCallback` of the LangChain monitoring example: it counts the
 * model calls that finish and estimates their tokens as the number of
 * whitespace-separated words of the response. Durations, averages and
 * rounding are floating point and are not modelled; the clock is a
 * parameter.
 */
module Metrics {
  import opened Wrappers
  import opened Text

  // ---------------------------------------------------------------------
  // `str.split()` with no separator
  // ---------------------------------------------------------------------

  /** The length of the run of non-whitespace characters `s` starts with. */
  function WordLength(s: string): (n: nat)
    ensures n <= |s|
    ensures forall i :: 0 <= i < n ==> !IsSpace(s[i])
    ensures n < |s| ==> IsSpace(s[n])
    decreases |s|
  {
    if s == [] || IsSpace(s[0]) then 0 else 1 + WordLength(s[1..])
  }

  /** `s.split()`: the maximal runs of non-whitespace characters, in order; each is a word. */
  function Split(s: string): (ws: seq<string>)
    ensures forall k :: 0 <= k < |ws| ==> IsWord(ws[k])
    decreases |s|
  {
    if s == [] then []
    else if IsSpace(s[0]) then Split(s[1..])
    else
      var n := WordLength(s);
      [s[..n]] + Split(s[n..])
  }

  /** The characters of `s` that are not whitespace, in order. */
  function Printable(s: string): string
    decreases |s|
  {
    if s == [] then [] else (if IsSpace(s[0]) then [] else [s[0]]) + Printable(s[1..])
  }

  /** The words glued back together. */
  function Concat(words: seq<string>): string
    decreases |words|
  {
    if words == [] then [] else words[0] + Concat(words[1..])
  }

  /** A word of `split()` is not empty and holds no whitespace. */
  predicate IsWord(w: string) {
    w != [] && forall i :: 0 <= i < |w| ==> !IsSpace(w[i])
  }

  /** The words hold every non-whitespace character of `s` and nothing else, in order. */
  lemma {:induction false} SplitKeepsText(s: string)
    ensures Concat(Split(s)) == Printable(s)
    decreases |s|
  {
    if s == [] {
    } else if IsSpace(s[0]) {
      SplitKeepsText(s[1..]);
    } else {
      var n := WordLength(s);
      SplitKeepsText(s[n..]);
      assert Split(s) == [s[..n]] + Split(s[n..]);
      assert ([s[..n]] + Split(s[n..]))[1..] == Split(s[n..]);
      PrintableWord(s, n);
    }
  }

  /** A leading run of `n` non-whitespace characters passes through `Printable` unchanged. */
  lemma {:induction false} PrintableWord(s: string, n: nat)
    requires n <= |s| && forall i :: 0 <= i < n ==> !IsSpace(s[i])
    ensures Printable(s) == s[..n] + Printable(s[n..])
    decreases n
  {
    if n > 0 {
      PrintableWord(s[1..], n - 1);
      assert s[1..][..n - 1] == s[1..n];
      assert s[1..][n - 1..] == s[n..];
      assert [s[0]] + s[1..n] == s[..n];
    }
  }

  /** Position `i` begins a word: it is not whitespace and it follows whitespace or the start. */
  predicate IsWordStart(s: string, i: int)
    requires 0 <= i < |s|
  {
    !IsSpace(s[i]) && (i == 0 || IsSpace(s[i - 1]))
  }

  /** The number of word starts among the first `k` positions of `s`. */
  function WordStarts(s: string, k: nat): nat
    requires k <= |s|
  {
    if k == 0 then 0 else WordStarts(s, k - 1) + (if IsWordStart(s, k - 1) then 1 else 0)
  }

  /** The number of word starts at positions `k` and later. */
  function StartsFrom(s: string, k: nat): nat
    requires k <= |s|
    decreases |s| - k
  {
    if k == |s| then 0
    else (if IsWordStart(s, k) then 1 else 0) + StartsFrom(s, k + 1)
  }

  /** The word starts before `k` and those from `k` on make up all of them. */
  lemma {:induction false} StartsFromCounts(s: string, k: nat)
    requires k <= |s|
    ensures WordStarts(s, k) + StartsFrom(s, k) == WordStarts(s, |s|)
    decreases |s| - k
  {
    if k < |s| {
      StartsFromCounts(s, k + 1);
    }
  }

  /** Cut after whitespace (or at the start), `s[k..]` splits into one piece per word start of `s` from `k` on. */
  lemma {:induction false} SplitFromCounts(s: string, k: nat)
    requires k <= |s| && (k == 0 || IsSpace(s[k - 1]))
    ensures |Split(s[k..])| == StartsFrom(s, k)
    decreases |s| - k
  {
    if k < |s| {
      if IsSpace(s[k]) {
        assert s[k..][1..] == s[k + 1..];
        SplitFromCounts(s, k + 1);
      } else {
        SplitFromWord(s, k);
      }
    }
  }

  /** The word case of `SplitFromCounts`: the word at `k` is one piece and one word start. */
  lemma {:induction false} SplitFromWord(s: string, k: nat)
    requires k < |s| && (k == 0 || IsSpace(s[k - 1])) && !IsSpace(s[k])
    ensures |Split(s[k..])| == StartsFrom(s, k)
    decreases |s| - k, 0
  {
    var t := s[k..];
    var n := WordLength(t);
    assert IsWordStart(s, k);
    assert |Split(t)| == 1 + |Split(t[n..])|;
    NoStartsInWord(s, k, n);
    if k + n < |s| {
      assert IsSpace(s[k + n]);
      assert !IsWordStart(s, k + n);
      assert t[n..][1..] == s[k + n + 1..];
      assert |Split(t[n..])| == |Split(s[k + n + 1..])|;
      SplitFromCounts(s, k + n + 1);
    } else {
      assert t[n..] == [];
    }
  }

  /** The positions after the first of a word are no word starts. */
  lemma {:induction false} NoStartsInWord(s: string, k: nat, n: nat)
    requires k + n <= |s| && n >= 1 && forall i :: k <= i < k + n ==> !IsSpace(s[i])
    ensures StartsFrom(s, k + 1) == StartsFrom(s, k + n)
    decreases n
  {
    if n > 1 {
      NoStartsInWord(s, k + 1, n - 1);
    }
  }

  /**
   * `split()` cuts no word in two: it returns exactly one piece per word
   * start, a non-whitespace position that follows whitespace or the start.
   */
  lemma SplitCountsWords(s: string)
    ensures |Split(s)| == WordStarts(s, |s|)
  {
    assert s[0..] == s;
    SplitFromCounts(s, 0);
    StartsFromCounts(s, 0);
  }

  /** The token estimate of `on_llm_end`: `len(response_text.split())`, the number of word starts. */
  function EstimatedTokens(text: string): (n: nat)
    ensures n == WordStarts(text, |text|)
  {
    SplitCountsWords(text);
    |Split(text)|
  }

  // ---------------------------------------------------------------------
  // The callback
  // ---------------------------------------------------------------------

  /** One entry of `metrics["calls"]`; its duration and timestamp are floating point and left out. */
  datatype CallRecord = CallRecord(tokens: nat)

  /** The sum of the `tokens` fields of the records. */
  function TokensOf(calls: seq<CallRecord>): nat
    decreases |calls|
  {
    if calls == [] then 0 else TokensOf(calls[..|calls| - 1]) + calls[|calls| - 1].tokens
  }

  /** `get_summary`: the message for no calls, or the call and token totals. */
  datatype Summary = NoCallsYet | Report(totalCalls: int, totalTokens: int)

  class MetricsCallback {
    var totalCalls: int
    var totalTokens: int
    var calls: seq<CallRecord>
    var startTime: Option<int>

    /** One record per finished call, and the token total is the sum of the records. */
    predicate Valid()
      reads this
    {
      totalCalls == |calls| && totalTokens == TokensOf(calls)
    }

    /** `__init__`: no calls, no tokens, no start time. */
    constructor ()
      ensures Valid() && totalCalls == 0 && totalTokens == 0 && calls == [] && startTime == None
    {
      totalCalls, totalTokens, calls, startTime := 0, 0, [], None;
    }

    /** `on_llm_start`: only the start time is set. */
    method OnLlmStart(now: int)
      modifies this
      ensures startTime == Some(now)
      ensures totalCalls == old(totalCalls) && totalTokens == old(totalTokens) && calls == old(calls)
    {
      startTime := Some(now);
    }

    /** `on_llm_end`: one more call, its word count added to the tokens and recorded. */
    method OnLlmEnd(responseText: string)
      requires Valid()
      modifies this
      ensures Valid()
      ensures totalCalls == old(totalCalls) + 1
      ensures totalTokens == old(totalTokens) + EstimatedTokens(responseText)
      ensures calls == old(calls) + [CallRecord(EstimatedTokens(responseText))]
      ensures startTime == old(startTime)
    {
      var estimated := |Split(responseText)|;
      totalCalls := totalCalls + 1;
      totalTokens := totalTokens + estimated;
      calls := calls + [CallRecord(estimated)];
      assert calls[..|calls| - 1] == old(calls);
    }

    /** `on_llm_error`: the error is only printed; no counter changes. */
    method OnLlmError()
      requires Valid()
      ensures Valid()
    {
    }

    /** `get_summary`: "No calls made yet" exactly when no call has finished, otherwise the totals. */
    function GetSummary(): (s: Summary)
      reads this
      ensures s.NoCallsYet? <==> totalCalls == 0
      ensures s.Report? ==> s.totalCalls == totalCalls && s.totalTokens == totalTokens
    {
      if totalCalls == 0 then NoCallsYet else Report(totalCalls, totalTokens)
    }
  }
}
