// Shared vocabulary of the model: optional values, the BUY/HOLD/SELL ladder,
// the (score, signals, risks) triple every analysis dimension returns, and
// the handful of Python built-ins the scoring code relies on.
module Common {

  datatype Option<T> = None | Some(value: T)

  function Min(a: int, b: int): int { if a <= b then a else b }
  function Max(a: int, b: int): int { if a >= b then a else b }

  // ---------------------------------------------------------------------
  // Recommendations
  // ---------------------------------------------------------------------

  /** A Level-1 agent's recommendation. */
  datatype Rec = Buy | Hold | Sell

  /** Orders recommendations from most bearish to most bullish. */
  function RecRank(r: Rec): int
  {
    match r
    case Sell => 0
    case Hold => 1
    case Buy => 2
  }

  /**
   * The ladder every Level-1 agent applies to its total score: at least
   * 70 is BUY, 50 to 69 is HOLD, anything lower is SELL.
   */
  function Recommend(total: int): (r: Rec)
    ensures r == Buy <==> total >= 70
    ensures r == Hold <==> 50 <= total < 70
    ensures r == Sell <==> total < 50
  {
    if total >= 70 then Buy else if total >= 50 then Hold else Sell
  }

  /** A higher total never yields a more bearish recommendation. */
  lemma RecommendMonotone(a: int, b: int)
    requires a <= b
    ensures RecRank(Recommend(a)) <= RecRank(Recommend(b))
  {
  }

  /**
   * What a Level-1 agent's `analyze` returns: either the error record of a
   * failed fetch, or the scored result.  `breakdown` lists the four
   * sub-scores in the agent's dimension order; `labels` holds the agent's
   * text fields (sector, peer tier, moat rating, sentiment trend, ...) and
   * `metrics` its numeric key metrics.
   */
  datatype AgentReport =
    | FetchFailed
    | Report(total: int, breakdown: seq<int>, rec: Rec,
             signals: seq<string>, risks: seq<string>,
             labels: map<string, string>, metrics: map<string, real>)

  // ---------------------------------------------------------------------
  // Sub-score verdicts
  // ---------------------------------------------------------------------

  /**
   * What one analysis dimension returns: its points and the signal and risk
   * tags it emitted, in emission order.  Each agent has its own tag type; a
   * tag stands for the label the source formats, without the formatted number.
   */
  datatype Part<T> = Part(score: int, signals: seq<T>, risks: seq<T>)

  /** Running `score += b.score`, `signals += b.signals`, `risks += b.risks`. */
  function Then<T>(a: Part<T>, b: Part<T>): Part<T>
  {
    Part(a.score + b.score, a.signals + b.signals, a.risks + b.risks)
  }

  function Points<T>(n: int): Part<T> { Part(n, [], []) }
  function Signal<T>(n: int, tag: T): Part<T> { Part(n, [tag], []) }
  function Risk<T>(n: int, tag: T): Part<T> { Part(n, [], [tag]) }

  /** `min(score, cap)` at the end of an additive sub-score; the tags are kept. */
  function Capped<T>(p: Part<T>, cap: int): Part<T>
  {
    Part(Min(p.score, cap), p.signals, p.risks)
  }

  /** `max(score, 0)` at the end of a deducting sub-score; the tags are kept. */
  function Floored<T>(p: Part<T>): Part<T>
  {
    Part(Max(p.score, 0), p.signals, p.risks)
  }

  /** A part that applies only when the condition holds. */
  function When<T>(c: bool, p: Part<T>): Part<T> { if c then p else Points(0) }

  /** Renders a sequence of tags with the agent's label function. */
  function Labels<T>(tags: seq<T>, text: T -> string): (r: seq<string>)
    ensures |r| == |tags|
    ensures forall i :: 0 <= i < |tags| ==> r[i] == text(tags[i])
  {
    seq(|tags|, i requires 0 <= i < |tags| => text(tags[i]))
  }

  /**
   * The scored record every Level-1 agent builds from its four dimensions:
   * the total is their sum, the recommendation follows the total, and the
   * key signals and risk flags are the first five and three tags of the four
   * dimensions in order.  With each dimension in [0, 25] the total lies in
   * [0, 100].
   */
  function Level1Report<T>(a: Part<T>, b: Part<T>, c: Part<T>, d: Part<T>, text: T -> string,
                           labels: map<string, string>, metrics: map<string, real>): (r: AgentReport)
    requires 0 <= a.score <= 25 && 0 <= b.score <= 25 && 0 <= c.score <= 25 && 0 <= d.score <= 25
    ensures r.Report? && r.breakdown == [a.score, b.score, c.score, d.score]
    ensures r.total == a.score + b.score + c.score + d.score
    ensures 0 <= r.total <= 100 && r.rec == Recommend(r.total)
    ensures |r.signals| == Min(5, |a.signals| + |b.signals| + |c.signals| + |d.signals|)
    ensures |r.risks| == Min(3, |a.risks| + |b.risks| + |c.risks| + |d.risks|)
    ensures forall i :: 0 <= i < |r.signals| ==> r.signals[i] == text((a.signals + b.signals + c.signals + d.signals)[i])
    ensures forall i :: 0 <= i < |r.risks| ==> r.risks[i] == text((a.risks + b.risks + c.risks + d.risks)[i])
    ensures r.labels == labels && r.metrics == metrics
  {
    var total := a.score + b.score + c.score + d.score;
    Report(total, [a.score, b.score, c.score, d.score], Recommend(total),
           Prefix(Labels(a.signals + b.signals + c.signals + d.signals, text), 5),
           Prefix(Labels(a.risks + b.risks + c.risks + d.risks, text), 3),
           labels, metrics)
  }

  // ---------------------------------------------------------------------
  // Python and pandas built-ins
  // ---------------------------------------------------------------------

  /**
   * Python `s[:n]`, which is also pandas `head(n)`: the first n elements,
   * where a negative n leaves off the last -n elements.
   */
  function Prefix<T>(s: seq<T>, n: int): (r: seq<T>)
    ensures |r| <= |s| && r == s[..|r|]
    ensures 0 <= n ==> |r| == Min(n, |s|)
    ensures n < 0 ==> |r| == Max(0, |s| + n)
  {
    if n >= 0 then (if n <= |s| then s[..n] else s)
    else if -n <= |s| then s[..|s| + n]
    else []
  }

  /**
   * pandas `tail(n)`: the last n rows; `tail(0)` is empty and a negative n
   * drops the first -n rows.
   */
  function Tail<T>(s: seq<T>, n: int): (r: seq<T>)
    ensures |r| <= |s| && r == s[|s| - |r|..]
    ensures 0 <= n ==> |r| == Min(n, |s|)
    ensures n < 0 ==> |r| == Max(0, |s| + n)
  {
    if n >= 0 then (if n <= |s| then s[|s| - n..] else s)
    else if -n <= |s| then s[-n..]
    else []
  }

  predicate IsUpper(c: char) { 'A' <= c <= 'Z' }

  /** Python `str.lower()` on one character; only ASCII letters change case here. */
  function LowerChar(c: char): (d: char)
    ensures !IsUpper(d)
    ensures !IsUpper(c) ==> d == c
  {
    if IsUpper(c) then (c as int + 32) as char else c
  }

  /** Python `str.lower()`, character by character. */
  function Lower(s: string): (r: string)
    ensures |r| == |s|
    ensures forall i :: 0 <= i < |s| ==> r[i] == LowerChar(s[i])
  {
    seq(|s|, i requires 0 <= i < |s| => LowerChar(s[i]))
  }

  /** `kw` occurs in `text` starting at position i. */
  predicate MatchesAt(text: string, kw: string, i: int)
  {
    0 <= i && i + |kw| <= |text| && text[i..i + |kw|] == kw
  }

  /** Python `kw in text` on strings. */
  predicate Contains(text: string, kw: string)
  {
    exists i :: 0 <= i <= |text| - |kw| && MatchesAt(text, kw, i)
  }

  /** Python `any(kw in text for kw in kws)`. */
  predicate ContainsAny(text: string, kws: seq<string>)
  {
    exists k :: 0 <= k < |kws| && Contains(text, kws[k])
  }

  /**
   * A keyword holding an upper-case letter is never found in a text without
   * one, in particular never in a lowered text.
   */
  lemma UpperKeywordNeverMatches(text: string, kw: string, j: nat)
    requires j < |kw| && IsUpper(kw[j])
    requires forall i :: 0 <= i < |text| ==> !IsUpper(text[i])
    ensures !Contains(text, kw)
  {
  }

  /** Python `sum(...)` over reals. */
  function SumReal(s: seq<real>): real
  {
    if s == [] then 0.0 else s[0] + SumReal(s[1..])
  }

  lemma {:induction false} SumRealAppend(s: seq<real>, x: real)
    ensures SumReal(s + [x]) == SumReal(s) + x
  {
    if s == [] {
      assert [] + [x] == [x];
    } else {
      assert (s + [x])[1..] == s[1..] + [x];
      SumRealAppend(s[1..], x);
    }
  }
}
