// What the four strategy scanners share: the KOSPI watchlist and name map of
// the O'Neil, Minervini and Livermore scanners, the guarded volume ratio,
// the `name_map.get(symbol, symbol)` lookup, the scan loop's "keep the
// accepted results in watchlist order", and the final sort by score.
module ScannerCommon {
  import opened Common
  import opened Sorting

  /** The twenty symbols each KOSPI scanner's `_load_watchlist` returns. */
  const KospiWatchlist: seq<string> := [
    "005930.KS", "000660.KS", "035420.KS", "005380.KS", "051910.KS",
    "035720.KS", "006400.KS", "068270.KS", "005490.KS", "028260.KS",
    "012450.KS", "247540.KS", "086520.KS", "091990.KS", "196170.KS",
    "352820.KS", "259960.KS", "161890.KS", "214150.KS", "263750.KS"
  ]

  /** The `name_map` each KOSPI scanner builds for its result. */
  const KospiNames: map<string, string> := map[
    "005930.KS" := "삼성전자", "000660.KS" := "SK하이닉스",
    "035420.KS" := "NAVER", "005380.KS" := "현대차",
    "051910.KS" := "LG화학", "035720.KS" := "카카오",
    "006400.KS" := "삼성SDI", "068270.KS" := "셀트리온",
    "005490.KS" := "POSCO홀딩스", "028260.KS" := "삼성물산",
    "012450.KS" := "한화에어로스페이스", "247540.KS" := "에코프로비엠",
    "086520.KS" := "에코프로", "091990.KS" := "셀트리온헬스케어",
    "196170.KS" := "알테오젠", "352820.KS" := "하이브",
    "259960.KS" := "크래프톤", "161890.KS" := "한국콜마",
    "214150.KS" := "클래시스", "263750.KS" := "펄어비스"
  ]

  /** `name_map.get(symbol, symbol)`: the mapped name, or the symbol itself. */
  function NameOr(names: map<string, string>, symbol: string): (name: string)
    ensures symbol in names ==> name == names[symbol]
    ensures symbol !in names ==> name == symbol
  {
    if symbol in names then names[symbol] else symbol
  }

  /** `current / average if average > 0 else 0`. */
  function VolumeRatio(current: real, average: real): (ratio: real)
    ensures average <= 0.0 ==> ratio == 0.0
    ensures average > 0.0 ==> ratio * average == current
  {
    if average > 0.0 then current / average else 0.0
  }

  /** A volume ratio of a non-negative volume is never negative. */
  lemma VolumeRatioNonNegative(current: real, average: real)
    requires current >= 0.0
    ensures VolumeRatio(current, average) >= 0.0
  {
    if average > 0.0 {
      assert VolumeRatio(current, average) * average == current;
    }
  }

  /** pandas `max()` of a non-empty column. */
  function MaxOf(s: seq<real>): (m: real)
    requires |s| > 0
    ensures m in s
    ensures forall k :: 0 <= k < |s| ==> s[k] <= m
  {
    if |s| == 1 then s[0]
    else if s[0] >= MaxOf(s[1..]) then s[0]
    else MaxOf(s[1..])
  }

  /** The 52-week high: the highest of the last 252 highs, or of all when there are fewer. */
  function High52Week(highs: seq<real>): (m: real)
    requires |highs| > 0
    ensures forall k :: 0 <= k < |highs| && k >= |highs| - 252 ==> highs[k] <= m
    ensures exists k :: 0 <= k < |highs| && k >= |highs| - 252 && highs[k] == m
  {
    var window := Tail(highs, 252);
    var m := MaxOf(window);
    assert forall k :: 0 <= k < |highs| && k >= |highs| - 252 ==> highs[k] == window[k - (|highs| - |window|)];
    var j :| 0 <= j < |window| && window[j] == m;
    assert highs[j + (|highs| - |window|)] == m;
    m
  }

  /**
   * The scan loop: each watchlist symbol analysed in order, and the result
   * kept only when the analysis accepts the stock.
   */
  function Found<R>(symbols: seq<string>, analyze: string -> Option<R>): seq<R>
  {
    if symbols == [] then []
    else Found(symbols[..|symbols| - 1], analyze)
         + AsList(analyze(symbols[|symbols| - 1]))
  }

  /** Scanning one more symbol appends its result, if any. */
  lemma FoundStep<R>(symbols: seq<string>, i: nat, analyze: string -> Option<R>)
    requires i < |symbols|
    ensures Found(symbols[..i + 1], analyze) == Found(symbols[..i], analyze) + AsList(analyze(symbols[i]))
  {
    assert symbols[..i + 1][..i] == symbols[..i];
  }

  /** An accepted result as a one-element list, a rejection as the empty list. */
  function AsList<R>(r: Option<R>): (s: seq<R>)
    ensures r.None? ==> s == []
    ensures r.Some? ==> s == [r.value]
  {
    match r
    case Some(x) => [x]
    case None => []
  }

  /** Found holds exactly the accepted results, at most one per symbol. */
  lemma {:induction false} FoundExactly<R>(symbols: seq<string>, analyze: string -> Option<R>)
    ensures |Found(symbols, analyze)| <= |symbols|
    ensures forall r :: r in Found(symbols, analyze) <==> exists k :: 0 <= k < |symbols| && analyze(symbols[k]) == Some(r)
  {
    if symbols != [] {
      var init := symbols[..|symbols| - 1];
      FoundExactly(init, analyze);
      forall r ensures r in Found(symbols, analyze) <==> exists k :: 0 <= k < |symbols| && analyze(symbols[k]) == Some(r) {
        if r in Found(init, analyze) {
          var k :| 0 <= k < |init| && analyze(init[k]) == Some(r);
          assert symbols[k] == init[k];
        }
        if exists k :: 0 <= k < |symbols| && analyze(symbols[k]) == Some(r) {
          var k :| 0 <= k < |symbols| && analyze(symbols[k]) == Some(r);
          if k < |symbols| - 1 {
            assert init[k] == symbols[k];
          }
        }
      }
    }
  }

  /** The sort key of `sort(key=score, reverse=True)`. */
  function ScoreKey<R>(score: R -> int): R -> Rank
  {
    r => Rank(0, score(r) as real)
  }

  /** `results.sort(key=lambda x: x['score'], reverse=True)`. */
  function ByScore<R>(results: seq<R>, score: R -> int): seq<R>
  {
    SortBy(results, ScoreKey(score))
  }

  /**
   * The sorted results are the same results, highest score first, and
   * results of equal score keep their scan order.
   */
  lemma ByScoreShape<R>(results: seq<R>, score: R -> int)
    ensures multiset(ByScore(results, score)) == multiset(results)
    ensures |ByScore(results, score)| == |results|
    ensures forall i, j :: 0 <= i < j < |ByScore(results, score)| ==>
              score(ByScore(results, score)[i]) >= score(ByScore(results, score)[j])
    ensures forall k :: WithKey(ByScore(results, score), ScoreKey(score), k) == WithKey(results, ScoreKey(score), k)
  {
    var sorted := ByScore(results, score);
    SortByPermutes(results, ScoreKey(score));
    SortBySorted(results, ScoreKey(score));
    forall i, j | 0 <= i < j < |sorted| ensures score(sorted[i]) >= score(sorted[j]) {
      assert !Before(ScoreKey(score)(sorted[j]), ScoreKey(score)(sorted[i]));
    }
    forall k ensures WithKey(sorted, ScoreKey(score), k) == WithKey(results, ScoreKey(score), k) {
      SortByStable(results, ScoreKey(score), k);
    }
  }

  /** Every sorted result satisfies whatever every scanned result does. */
  lemma ByScoreKeeps<R>(results: seq<R>, score: R -> int, p: R -> bool)
    requires forall r :: r in results ==> p(r)
    ensures forall r :: r in ByScore(results, score) ==> p(r)
  {
    forall r | r in ByScore(results, score) ensures p(r) {
      SortByMembers(results, ScoreKey(score), r);
    }
  }
}
