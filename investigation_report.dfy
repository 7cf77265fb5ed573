// investigation_report.py: the investigation list gathered from the scanner
// result files (deduplicated by symbol and investigation type), the combined
// signal entries, the priority-then-score order, and the table rows of the
// report with their badge and the 50-row cap.
module InvestigationReport {
  import opened Common
  import opened Sorting

  /**
   * The keys of one scanner result that the report reads; None stands for a
   * key the result does not have.
   */
  datatype StockInfo = StockInfo(symbol: Option<string>, name: Option<string>, price: Option<real>,
                                 changePct: Option<real>, priceChange: Option<real>, score: Option<real>,
                                 livermoreCount: Option<int>, oneilCount: Option<int>,
                                 minerviniCount: Option<int>)

  datatype Priority = High | Normal

  datatype Investigation = Investigation(symbol: string, name: string, kind: string, price: real,
                                         change: real, score: real, priority: Priority, details: StockInfo)

  /** Python `d.get(key, default)`. */
  function Get<T>(o: Option<T>, default: T): T
  {
    if o.Some? then o.value else default
  }

  function SymbolOf(stock: StockInfo): string
  {
    Get(stock.symbol, "")
  }

  /** The change column: `change_pct`, else `price_change`, else 0. */
  function ChangeOf(stock: StockInfo): (change: real)
    ensures stock.changePct.Some? ==> change == stock.changePct.value
    ensures stock.changePct.None? && stock.priceChange.Some? ==> change == stock.priceChange.value
    ensures stock.changePct.None? && stock.priceChange.None? ==> change == 0.0
  {
    Get(stock.changePct, Get(stock.priceChange, 0.0))
  }

  /** The entry `add_investigation` appends for a stock not yet listed under `kind`. */
  function EntryOf(stock: StockInfo, kind: string, priority: Priority): Investigation
  {
    Investigation(SymbolOf(stock), Get(stock.name, ""), kind, Get(stock.price, 0.0), ChangeOf(stock),
                  Get(stock.score, 0.0), priority, stock)
  }

  /** Some entry already has this symbol and this investigation type. */
  predicate Listed(entries: seq<Investigation>, symbol: string, kind: string)
  {
    exists i :: 0 <= i < |entries| && entries[i].symbol == symbol && entries[i].kind == kind
  }

  /** No two entries share both symbol and investigation type. */
  predicate Unique(entries: seq<Investigation>)
  {
    forall i, j :: 0 <= i < j < |entries| ==>
      !(entries[i].symbol == entries[j].symbol && entries[i].kind == entries[j].kind)
  }

  /** The list after `add_investigation(entries, stock, kind, priority)`. */
  function Added(entries: seq<Investigation>, stock: StockInfo, kind: string, priority: Priority): seq<Investigation>
  {
    if Listed(entries, SymbolOf(stock), kind) then entries else entries + [EntryOf(stock, kind, priority)]
  }

  /**
   * Adding leaves an already listed (symbol, type) pair alone, otherwise
   * appends exactly the new entry; either way the pair is listed afterwards,
   * the earlier entries are kept in place and uniqueness is preserved.
   */
  lemma AddedExactly(entries: seq<Investigation>, stock: StockInfo, kind: string, priority: Priority)
    ensures Listed(entries, SymbolOf(stock), kind) ==> Added(entries, stock, kind, priority) == entries
    ensures !Listed(entries, SymbolOf(stock), kind) ==>
              Added(entries, stock, kind, priority) == entries + [EntryOf(stock, kind, priority)]
    ensures Listed(Added(entries, stock, kind, priority), SymbolOf(stock), kind)
    ensures Unique(entries) ==> Unique(Added(entries, stock, kind, priority))
  {
    var added := Added(entries, stock, kind, priority);
    if !Listed(entries, SymbolOf(stock), kind) {
      assert added[|entries|] == EntryOf(stock, kind, priority);
    }
  }

  /** The loop over one file's `stocks`, every stock added under the same type. */
  function AddAll(entries: seq<Investigation>, stocks: seq<StockInfo>, kind: string, priority: Priority): seq<Investigation>
  {
    if stocks == [] then entries
    else Added(AddAll(entries, stocks[..|stocks| - 1], kind, priority), stocks[|stocks| - 1], kind, priority)
  }

  /** Korean name of a KOSDAQ strategy key; an unknown key is kept as it is. */
  function StrategyName(key: string): (name: string)
    ensures key == "livermore" ==> name == "리버모어"
    ensures key == "oneil" ==> name == "오닐"
    ensures key == "minervini" ==> name == "미너비니"
    ensures key !in {"livermore", "oneil", "minervini"} ==> name == key
  {
    if key == "livermore" then "리버모어"
    else if key == "oneil" then "오닐"
    else if key == "minervini" then "미너비니"
    else key
  }

  /** The loop over the KOSDAQ results, one (strategy, stocks) group at a time. */
  function AddKosdaq(entries: seq<Investigation>, groups: seq<(string, seq<StockInfo>)>): seq<Investigation>
  {
    if groups == [] then entries
    else
      var last := groups[|groups| - 1];
      AddAll(AddKosdaq(entries, groups[..|groups| - 1]), last.1, "KOSDAQ " + StrategyName(last.0), Normal)
  }

  /** `x > 0` on `stock.get(key, 0)`. */
  predicate Positive(count: Option<int>)
  {
    Get(count, 0) > 0
  }

  /** The position of a strategy name in the fixed order livermore, oneil, minervini. */
  function Order(name: string): int
  {
    if name == "리버모어" then 0 else if name == "오닐" then 1 else 2
  }

  function Indicator(b: bool): nat { if b then 1 else 0 }

  /**
   * The strategies whose count is positive: each exactly when its count is,
   * in the fixed order livermore, oneil, minervini.
   */
  function CombinedSignals(stock: StockInfo): (signals: seq<string>)
    ensures |signals| == Indicator(Positive(stock.livermoreCount)) + Indicator(Positive(stock.oneilCount))
                         + Indicator(Positive(stock.minerviniCount))
    ensures "리버모어" in signals <==> Positive(stock.livermoreCount)
    ensures "오닐" in signals <==> Positive(stock.oneilCount)
    ensures "미너비니" in signals <==> Positive(stock.minerviniCount)
    ensures forall i, j :: 0 <= i < j < |signals| ==> Order(signals[i]) < Order(signals[j])
  {
    (if Positive(stock.livermoreCount) then ["리버모어"] else [])
    + (if Positive(stock.oneilCount) then ["오닐"] else [])
    + (if Positive(stock.minerviniCount) then ["미너비니"] else [])
  }

  /** Python `sep.join(parts)`. */
  function Join(sep: string, parts: seq<string>): string
  {
    if parts == [] then "" else if |parts| == 1 then parts[0] else parts[0] + sep + Join(sep, parts[1..])
  }

  function CombinedLabel(signals: seq<string>): string
  {
    "복합 신호: " + Join(" + ", signals)
  }

  /** The loop over the double-signal results: a high-priority entry for two or more signals. */
  function AddCombined(entries: seq<Investigation>, stocks: seq<StockInfo>): seq<Investigation>
  {
    if stocks == [] then entries
    else
      var rest := AddCombined(entries, stocks[..|stocks| - 1]);
      var stock := stocks[|stocks| - 1];
      var signals := CombinedSignals(stock);
      if |signals| >= 2 then Added(rest, stock, CombinedLabel(signals), High) else rest
  }

  /**
   * The result files, each None when it is missing or cannot be read; a
   * file without its list key reads as an empty list.
   */
  datatype Sources = Sources(livermore: Option<seq<StockInfo>>, oneil: Option<seq<StockInfo>>,
                             minervini: Option<seq<StockInfo>>,
                             kosdaq: Option<seq<(string, seq<StockInfo>)>>,
                             doubles: Option<seq<StockInfo>>)

  function Items<T>(file: Option<seq<T>>): seq<T>
  {
    if file.Some? then file.value else []
  }

  const LivermoreType := "리버모어 52주 신고가 돌파"
  const OneilType := "오닐 거래량 폭발"
  const MinerviniType := "미너비니 VCP 패턴"

  /** The investigations in the order they are added, before sorting. */
  function Collected(sources: Sources): seq<Investigation>
  {
    var afterLivermore := AddAll([], Items(sources.livermore), LivermoreType, Normal);
    var afterOneil := AddAll(afterLivermore, Items(sources.oneil), OneilType, Normal);
    var afterMinervini := AddAll(afterOneil, Items(sources.minervini), MinerviniType, Normal);
    var afterKosdaq := AddKosdaq(afterMinervini, Items(sources.kosdaq));
    AddCombined(afterKosdaq, Items(sources.doubles))
  }

  /** The sort key `(0 if priority == 'high' else 1, -score)`. */
  function PriorityKey(e: Investigation): Rank
  {
    Rank(if e.priority == High then 0 else 1, e.score)
  }

  /** `data['investigations']` once `load_investigation_data` has sorted it. */
  function Loaded(sources: Sources): seq<Investigation>
  {
    SortBy(Collected(sources), PriorityKey)
  }

  // ---------------------------------------------------------------------
  // The report object
  // ---------------------------------------------------------------------

  class Report {
    var investigations: seq<Investigation>

    constructor ()
      ensures investigations == []
    {
      investigations := [];
    }

    /** `add_investigation`: scans for the pair and appends only when it is new. */
    method AddInvestigation(stock: StockInfo, kind: string, priority: Priority)
      modifies this
      ensures investigations == Added(old(investigations), stock, kind, priority)
    {
      var symbol := SymbolOf(stock);
      var i := 0;
      while i < |investigations|
        invariant 0 <= i <= |investigations|
        invariant investigations == old(investigations)
        invariant forall j :: 0 <= j < i ==> !(investigations[j].symbol == symbol && investigations[j].kind == kind)
      {
        if investigations[i].symbol == symbol && investigations[i].kind == kind {
          return;
        }
        i := i + 1;
      }
      investigations := investigations + [EntryOf(stock, kind, priority)];
    }

    /** One file's loop: every stock added under the same type and priority. */
    method AddStocks(stocks: seq<StockInfo>, kind: string, priority: Priority)
      modifies this
      ensures investigations == AddAll(old(investigations), stocks, kind, priority)
    {
      var i := 0;
      while i < |stocks|
        invariant 0 <= i <= |stocks|
        invariant investigations == AddAll(old(investigations), stocks[..i], kind, priority)
      {
        assert stocks[..i + 1][..i] == stocks[..i];
        AddInvestigation(stocks[i], kind, priority);
        i := i + 1;
      }
      assert stocks[..|stocks|] == stocks;
    }

    /** The KOSDAQ file's loop over strategies, each group under `KOSDAQ <name>`. */
    method AddKosdaqGroups(groups: seq<(string, seq<StockInfo>)>)
      modifies this
      ensures investigations == AddKosdaq(old(investigations), groups)
    {
      var i := 0;
      while i < |groups|
        invariant 0 <= i <= |groups|
        invariant investigations == AddKosdaq(old(investigations), groups[..i])
      {
        assert groups[..i + 1][..i] == groups[..i];
        AddStocks(groups[i].1, "KOSDAQ " + StrategyName(groups[i].0), Normal);
        i := i + 1;
      }
      assert groups[..|groups|] == groups;
    }

    /** The double-signal file's loop. */
    method AddDoubles(stocks: seq<StockInfo>)
      modifies this
      ensures investigations == AddCombined(old(investigations), stocks)
    {
      var i := 0;
      while i < |stocks|
        invariant 0 <= i <= |stocks|
        invariant investigations == AddCombined(old(investigations), stocks[..i])
      {
        assert stocks[..i + 1][..i] == stocks[..i];
        var signals := CombinedSignals(stocks[i]);
        if |signals| >= 2 {
          AddInvestigation(stocks[i], CombinedLabel(signals), High);
        }
        i := i + 1;
      }
      assert stocks[..|stocks|] == stocks;
    }

    /** The investigation part of `load_investigation_data`, files in their fixed order, then the sort. */
    method Load(sources: Sources)
      modifies this
      ensures investigations == Loaded(sources)
    {
      investigations := [];
      AddStocks(Items(sources.livermore), LivermoreType, Normal);
      AddStocks(Items(sources.oneil), OneilType, Normal);
      AddStocks(Items(sources.minervini), MinerviniType, Normal);
      AddKosdaqGroups(Items(sources.kosdaq));
      AddDoubles(Items(sources.doubles));
      investigations := SortBy(investigations, PriorityKey);
    }
  }

  // ---------------------------------------------------------------------
  // Report rows
  // ---------------------------------------------------------------------

  datatype Badge = CompositeBadge | LivermoreBadge | OneilBadge | MinerviniBadge | KosdaqBadge

  /** The badge of the first of 복합, 리버모어, 오닐, 미너비니 the type contains. */
  function BadgeOf(kind: string): (b: Badge)
    ensures b == CompositeBadge <==> Contains(kind, "복합")
    ensures b == LivermoreBadge <==> !Contains(kind, "복합") && Contains(kind, "리버모어")
    ensures b == OneilBadge <==> !Contains(kind, "복합") && !Contains(kind, "리버모어") && Contains(kind, "오닐")
    ensures b == MinerviniBadge <==>
              !Contains(kind, "복합") && !Contains(kind, "리버모어") && !Contains(kind, "오닐") && Contains(kind, "미너비니")
  {
    if Contains(kind, "복합") then CompositeBadge
    else if Contains(kind, "리버모어") then LivermoreBadge
    else if Contains(kind, "오닐") then OneilBadge
    else if Contains(kind, "미너비니") then MinerviniBadge
    else KosdaqBadge
  }

  datatype ChangeColor = Gain | Loss | Flat

  /** One table row: the HIGH/NORMAL badge, the type badge and the change colour. */
  datatype Row = Row(highPriority: bool, badge: Badge, color: ChangeColor, entry: Investigation)

  function RowOf(e: Investigation): Row
  {
    Row(e.priority == High, BadgeOf(e.kind), if e.change > 0.0 then Gain else if e.change < 0.0 then Loss else Flat, e)
  }

  /** The row loop of `generate_report`: only the first 50 investigations are shown. */
  method ReportRows(investigations: seq<Investigation>) returns (rows: seq<Row>)
    ensures |rows| == Min(50, |investigations|)
    ensures forall k :: 0 <= k < |rows| ==> rows[k] == RowOf(investigations[k])
  {
    var shown := Prefix(investigations, 50);
    rows := [];
    var i := 0;
    while i < |shown|
      invariant 0 <= i <= |shown|
      invariant |rows| == i
      invariant forall k :: 0 <= k < i ==> rows[k] == RowOf(shown[k])
    {
      rows := rows + [RowOf(shown[i])];
      i := i + 1;
    }
  }

  function CountPriority(entries: seq<Investigation>, p: Priority): (n: nat)
    ensures n <= |entries|
  {
    if entries == [] then 0
    else CountPriority(entries[..|entries| - 1], p) + (if entries[|entries| - 1].priority == p then 1 else 0)
  }

  // ---------------------------------------------------------------------
  // Properties
  // ---------------------------------------------------------------------

  /** Entries added by one file's loop keep the earlier list as a prefix and keep uniqueness. */
  lemma {:induction false} AddAllShape(entries: seq<Investigation>, stocks: seq<StockInfo>, kind: string, priority: Priority)
    ensures |entries| <= |AddAll(entries, stocks, kind, priority)| <= |entries| + |stocks|
    ensures AddAll(entries, stocks, kind, priority)[..|entries|] == entries
    ensures Unique(entries) ==> Unique(AddAll(entries, stocks, kind, priority))
    ensures forall e :: e in AddAll(entries, stocks, kind, priority) ==>
              e in entries || (e.kind == kind && e.priority == priority && e.details in stocks)
  {
    if stocks != [] {
      var init := stocks[..|stocks| - 1];
      var last := stocks[|stocks| - 1];
      AddAllShape(entries, init, kind, priority);
      var before := AddAll(entries, init, kind, priority);
      AddedExactly(before, last, kind, priority);
      assert before[..|entries|] == entries;
      assert AddAll(entries, stocks, kind, priority)[..|entries|] == before[..|entries|];
      forall e | e in AddAll(entries, stocks, kind, priority)
        ensures e in entries || (e.kind == kind && e.priority == priority && e.details in stocks)
      {
        if e !in before {
          assert e == EntryOf(last, kind, priority);
        } else if e !in entries {
          assert e.details in init;
        }
      }
    }
  }

  /** The same for the KOSDAQ groups: every new entry is a normal `KOSDAQ <name>` entry. */
  lemma {:induction false} AddKosdaqShape(entries: seq<Investigation>, groups: seq<(string, seq<StockInfo>)>)
    ensures |entries| <= |AddKosdaq(entries, groups)|
    ensures AddKosdaq(entries, groups)[..|entries|] == entries
    ensures Unique(entries) ==> Unique(AddKosdaq(entries, groups))
    ensures forall e :: e in AddKosdaq(entries, groups) ==>
              e in entries || (e.priority == Normal &&
                               exists g :: 0 <= g < |groups| && e.kind == "KOSDAQ " + StrategyName(groups[g].0))
  {
    if groups != [] {
      var init := groups[..|groups| - 1];
      var last := groups[|groups| - 1];
      AddKosdaqShape(entries, init);
      var before := AddKosdaq(entries, init);
      var kind := "KOSDAQ " + StrategyName(last.0);
      AddAllShape(before, last.1, kind, Normal);
      assert AddKosdaq(entries, groups)[..|entries|] == before[..|before|][..|entries|];
      forall e | e in AddKosdaq(entries, groups)
        ensures e in entries || (e.priority == Normal &&
                                 exists g :: 0 <= g < |groups| && e.kind == "KOSDAQ " + StrategyName(groups[g].0))
      {
        if e !in before {
          assert e.kind == "KOSDAQ " + StrategyName(groups[|groups| - 1].0);
        } else if e !in entries {
          var g :| 0 <= g < |init| && e.kind == "KOSDAQ " + StrategyName(init[g].0);
          assert groups[g] == init[g];
        }
      }
    }
  }

  /**
   * The double-signal loop adds only high-priority entries, each for a stock
   * with at least two positive counts, labelled by those strategies.
   */
  lemma {:induction false} AddCombinedShape(entries: seq<Investigation>, stocks: seq<StockInfo>)
    ensures |entries| <= |AddCombined(entries, stocks)|
    ensures AddCombined(entries, stocks)[..|entries|] == entries
    ensures Unique(entries) ==> Unique(AddCombined(entries, stocks))
    ensures forall e :: e in AddCombined(entries, stocks) ==>
              e in entries || (e.priority == High && e.details in stocks && |CombinedSignals(e.details)| >= 2 &&
                               e.kind == CombinedLabel(CombinedSignals(e.details)))
  {
    if stocks != [] {
      var init := stocks[..|stocks| - 1];
      var last := stocks[|stocks| - 1];
      AddCombinedShape(entries, init);
      var before := AddCombined(entries, init);
      var signals := CombinedSignals(last);
      if |signals| >= 2 {
        AddedExactly(before, last, CombinedLabel(signals), High);
        assert AddCombined(entries, stocks)[..|entries|] == before[..|entries|];
      }
      forall e | e in AddCombined(entries, stocks)
        ensures e in entries || (e.priority == High && e.details in stocks && |CombinedSignals(e.details)| >= 2 &&
                                 e.kind == CombinedLabel(CombinedSignals(e.details)))
      {
        if e !in before {
          assert e == EntryOf(last, CombinedLabel(signals), High);
        } else if e !in entries {
          assert e.details in init;
        }
      }
    }
  }

  /** A list without repeated (symbol, type) pairs holds every entry once. */
  lemma {:induction false} UniqueOnce(entries: seq<Investigation>, x: Investigation)
    requires Unique(entries)
    ensures multiset(entries)[x] <= 1
  {
    if entries != [] {
      var init := entries[..|entries| - 1];
      assert entries == init + [entries[|entries| - 1]];
      assert Unique(init);
      UniqueOnce(init, x);
      if entries[|entries| - 1] == x {
        forall i | 0 <= i < |init| ensures init[i] != x {
          assert entries[i] == init[i];
        }
      }
    }
  }

  /** A reordering of a list without repeated (symbol, type) pairs has none either. */
  lemma UniquePermuted(a: seq<Investigation>, b: seq<Investigation>)
    requires Unique(a) && multiset(a) == multiset(b)
    ensures Unique(b)
  {
    forall i, j | 0 <= i < j < |b| ensures !(b[i].symbol == b[j].symbol && b[i].kind == b[j].kind) {
      assert b[i] in multiset(a) && b[j] in multiset(a);
      var p :| 0 <= p < |a| && a[p] == b[i];
      var q :| 0 <= q < |a| && a[q] == b[j];
      if b[i] == b[j] {
        assert b == b[..j] + b[j..];
        assert b[i] in b[..j] && b[j] in b[j..];
        assert multiset(b)[b[i]] == multiset(b[..j])[b[i]] + multiset(b[j..])[b[i]];
        UniqueOnce(a, b[i]);
        assert false;
      } else {
        assert p != q;
      }
    }
  }

  /**
   * The loaded investigations: no (symbol, type) pair twice; exactly the
   * collected entries, reordered; every high-priority entry before every
   * normal one; within a priority, scores descending with ties in the order
   * they were added; and every high-priority entry is a combined-signal entry
   * for a stock with two or more positive counts.
   */
  lemma LoadedShape(sources: Sources)
    ensures Unique(Loaded(sources))
    ensures multiset(Loaded(sources)) == multiset(Collected(sources))
    ensures forall i, j :: 0 <= i < j < |Loaded(sources)| ==>
              !Before(PriorityKey(Loaded(sources)[j]), PriorityKey(Loaded(sources)[i]))
    ensures forall k :: WithKey(Loaded(sources), PriorityKey, k) == WithKey(Collected(sources), PriorityKey, k)
    ensures forall e :: e in Loaded(sources) && e.priority == High ==>
              e.details in Items(sources.doubles) && |CombinedSignals(e.details)| >= 2 &&
              e.kind == CombinedLabel(CombinedSignals(e.details))
  {
    var afterLivermore := AddAll([], Items(sources.livermore), LivermoreType, Normal);
    var afterOneil := AddAll(afterLivermore, Items(sources.oneil), OneilType, Normal);
    var afterMinervini := AddAll(afterOneil, Items(sources.minervini), MinerviniType, Normal);
    var afterKosdaq := AddKosdaq(afterMinervini, Items(sources.kosdaq));
    AddAllShape([], Items(sources.livermore), LivermoreType, Normal);
    AddAllShape(afterLivermore, Items(sources.oneil), OneilType, Normal);
    AddAllShape(afterOneil, Items(sources.minervini), MinerviniType, Normal);
    AddKosdaqShape(afterMinervini, Items(sources.kosdaq));
    AddCombinedShape(afterKosdaq, Items(sources.doubles));
    var collected := Collected(sources);
    SortByPermutes(collected, PriorityKey);
    SortBySorted(collected, PriorityKey);
    UniquePermuted(collected, Loaded(sources));
    forall k ensures WithKey(Loaded(sources), PriorityKey, k) == WithKey(collected, PriorityKey, k) {
      SortByStable(collected, PriorityKey, k);
    }
    forall e | e in Loaded(sources) && e.priority == High
      ensures e.details in Items(sources.doubles) && |CombinedSignals(e.details)| >= 2 &&
              e.kind == CombinedLabel(CombinedSignals(e.details))
    {
      SortByMembers(collected, PriorityKey, e);
    }
  }

  /** In the sorted list every high-priority entry precedes every normal one. */
  lemma HighBeforeNormal(sources: Sources, i: nat, j: nat)
    requires i < |Loaded(sources)| && j < |Loaded(sources)|
    requires Loaded(sources)[i].priority == High && Loaded(sources)[j].priority == Normal
    ensures i < j
  {
    LoadedShape(sources);
  }

  /** A stock flagged by the livermore and oneil scans, not minervini, is labelled with both, in that order. */
  lemma LivermoreOneilLabel(stock: StockInfo)
    requires Positive(stock.livermoreCount) && Positive(stock.oneilCount) && !Positive(stock.minerviniCount)
    ensures CombinedSignals(stock) == ["리버모어", "오닐"]
    ensures CombinedLabel(CombinedSignals(stock)) == "복합 신호: 리버모어 + 오닐"
  {
    assert CombinedSignals(stock) == ["리버모어"] + ["오닐"];
    assert Join(" + ", ["리버모어", "오닐"]) == "리버모어" + " + " + "오닐";
  }

  /**
   * A stock with two or more positive counts ends up listed under its
   * combined label; when it was not listed yet, exactly its high-priority
   * entry is appended.
   */
  lemma CombinedEntryAdded(entries: seq<Investigation>, stock: StockInfo)
    requires |CombinedSignals(stock)| >= 2
    ensures Listed(AddCombined(entries, [stock]), SymbolOf(stock), CombinedLabel(CombinedSignals(stock)))
    ensures !Listed(entries, SymbolOf(stock), CombinedLabel(CombinedSignals(stock))) ==>
              AddCombined(entries, [stock]) == entries + [EntryOf(stock, CombinedLabel(CombinedSignals(stock)), High)]
  {
    var kind := CombinedLabel(CombinedSignals(stock));
    assert [stock][..0] == [];
    assert AddCombined(entries, [stock]) == Added(AddCombined(entries, []), stock, kind, High);
    AddedExactly(entries, stock, kind, High);
  }

  /** A stock with at most one positive count never gets a combined entry. */
  lemma SingleSignalNotCombined(entries: seq<Investigation>, stock: StockInfo)
    requires Indicator(Positive(stock.livermoreCount)) + Indicator(Positive(stock.oneilCount))
             + Indicator(Positive(stock.minerviniCount)) <= 1
    ensures AddCombined(entries, [stock]) == entries
  {
    assert [stock][..0] == [];
  }

  /** HIGH and NORMAL counts of the report header add up to the total. */
  lemma {:induction false} PriorityCounts(entries: seq<Investigation>)
    ensures CountPriority(entries, High) + CountPriority(entries, Normal) == |entries|
  {
    if entries != [] {
      PriorityCounts(entries[..|entries| - 1]);
    }
  }

  /** A keyword whose first character the text lacks does not occur in it. */
  lemma AbsentFirstChar(text: string, kw: string)
    requires |kw| > 0 && kw[0] !in text
    ensures !Contains(text, kw)
  {
    forall i | 0 <= i <= |text| - |kw| ensures !MatchesAt(text, kw, i) {
      assert text[i..i + |kw|][0] == text[i];
    }
  }

  /** A keyword occurs in a text made of some prefix, the keyword and some suffix. */
  lemma Occurs(prefix: string, kw: string, suffix: string)
    ensures Contains(prefix + kw + suffix, kw)
  {
    assert MatchesAt(prefix + kw + suffix, kw, |prefix|) by {
      assert (prefix + kw + suffix)[|prefix|..|prefix| + |kw|] == kw;
    }
  }

  /** The livermore types, the KOSDAQ one included, get the livermore badge. */
  lemma LivermoreBadges()
    ensures BadgeOf(LivermoreType) == LivermoreBadge
    ensures BadgeOf("KOSDAQ " + StrategyName("livermore")) == LivermoreBadge
  {
    Occurs("", "리버모어", " 52주 신고가 돌파");
    assert "" + "리버모어" + " 52주 신고가 돌파" == LivermoreType;
    AbsentFirstChar(LivermoreType, "복합");
    Occurs("KOSDAQ ", "리버모어", "");
    assert "KOSDAQ " + "리버모어" + "" == "KOSDAQ " + StrategyName("livermore");
    AbsentFirstChar("KOSDAQ " + StrategyName("livermore"), "복합");
  }

  /** The oneil types, the KOSDAQ one included, get the oneil badge. */
  lemma OneilBadges()
    ensures BadgeOf(OneilType) == OneilBadge
    ensures BadgeOf("KOSDAQ " + StrategyName("oneil")) == OneilBadge
  {
    Occurs("", "오닐", " 거래량 폭발");
    assert "" + "오닐" + " 거래량 폭발" == OneilType;
    AbsentFirstChar(OneilType, "복합");
    AbsentFirstChar(OneilType, "리버모어");
    Occurs("KOSDAQ ", "오닐", "");
    assert "KOSDAQ " + "오닐" + "" == "KOSDAQ " + StrategyName("oneil");
    AbsentFirstChar("KOSDAQ " + StrategyName("oneil"), "복합");
    AbsentFirstChar("KOSDAQ " + StrategyName("oneil"), "리버모어");
  }

  /** The minervini types, the KOSDAQ one included, get the minervini badge. */
  lemma MinerviniBadges()
    ensures BadgeOf(MinerviniType) == MinerviniBadge
    ensures BadgeOf("KOSDAQ " + StrategyName("minervini")) == MinerviniBadge
  {
    MinerviniTypeBadge();
    KosdaqMinerviniBadge();
  }

  lemma MinerviniTypeBadge()
    ensures BadgeOf(MinerviniType) == MinerviniBadge
  {
    var kind := MinerviniType;
    assert kind[..4] == "미너비니";
    assert MatchesAt(kind, "미너비니", 0);
    AbsentFirstChar(kind, "복합");
    AbsentFirstChar(kind, "리버모어");
    AbsentFirstChar(kind, "오닐");
  }

  lemma KosdaqMinerviniBadge()
    ensures BadgeOf("KOSDAQ " + StrategyName("minervini")) == MinerviniBadge
  {
    var t := "KOSDAQ " + StrategyName("minervini");
    Occurs("KOSDAQ ", "미너비니", "");
    assert "KOSDAQ " + "미너비니" + "" == t;
    AbsentFirstChar(t, "복합");
    AbsentFirstChar(t, "리버모어");
    AbsentFirstChar(t, "오닐");
  }

  /** Every combined-signal type gets the composite badge. */
  lemma CombinedBadge(signals: seq<string>)
    ensures BadgeOf(CombinedLabel(signals)) == CompositeBadge
  {
    Occurs("", "복합", " 신호: " + Join(" + ", signals));
    assert CombinedLabel(signals) == "" + "복합" + (" 신호: " + Join(" + ", signals));
  }
}
