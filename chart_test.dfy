/** The candle-chart page (`ChartTest`): it loads a stock's daily, weekly or monthly prices
    through the quote service, turns every item whose date reads as `yyyyMMdd` into a candle,
    sorts the candles by date, and switches between the three periods. `decimal.Parse` is a
    parameter (`Failure` is the `FormatException` or `OverflowException` it throws). */
module ChartTest {
  import opened Wrappers
  import opened Calendar
  import opened Models
  import opened Http
  import opened KisQuote

  type DecimalParser = string -> Result<real, Exception>

  const EmptyResultMessage: string := "데이터 수신 결과가 비어있습니다. 토큰이나 장 마감 여부를 확인하세요."
  const SystemErrorPrefix: string := "시스템 오류: "
  const FeaturedCode: string := "005930"

  // ---------------------------------------------------------------------------------------
  // From items to candles

  /** One item: no candle when its date does not read exactly as `yyyyMMdd`; otherwise the
      five prices parsed in the order the initializer lists them, the first failure
      propagating. */
  function BarOf(item: DailyPriceDetail, parseDecimal: DecimalParser): (r: Result<Option<StockData>, Exception>)
    ensures ParseDateExact(item.date).None? ==> r == Success(None)
    ensures r.Success? && r.value.Some? ==> ParseDateExact(item.date) == Some(r.value.value.date)
    ensures r.Failure? ==>
      ParseDateExact(item.date).Some?
      && (parseDecimal(item.open).Failure? || parseDecimal(item.high).Failure? || parseDecimal(item.low).Failure?
          || parseDecimal(item.close).Failure? || parseDecimal(item.volume).Failure?)
  {
    match ParseDateExact(item.date)
    case None => Success(None)
    case Some(date) =>
      var open :- parseDecimal(item.open);
      var high :- parseDecimal(item.high);
      var low :- parseDecimal(item.low);
      var close :- parseDecimal(item.close);
      var volume :- parseDecimal(item.volume);
      Success(Some(StockData(date, open, high, low, close, volume)))
  }

  /** A dated item's candle carries that date and the parsed value of each field. */
  lemma BarOfFields(item: DailyPriceDetail, parseDecimal: DecimalParser, bar: StockData)
    requires BarOf(item, parseDecimal) == Success(Some(bar))
    ensures ParseDateExact(item.date) == Some(bar.date) && ValidDate(bar.date)
    ensures parseDecimal(item.open) == Success(bar.open) && parseDecimal(item.high) == Success(bar.high)
    ensures parseDecimal(item.low) == Success(bar.low) && parseDecimal(item.close) == Success(bar.close)
    ensures parseDecimal(item.volume) == Success(bar.volume)
  {
  }

  /** The items whose date reads as `yyyyMMdd`, in order. */
  function Dated(items: seq<DailyPriceDetail>): (d: seq<DailyPriceDetail>)
    ensures |d| <= |items|
    ensures forall j :: 0 <= j < |d| ==> d[j] in items && ParseDateExact(d[j].date).Some?
  {
    if items == [] then []
    else
      var rest := Dated(items[..|items| - 1]);
      assert forall y :: y in items[..|items| - 1] ==> y in items;
      if ParseDateExact(items[|items| - 1].date).Some? then rest + [items[|items| - 1]] else rest
  }

  /** What the loop has built, and the exception that stopped it, if any. */
  datatype Collected = Collected(bars: seq<StockData>, fault: Option<Exception>)

  /** The `foreach` loop over the items: a candle is appended per dated item until a price
      fails to parse. Without a fault the candles are the dated items' candles in order;
      with one, they are those of the items before the failing one. */
  function Collect(items: seq<DailyPriceDetail>, parseDecimal: DecimalParser): (c: Collected)
    ensures |c.bars| <= |items|
    ensures c.fault.None? ==>
      |c.bars| == |Dated(items)|
      && forall j :: 0 <= j < |c.bars| ==> BarOf(Dated(items)[j], parseDecimal) == Success(Some(c.bars[j]))
  {
    if items == [] then Collected([], None)
    else
      var init := items[..|items| - 1];
      var last := items[|items| - 1];
      var c := Collect(init, parseDecimal);
      if c.fault.Some? then c
      else
        var b := BarOf(last, parseDecimal);
        if b.Failure? then Collected(c.bars, Some(b.error))
        else if b.value.None? then
          assert Dated(items) == Dated(init) by {
            BarOfUndated(last, parseDecimal);
          }
          c
        else
          assert Dated(items) == Dated(init) + [last] by {
            BarOfDated(last, parseDecimal);
          }
          Collected(c.bars + [b.value.value], None)
  }

  lemma BarOfUndated(item: DailyPriceDetail, parseDecimal: DecimalParser)
    requires BarOf(item, parseDecimal) == Success(None)
    ensures ParseDateExact(item.date).None?
  {
  }

  lemma BarOfDated(item: DailyPriceDetail, parseDecimal: DecimalParser)
    requires BarOf(item, parseDecimal).Success? && BarOf(item, parseDecimal).value.Some?
    ensures ParseDateExact(item.date).Some?
  {
  }

  /** A fault is the exception of the first item whose price fails, and the candles are those
      of the items before it. */
  lemma {:induction false} CollectFault(items: seq<DailyPriceDetail>, parseDecimal: DecimalParser)
    requires Collect(items, parseDecimal).fault.Some?
    ensures exists i :: 0 <= i < |items| && BarOf(items[i], parseDecimal) == Failure(Collect(items, parseDecimal).fault.value)
                        && Collect(items[..i], parseDecimal) == Collected(Collect(items, parseDecimal).bars, None)
    decreases |items|, 1
  {
    if Collect(items[..|items| - 1], parseDecimal).fault.Some? {
      CollectFaultBefore(items, parseDecimal);
    } else {
      CollectFaultAtLast(items, parseDecimal);
    }
  }

  lemma {:induction false} CollectFaultBefore(items: seq<DailyPriceDetail>, parseDecimal: DecimalParser)
    requires items != [] && Collect(items[..|items| - 1], parseDecimal).fault.Some?
    ensures exists i :: 0 <= i < |items| && BarOf(items[i], parseDecimal) == Failure(Collect(items, parseDecimal).fault.value)
                        && Collect(items[..i], parseDecimal) == Collected(Collect(items, parseDecimal).bars, None)
    decreases |items|, 0
  {
    var init := items[..|items| - 1];
    var c := Collect(init, parseDecimal);
    assert Collect(items, parseDecimal) == c;
    CollectFault(init, parseDecimal);
    var i :| 0 <= i < |init| && BarOf(init[i], parseDecimal) == Failure(c.fault.value)
             && Collect(init[..i], parseDecimal) == Collected(c.bars, None);
    assert items[i] == init[i];
    CollectOfPrefix(items, init, i, parseDecimal);
    FaultWitness(items, parseDecimal, i, c.fault.value, c.bars);
  }

  lemma FaultWitness(items: seq<DailyPriceDetail>, parseDecimal: DecimalParser, i: nat, e: Exception, bars: seq<StockData>)
    requires i < |items| && BarOf(items[i], parseDecimal) == Failure(e) && Collect(items[..i], parseDecimal) == Collected(bars, None)
    ensures exists k :: 0 <= k < |items| && BarOf(items[k], parseDecimal) == Failure(e)
                        && Collect(items[..k], parseDecimal) == Collected(bars, None)
  {
  }

  lemma CollectOfPrefix(items: seq<DailyPriceDetail>, init: seq<DailyPriceDetail>, i: nat, parseDecimal: DecimalParser)
    requires i <= |init| <= |items| && init == items[..|init|]
    ensures Collect(init[..i], parseDecimal) == Collect(items[..i], parseDecimal)
  {
    assert init[..i] == items[..i];
  }

  lemma CollectFaultAtLast(items: seq<DailyPriceDetail>, parseDecimal: DecimalParser)
    requires items != [] && Collect(items[..|items| - 1], parseDecimal).fault.None?
    requires Collect(items, parseDecimal).fault.Some?
    ensures exists i :: 0 <= i < |items| && BarOf(items[i], parseDecimal) == Failure(Collect(items, parseDecimal).fault.value)
                        && Collect(items[..i], parseDecimal) == Collected(Collect(items, parseDecimal).bars, None)
  {
    var whole := Collect(items, parseDecimal);
    var i := |items| - 1;
    assert BarOf(items[i], parseDecimal) == Failure(whole.fault.value);
    assert Collect(items[..i], parseDecimal) == Collected(whole.bars, None);
  }

  /** One more item, while no price has failed. */
  lemma CollectStep(items: seq<DailyPriceDetail>, i: nat, parseDecimal: DecimalParser)
    requires i < |items| && Collect(items[..i], parseDecimal).fault.None?
    ensures var c := Collect(items[..i], parseDecimal);
      Collect(items[..i + 1], parseDecimal)
      == match BarOf(items[i], parseDecimal)
         case Failure(e) => Collected(c.bars, Some(e))
         case Success(None) => c
         case Success(Some(b)) => Collected(c.bars + [b], None)
  {
    assert items[..i + 1][..i] == items[..i];
  }

  /** An item whose date does not read adds nothing and does not stop the loop. */
  lemma UndatedItemSkipped(items: seq<DailyPriceDetail>, item: DailyPriceDetail, parseDecimal: DecimalParser)
    requires ParseDateExact(item.date).None?
    ensures Collect(items + [item], parseDecimal) == Collect(items, parseDecimal)
  {
    assert (items + [item])[..|items|] == items;
  }

  /** Once a price has failed, the later items change nothing. */
  lemma {:induction false} CollectStopsAtFault(items: seq<DailyPriceDetail>, i: nat, parseDecimal: DecimalParser)
    requires i <= |items| && Collect(items[..i], parseDecimal).fault.Some?
    ensures Collect(items, parseDecimal) == Collect(items[..i], parseDecimal)
    decreases |items| - i
  {
    if i < |items| {
      assert items[..i + 1][..i] == items[..i];
      CollectStopsAtFault(items, i + 1, parseDecimal);
    } else {
      assert items[..i] == items;
    }
  }

  // ---------------------------------------------------------------------------------------
  // Ordering by date (`OrderBy(x => x.Date)`, a stable sort)

  predicate SortedByDate(bars: seq<StockData>)
  {
    forall i, j :: 0 <= i < j < |bars| ==> !Before(bars[j].date, bars[i].date)
  }

  /** The candles of one date, in order. */
  function OfDate(bars: seq<StockData>, date: Date): seq<StockData>
  {
    if bars == [] then []
    else OfDate(bars[..|bars| - 1], date) + (if bars[|bars| - 1].date == date then [bars[|bars| - 1]] else [])
  }

  lemma NotBeforeTransitive(a: Date, b: Date, c: Date)
    requires !Before(a, b) && !Before(b, c)
    ensures !Before(a, c)
  {
  }

  /** Every candle of a sorted sequence is not later than its last one. */
  lemma LastIsLatest(sorted: seq<StockData>, bar: StockData)
    requires SortedByDate(sorted) && sorted != []
    requires !Before(bar.date, sorted[|sorted| - 1].date)
    ensures forall i :: 0 <= i < |sorted| ==> !Before(bar.date, sorted[i].date)
  {
    forall i | 0 <= i < |sorted|
      ensures !Before(bar.date, sorted[i].date)
    {
      NotBeforeTransitive(bar.date, sorted[|sorted| - 1].date, sorted[i].date);
    }
  }

  /** What an insertion before `last` produced is still not later than `last`. */
  lemma FrontNotLater(init: seq<StockData>, last: StockData, bar: StockData, front: seq<StockData>)
    requires forall i :: 0 <= i < |init| ==> !Before(last.date, init[i].date)
    requires Before(bar.date, last.date)
    requires multiset(front) == multiset(init) + multiset{bar}
    ensures forall i :: 0 <= i < |front| ==> !Before(last.date, front[i].date)
  {
    forall i | 0 <= i < |front|
      ensures !Before(last.date, front[i].date)
    {
      assert front[i] in multiset(front);
      if front[i] != bar {
        assert front[i] in multiset(init);
        var k :| 0 <= k < |init| && init[k] == front[i];
      }
    }
  }

  /** Places `bar` after every candle not later than it: before the first strictly later one. */
  function InsertByDate(sorted: seq<StockData>, bar: StockData): (r: seq<StockData>)
    requires SortedByDate(sorted)
    ensures SortedByDate(r)
    ensures multiset(r) == multiset(sorted) + multiset{bar}
  {
    if sorted != [] && Before(bar.date, sorted[|sorted| - 1].date) then
      var init := sorted[..|sorted| - 1];
      var last := sorted[|sorted| - 1];
      assert sorted == init + [last];
      var front := InsertByDate(init, bar);
      var r := front + [last];
      assert r[..|r| - 1] == front;
      FrontNotLater(init, last, bar, front);
      r
    else
      var r := sorted + [bar];
      assert r[..|r| - 1] == sorted;
      if sorted != [] then LastIsLatest(sorted, bar); r else r
  }

  /** Inserting keeps every date's candles in order, the new one after those of its date. */
  lemma {:induction false} InsertKeepsDateOrder(sorted: seq<StockData>, bar: StockData, date: Date)
    requires SortedByDate(sorted)
    ensures OfDate(InsertByDate(sorted, bar), date) == OfDate(sorted, date) + (if bar.date == date then [bar] else [])
  {
    if sorted != [] && Before(bar.date, sorted[|sorted| - 1].date) {
      var init := sorted[..|sorted| - 1];
      var last := sorted[|sorted| - 1];
      var front := InsertByDate(init, bar);
      var r := front + [last];
      assert InsertByDate(sorted, bar) == r;
      assert r[..|r| - 1] == front;
      InsertKeepsDateOrder(init, bar, date);
      var before := OfDate(init, date);
      var tail := if last.date == date then [last] else [];
      assert OfDate(r, date) == OfDate(front, date) + tail;
      assert OfDate(sorted, date) == before + tail;
      if bar.date == date {
        assert last.date != date;
        assert OfDate(front, date) == before + [bar];
        assert tail == [];
        assert OfDate(r, date) == before + [bar];
        assert OfDate(sorted, date) == before;
        assert OfDate(InsertByDate(sorted, bar), date) == OfDate(sorted, date) + [bar];
      } else {
        assert OfDate(front, date) == before;
        assert OfDate(InsertByDate(sorted, bar), date) == OfDate(sorted, date);
      }
    } else {
      var r := sorted + [bar];
      assert InsertByDate(sorted, bar) == r;
      assert r[..|r| - 1] == sorted;
      assert OfDate(InsertByDate(sorted, bar), date) == OfDate(sorted, date) + (if bar.date == date then [bar] else []);
    }
  }

  /** `OrderBy(x => x.Date)`: inserting the candles one by one in arrival order. */
  function SortByDate(bars: seq<StockData>): (r: seq<StockData>)
    ensures SortedByDate(r)
    ensures multiset(r) == multiset(bars)
  {
    if bars == [] then []
    else
      assert bars == bars[..|bars| - 1] + [bars[|bars| - 1]];
      InsertByDate(SortByDate(bars[..|bars| - 1]), bars[|bars| - 1])
  }

  /** The sort is stable: the candles of each date keep their arrival order. */
  lemma {:induction false} SortKeepsDateOrder(bars: seq<StockData>, date: Date)
    ensures OfDate(SortByDate(bars), date) == OfDate(bars, date)
  {
    if bars != [] {
      var init := bars[..|bars| - 1];
      SortKeepsDateOrder(init, date);
      InsertKeepsDateOrder(SortByDate(init), bars[|bars| - 1], date);
    }
  }

  // ---------------------------------------------------------------------------------------
  // The page

  /** The candles and the message a load leaves on the page. */
  datatype Loaded = Loaded(bars: seq<StockData>, message: string)

  /** The candles and the message `LoadRealDataAsync` leaves for a quote result: the
      service's exception or a price that fails to parse gives the system-error message (and
      the candles built so far, unsorted); a null or empty list gives the empty-result
      message; otherwise the candles sorted by date and no message. */
  function LoadOutcome(fetched: Result<Option<seq<DailyPriceDetail>>, Exception>, parseDecimal: DecimalParser): (o: Loaded)
    ensures o.message == "" ==> SortedByDate(o.bars)
    ensures |o.bars| <= (if fetched.Success? && fetched.value.Some? then |fetched.value.value| else 0)
    ensures fetched.Failure? ==> o == Loaded([], SystemErrorPrefix + fetched.error.message)
    ensures fetched.Success? && fetched.value.Some? && |fetched.value.value| > 0
            && Collect(fetched.value.value, parseDecimal).fault.Some? ==>
              o == Loaded(Collect(fetched.value.value, parseDecimal).bars,
                          SystemErrorPrefix + Collect(fetched.value.value, parseDecimal).fault.value.message)
  {
    match fetched
    case Failure(e) => Loaded([], SystemErrorPrefix + e.message)
    case Success(None) => Loaded([], EmptyResultMessage)
    case Success(Some(items)) =>
      if |items| == 0 then Loaded([], EmptyResultMessage)
      else
        var c := Collect(items, parseDecimal);
        match c.fault
        case Some(e) => Loaded(c.bars, SystemErrorPrefix + e.message)
        case None =>
          var sorted := SortByDate(c.bars);
          assert |multiset(sorted)| == |multiset(c.bars)|;
          Loaded(sorted, "")
  }

  /** A successful load shows the dated items' candles, sorted, stable, and no message; if no
      item is dated that is an empty chart with no message either. */
  lemma LoadedBars(items: seq<DailyPriceDetail>, parseDecimal: DecimalParser)
    requires |items| > 0 && Collect(items, parseDecimal).fault.None?
    ensures var o := LoadOutcome(Success(Some(items)), parseDecimal);
      o.message == "" && SortedByDate(o.bars) && |o.bars| == |Dated(items)|
      && multiset(o.bars) == multiset(Collect(items, parseDecimal).bars)
      && (forall date :: OfDate(o.bars, date) == OfDate(Collect(items, parseDecimal).bars, date))
  {
    forall date
      ensures OfDate(SortByDate(Collect(items, parseDecimal).bars), date) == OfDate(Collect(items, parseDecimal).bars, date)
    {
      SortKeepsDateOrder(Collect(items, parseDecimal).bars, date);
    }
  }

  /** A null or empty result shows no candles and the empty-result message. */
  lemma EmptyResult(parseDecimal: DecimalParser)
    ensures LoadOutcome(Success(None), parseDecimal) == Loaded([], EmptyResultMessage)
    ensures LoadOutcome(Success(Some([])), parseDecimal) == Loaded([], EmptyResultMessage)
  {
  }

  /** `period switch { "D" => …, "W" => …, "M" => …, _ => "차트" }`. */
  function TitleFor(period: string): (title: string)
    ensures title != "차트" <==> period in ["D", "W", "M"]
  {
    if period == "D" then "일봉 차트"
    else if period == "W" then "주봉 차트"
    else if period == "M" then "월봉 차트"
    else "차트"
  }

  /** The three periods have three distinct titles, and any other code the generic one. */
  lemma TitlesDistinct(p: string, q: string)
    requires p in ["D", "W", "M"] && q in ["D", "W", "M"]
    ensures TitleFor(p) == TitleFor(q) <==> p == q
    ensures TitleFor(p) != "차트"
  {
    assert "일봉 차트"[0] != "주봉 차트"[0] && "주봉 차트"[0] != "월봉 차트"[0] && "일봉 차트"[0] != "월봉 차트"[0];
  }

  class ChartTestPage {
    const quote: KisQuoteService
    var stockData: seq<StockData>
    var isLoading: bool
    var errorMessage: string
    var currentPeriod: string
    var chartTitle: string

    /** The title always names the current period. */
    predicate Valid()
      reads this
    {
      chartTitle == TitleFor(currentPeriod)
    }

    constructor(quote: KisQuoteService)
      ensures this.quote == quote && Valid()
      ensures stockData == [] && !isLoading && errorMessage == "" && currentPeriod == "D"
    {
      this.quote := quote;
      stockData := [];
      isLoading := false;
      errorMessage := "";
      currentPeriod := "D";
      chartTitle := "일봉 차트";
    }

    /** `GetButtonClass(period)`. */
    function ButtonClass(period: string): (c: string)
      reads this
      ensures c == "btn-primary" <==> period == currentPeriod
      ensures c != "btn-primary" ==> c == "btn-outline-primary"
    {
      if currentPeriod == period then "btn-primary" else "btn-outline-primary"
    }

    /** The `foreach` loop of `LoadRealDataAsync`: appends a candle per dated item to the
        (emptied) candle list, and stops at the first price that fails to parse. */
    method CollectBars(items: seq<DailyPriceDetail>, parseDecimal: DecimalParser) returns (fault: Option<Exception>)
      requires stockData == []
      modifies this
      ensures Collected(stockData, fault) == Collect(items, parseDecimal)
      ensures isLoading == old(isLoading) && errorMessage == old(errorMessage)
      ensures currentPeriod == old(currentPeriod) && chartTitle == old(chartTitle)
    {
      fault := None;
      var i := 0;
      while i < |items| && fault.None?
        invariant 0 <= i <= |items|
        invariant Collect(items[..i], parseDecimal) == Collected(stockData, fault)
        invariant isLoading == old(isLoading) && errorMessage == old(errorMessage)
        invariant currentPeriod == old(currentPeriod) && chartTitle == old(chartTitle)
      {
        CollectStep(items, i, parseDecimal);
        var bar := BarOf(items[i], parseDecimal);
        match bar {
          case Failure(e) => fault := Some(e);
          case Success(None) =>
          case Success(Some(b)) => stockData := stockData + [b];
        }
        i := i + 1;
      }
      if fault.Some? {
        CollectStopsAtFault(items, i, parseDecimal);
      } else {
        assert items[..i] == items;
      }
    }

    /** The `try` block of `LoadRealDataAsync` after the quote call, with its `catch`: the
        candles and the message for the quote result. */
    method ShowResult(result: Result<Option<seq<DailyPriceDetail>>, Exception>, parseDecimal: DecimalParser)
      requires stockData == [] && errorMessage == ""
      modifies this
      ensures Loaded(stockData, errorMessage) == LoadOutcome(result, parseDecimal)
      ensures isLoading == old(isLoading) && currentPeriod == old(currentPeriod) && chartTitle == old(chartTitle)
    {
      if result.Failure? {
        errorMessage := SystemErrorPrefix + result.error.message;
      } else if result.value.Some? && |result.value.value| > 0 {
        var fault := CollectBars(result.value.value, parseDecimal);
        if fault.Some? {
          errorMessage := SystemErrorPrefix + fault.value.message;
        } else {
          stockData := SortByDate(stockData);
        }
      } else {
        errorMessage := EmptyResultMessage;
      }
    }

    /** `LoadRealDataAsync(code, period)`: the loop over the items, then the sort; the
        loading flag is down again on every path. */
    method LoadRealData(code: string, period: string, now: Ticks, server: Brokerage, parseDecimal: DecimalParser)
      modifies this, quote.auth.settings.store
      ensures var fetched := DailyOutcome(old(quote.auth.settings.store.entries), quote.auth.settings.IsVirtual(),
                                          now, server, code, period);
        quote.auth.settings.store.entries == fetched.entries
        && Loaded(stockData, errorMessage) == LoadOutcome(fetched.result, parseDecimal)
      ensures !isLoading && currentPeriod == old(currentPeriod) && chartTitle == old(chartTitle)
    {
      isLoading := true;
      errorMessage := "";
      stockData := [];
      var result, _ := quote.GetDailyPrice(code, period, now, server);
      ShowResult(result, parseDecimal);
      isLoading := false;
    }

    /** `ChangePeriod(period)`: nothing for the current period; otherwise the new period, its
        title, and a load of the featured stock for it. */
    method ChangePeriod(period: string, now: Ticks, server: Brokerage, parseDecimal: DecimalParser)
      requires Valid()
      modifies this, quote.auth.settings.store
      ensures Valid()
      ensures old(currentPeriod) == period ==>
        stockData == old(stockData) && errorMessage == old(errorMessage) && isLoading == old(isLoading)
        && currentPeriod == old(currentPeriod) && quote.auth.settings.store.entries == old(quote.auth.settings.store.entries)
      ensures old(currentPeriod) != period ==>
        currentPeriod == period && chartTitle == TitleFor(period) && !isLoading
        && var fetched := DailyOutcome(old(quote.auth.settings.store.entries), quote.auth.settings.IsVirtual(),
                                       now, server, FeaturedCode, period);
           quote.auth.settings.store.entries == fetched.entries
           && Loaded(stockData, errorMessage) == LoadOutcome(fetched.result, parseDecimal)
    {
      if currentPeriod == period {
        return;
      }
      currentPeriod := period;
      chartTitle := TitleFor(period);
      LoadRealData(FeaturedCode, period, now, server, parseDecimal);
    }

    /** `OnInitializedAsync()`: the featured stock's daily candles. */
    method OnInitialized(now: Ticks, server: Brokerage, parseDecimal: DecimalParser)
      requires Valid()
      modifies this, quote.auth.settings.store
      ensures Valid() && currentPeriod == old(currentPeriod) && !isLoading
      ensures var fetched := DailyOutcome(old(quote.auth.settings.store.entries), quote.auth.settings.IsVirtual(),
                                          now, server, FeaturedCode, "D");
        quote.auth.settings.store.entries == fetched.entries
        && Loaded(stockData, errorMessage) == LoadOutcome(fetched.result, parseDecimal)
    {
      LoadRealData(FeaturedCode, "D", now, server, parseDecimal);
    }
  }

  /** On the page, exactly the current period's button is highlighted. */
  lemma OneButtonHighlighted(page: ChartTestPage, p: string, q: string)
    requires page.ButtonClass(p) == "btn-primary" && page.ButtonClass(q) == "btn-primary"
    ensures p == q
  {
  }
}
