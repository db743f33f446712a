/** The dashboard page (`Home`): the KOSPI and KOSDAQ index levels (real trading only) and
    the featured stock's current price, with the change direction shown as an arrow and a
    colour class. The settings service the page asks for the mode is the quote service's own
    (the application registers one `SettingsService`). */
module Home {
  import opened Wrappers
  import opened Calendar
  import opened Models
  import opened Http
  import opened KisQuote

  const FeaturedStockCode: string := "005930"

  /** `GetSign(dir)`: an up arrow for a rise or the upper limit, a down arrow for a fall or
      the lower limit, nothing otherwise. */
  function GetSign(dir: string): (sign: string)
    ensures sign == "▲" <==> dir == "1" || dir == "2"
    ensures sign == "▼" <==> dir == "4" || dir == "5"
    ensures sign == "" <==> dir != "1" && dir != "2" && dir != "4" && dir != "5"
  {
    assert "▲" != "▼";
    if dir == "1" || dir == "2" then "▲" else if dir == "4" || dir == "5" then "▼" else ""
  }

  /** `GetColorClass(dir)`: the same three-way split, as a CSS class. */
  function GetColorClass(dir: string): (cssClass: string)
    ensures cssClass == "text-up" <==> dir == "1" || dir == "2"
    ensures cssClass == "text-down" <==> dir == "4" || dir == "5"
    ensures cssClass == "" <==> dir != "1" && dir != "2" && dir != "4" && dir != "5"
  {
    assert "text-up"[5] != "text-down"[5];
    if dir == "1" || dir == "2" then "text-up" else if dir == "4" || dir == "5" then "text-down" else ""
  }

  /** The arrow and the colour always agree, and an unchanged price ("3") has neither. */
  lemma SignMatchesColor(dir: string)
    ensures GetSign(dir) == "▲" <==> GetColorClass(dir) == "text-up"
    ensures GetSign(dir) == "▼" <==> GetColorClass(dir) == "text-down"
    ensures GetSign(dir) == "" <==> GetColorClass(dir) == ""
    ensures GetSign("3") == "" && GetColorClass("3") == ""
  {
  }

  /** What the page shows: `_kospi`, `_kosdaq`, `_featuredStock` (null as `None`). */
  datatype Board = Board(kospi: Option<IndexOutput>, kosdaq: Option<IndexOutput>, featured: Option<QuoteOutput>)

  /** The page after some loads, the store they left and the requests they sent. */
  datatype Progress = Progress(board: Board, entries: map<string, string>, sent: seq<HttpRequest>)

  /** `LoadIndexAsync()`: KOSPI, then KOSDAQ; a field is assigned only when its call returns,
      and an exception from the first call skips the second. */
  function IndexLoad(board: Board, entries: map<string, string>, isVirtual: bool, now: Ticks, server: Brokerage): (p: Progress)
    ensures var a := IndexOutcome(entries, isVirtual, now, server, KospiCode);
      p.board.featured == board.featured
      && (a.result.Failure? ==> p.board == board && p.entries == a.entries && p.sent == a.sent)
      && (a.result.Success? ==>
            var b := IndexOutcome(a.entries, isVirtual, now, server, KosdaqCode);
            p.board.kospi == a.result.value
            && p.board.kosdaq == (if b.result.Success? then b.result.value else board.kosdaq)
            && p.entries == b.entries && p.sent == a.sent + b.sent)
  {
    var a := IndexOutcome(entries, isVirtual, now, server, KospiCode);
    match a.result
    case Failure(_) => Progress(board, a.entries, a.sent)
    case Success(kospi) =>
      var b := IndexOutcome(a.entries, isVirtual, now, server, KosdaqCode);
      match b.result
      case Failure(_) => Progress(board.(kospi := kospi), b.entries, a.sent + b.sent)
      case Success(kosdaq) => Progress(board.(kospi := kospi, kosdaq := kosdaq), b.entries, a.sent + b.sent)
  }

  /** `LoadFeaturedStockAsync()`: the featured stock, assigned only when the call returns. */
  function FeaturedLoad(board: Board, entries: map<string, string>, isVirtual: bool, now: Ticks, server: Brokerage): (p: Progress)
    ensures var f := PriceOutcome(entries, isVirtual, now, server, FeaturedStockCode);
      p.board.kospi == board.kospi && p.board.kosdaq == board.kosdaq
      && p.entries == f.entries && p.sent == f.sent
      && p.board.featured == (if f.result.Success? then f.result.value else board.featured)
  {
    var f := PriceOutcome(entries, isVirtual, now, server, FeaturedStockCode);
    match f.result
    case Failure(_) => Progress(board, f.entries, f.sent)
    case Success(featured) => Progress(board.(featured := featured), f.entries, f.sent)
  }

  /** `OnInitializedAsync()`, its two loads taken one after the other: the index load only in
      real trading, the featured stock in both modes; every exception is swallowed. */
  function InitOutcome(board: Board, entries: map<string, string>, isVirtual: bool, now: Ticks, server: Brokerage): (p: Progress)
    ensures var i := if isVirtual then Progress(board, entries, []) else IndexLoad(board, entries, false, now, server);
      var f := PriceOutcome(i.entries, isVirtual, now, server, FeaturedStockCode);
      p.board.kospi == i.board.kospi && p.board.kosdaq == i.board.kosdaq
      && p.board.featured == (if f.result.Success? then f.result.value else board.featured)
      && p.entries == f.entries && p.sent == i.sent + f.sent
  {
    var p := if !isVirtual then IndexLoad(board, entries, isVirtual, now, server) else Progress(board, entries, []);
    var f := FeaturedLoad(p.board, p.entries, isVirtual, now, server);
    Progress(f.board, f.entries, p.sent + f.sent)
  }

  /** In virtual trading the page sends only the featured-stock requests and leaves both
      indices as they were. */
  lemma VirtualShowsNoIndex(board: Board, entries: map<string, string>, now: Ticks, server: Brokerage)
    ensures var p := InitOutcome(board, entries, true, now, server);
      p.board.kospi == board.kospi && p.board.kosdaq == board.kosdaq
      && p.sent == PriceOutcome(entries, true, now, server, FeaturedStockCode).sent
  {
  }

  /** In real trading, the KOSPI index is asked for first, and when the featured stock's quote
      returns, the page shows it, whatever the index calls did. */
  lemma RealLoadsBoth(board: Board, entries: map<string, string>, now: Ticks, server: Brokerage)
    ensures var p := InitOutcome(board, entries, false, now, server);
      var i := IndexLoad(board, entries, false, now, server);
      var f := PriceOutcome(i.entries, false, now, server, FeaturedStockCode);
      p.sent == i.sent + f.sent && p.entries == f.entries
      && (f.result.Success? ==> p.board.featured == f.result.value)
      && (f.result.Failure? ==> p.board.featured == board.featured)
      && IndexOutcome(entries, false, now, server, KospiCode).sent <= p.sent
  {
  }

  /** A failed index call leaves its field, and the fields after it, unassigned. */
  lemma IndexFailureKeepsBoard(board: Board, entries: map<string, string>, now: Ticks, server: Brokerage)
    requires IndexOutcome(entries, false, now, server, KospiCode).result.Failure?
    ensures IndexLoad(board, entries, false, now, server).board == board
  {
  }

  lemma ConcatAssociative<T>(a: seq<T>, b: seq<T>, c: seq<T>)
    ensures a + b + c == a + (b + c)
  {
  }

  class HomePage {
    const quote: KisQuoteService
    var kospi: Option<IndexOutput>
    var kosdaq: Option<IndexOutput>
    var featuredStock: Option<QuoteOutput>
    /** The requests the page's loads have sent, in order. */
    ghost var sent: seq<HttpRequest>

    function Shown(): Board
      reads this
    {
      Board(kospi, kosdaq, featuredStock)
    }

    constructor(quote: KisQuoteService)
      ensures this.quote == quote && Shown() == Board(None, None, None) && sent == []
    {
      this.quote := quote;
      kospi := None;
      kosdaq := None;
      featuredStock := None;
      sent := [];
    }

    /** `LoadIndexAsync()`, only called in real trading. */
    method LoadIndex(now: Ticks, server: Brokerage) returns (r: Result<(), Exception>)
      requires !quote.auth.settings.IsVirtual()
      modifies this, quote.auth.settings.store
      ensures var p := IndexLoad(old(Shown()), old(quote.auth.settings.store.entries), false, now, server);
        Shown() == p.board && quote.auth.settings.store.entries == p.entries && sent == old(sent) + p.sent
    {
      ghost var before := sent;
      var a, sentA := quote.GetIndexPrice(KospiCode, now, server);
      sent := sent + sentA;
      r := Success(());
      if a.Success? {
        kospi := a.value;
        var b, sentB := quote.GetIndexPrice(KosdaqCode, now, server);
        sent := sent + sentB;
        ConcatAssociative(before, sentA, sentB);
        if b.Success? {
          kosdaq := b.value;
        } else {
          r := Failure(b.error);
        }
      } else {
        r := Failure(a.error);
      }
    }

    /** `LoadFeaturedStockAsync()`. */
    method LoadFeaturedStock(now: Ticks, server: Brokerage) returns (r: Result<(), Exception>)
      modifies this, quote.auth.settings.store
      ensures var p := FeaturedLoad(old(Shown()), old(quote.auth.settings.store.entries),
                                    quote.auth.settings.IsVirtual(), now, server);
        Shown() == p.board && quote.auth.settings.store.entries == p.entries && sent == old(sent) + p.sent
    {
      var f, sentF := quote.GetCurrentPrice(FeaturedStockCode, now, server);
      sent := sent + sentF;
      if f.Failure? {
        return Failure(f.error);
      }
      featuredStock := f.value;
      r := Success(());
    }

    /** `OnInitializedAsync()`. */
    method OnInitialized(now: Ticks, server: Brokerage)
      modifies this, quote.auth.settings.store
      ensures var p := InitOutcome(old(Shown()), old(quote.auth.settings.store.entries),
                                   quote.auth.settings.IsVirtual(), now, server);
        Shown() == p.board && quote.auth.settings.store.entries == p.entries && sent == old(sent) + p.sent
    {
      ghost var before := sent;
      ghost var p := Progress(Shown(), quote.auth.settings.store.entries, []);
      if !quote.auth.settings.IsVirtual() {
        var _ := LoadIndex(now, server);
        p := IndexLoad(p.board, p.entries, false, now, server);
      }
      ghost var f := FeaturedLoad(Shown(), quote.auth.settings.store.entries, quote.auth.settings.IsVirtual(), now, server);
      var _ := LoadFeaturedStock(now, server);
      ConcatAssociative(before, p.sent, f.sent);
    }
  }
}
