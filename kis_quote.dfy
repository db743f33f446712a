/** `KisQuoteService`: index levels, current prices and daily prices. Each call takes an access
    token from the auth service, reads the credentials, sends one GET request with the
    brokerage's five headers, and returns the response's `output` when `rt_cd` is "0" and
    null otherwise; the HTTP status is never looked at. */
module KisQuote {
  import opened Wrappers
  import opened Text
  import opened Calendar
  import opened Models
  import opened Http
  import opened Storage
  import opened Settings
  import opened KisAuth

  const QuotationsPath: string := "/uapi/domestic-stock/v1/quotations"
  const IndexPath: string := QuotationsPath + "/inquire-index-price"
  const PricePath: string := QuotationsPath + "/inquire-price"
  const DailyPath: string := QuotationsPath + "/inquire-daily-price"

  /** Transaction ids: index level, stock current price, stock daily prices. */
  const IndexTrId: string := "FHPUP02100000"
  const PriceTrId: string := "FHKST01010100"
  const DailyTrId: string := "FHKST01010400"

  /** Index codes of KOSPI and KOSDAQ. */
  const KospiCode: string := "0001"
  const KosdaqCode: string := "1001"

  /** The headers every quotation request carries, in the order they are added. */
  function QuoteHeaders(token: string, appKey: string, appSecret: string, trId: string): seq<(string, string)>
  {
    [("authorization", "Bearer " + token), ("appkey", appKey), ("appsecret", appSecret),
     ("tr_id", trId), ("custtype", "P")]
  }

  /** KisQuoteService.cs:57: the index URL, always on the real server, market division `U`. */
  function IndexUrl(indexCode: string): string
  {
    Url(RealUrl + IndexPath, [("FID_COND_MRKT_DIV_CODE", "U"), ("FID_INPUT_ISCD", indexCode)])
  }

  /** KisQuoteService.cs:84: the current-price URL of the mode, market division `J`. */
  function PriceUrl(isVirtual: bool, stockCode: string): string
  {
    Url(BaseUrl(isVirtual) + PricePath, [("FID_COND_MRKT_DIV_CODE", "J"), ("FID_INPUT_ISCD", stockCode)])
  }

  /** KisQuoteService.cs:111-115: the daily-price URL of the mode, with the period code as given and
      adjusted prices switched off. */
  function DailyUrl(isVirtual: bool, stockCode: string, periodCode: string): string
  {
    Url(BaseUrl(isVirtual) + DailyPath,
        [("FID_COND_MRKT_DIV_CODE", "J"), ("FID_INPUT_ISCD", stockCode),
         ("FID_PERIOD_DIV_CODE", periodCode), ("FID_ORG_ADJ_PRC", "0")])
  }

  function QuoteRequest(url: string, token: string, appKey: string, appSecret: string, trId: string): HttpRequest
  {
    HttpRequest(Get, url, QuoteHeaders(token, appKey, appSecret, trId), None)
  }

  /** `result?.ResultCode == "0" ? result.Output : null`: a body that does not deserialise
      throws; the status is not consulted. */
  function SelectOutput<T>(response: HttpResponse<QuoteResponse<T>>): (r: Result<Option<T>, Exception>)
    ensures r.Failure? <==> response.content.Unreadable?
    ensures r.Success? && r.value.Some? ==>
      response.content.Parsed? && response.content.value.resultCode == "0" && response.content.value.output == r.value
    ensures response.content.Parsed? && response.content.value.resultCode == "0" ==>
      r == Success(response.content.value.output)
  {
    match response.content
    case NullPayload => Success(None)
    case Unreadable(e) => Failure(e)
    case Parsed(body) => if body.resultCode == "0" then Success(body.output) else Success(None)
  }

  /** The output is returned exactly when the body reads, `rt_cd` is "0" and `output` is set;
      any other readable body gives null. */
  lemma SelectOutputIff<T>(response: HttpResponse<QuoteResponse<T>>, x: T)
    ensures SelectOutput(response) == Success(Some(x))
      <==> response.content.Parsed? && response.content.value.resultCode == "0"
           && response.content.value.output == Some(x)
    ensures SelectOutput(response).Failure? <==> response.content.Unreadable?
    ensures response.content.Parsed? && response.content.value.resultCode != "0"
            ==> SelectOutput(response) == Success(None)
  {
  }

  /** Two responses with the same body select the same output, whatever their status. */
  lemma SelectIgnoresStatus<T>(a: HttpResponse<QuoteResponse<T>>, b: HttpResponse<QuoteResponse<T>>)
    requires a.content == b.content
    ensures SelectOutput(a) == SelectOutput(b)
  {
  }

  // ---------------------------------------------------------------------------------------
  // What a request carries

  lemma PathsWithoutQuery(isVirtual: bool)
    ensures '?' !in BaseUrl(isVirtual) + IndexPath
    ensures '?' !in BaseUrl(isVirtual) + PricePath
    ensures '?' !in BaseUrl(isVirtual) + DailyPath
  {
    BaseUrlWithoutQuery(isVirtual);
    assert '?' !in QuotationsPath;
    WithoutQueryConcat(QuotationsPath, "/inquire-index-price");
    WithoutQueryConcat(QuotationsPath, "/inquire-price");
    WithoutQueryConcat(QuotationsPath, "/inquire-daily-price");
    WithoutQueryConcat(BaseUrl(isVirtual), IndexPath);
    WithoutQueryConcat(BaseUrl(isVirtual), PricePath);
    WithoutQueryConcat(BaseUrl(isVirtual), DailyPath);
  }

  lemma WithoutQueryConcat(a: string, b: string)
    requires '?' !in a && '?' !in b
    ensures '?' !in a + b
  {
  }

  lemma QuoteHeaderNames(token: string, appKey: string, appSecret: string, trId: string)
    ensures HeaderNames(QuoteHeaders(token, appKey, appSecret, trId))
            == ["authorization", "appkey", "appsecret", "tr_id", "custtype"]
  {
  }

  /** Every quotation request carries exactly the five headers, each with its value. */
  lemma QuoteHeadersCarry(token: string, appKey: string, appSecret: string, trId: string)
    ensures var h := QuoteHeaders(token, appKey, appSecret, trId);
      HeaderNames(h) == ["authorization", "appkey", "appsecret", "tr_id", "custtype"]
      && HeaderValue(h, "authorization") == Some("Bearer " + token)
      && HeaderValue(h, "appkey") == Some(appKey)
      && HeaderValue(h, "appsecret") == Some(appSecret)
      && HeaderValue(h, "tr_id") == Some(trId)
      && HeaderValue(h, "custtype") == Some("P")
  {
    QuoteHeaderNames(token, appKey, appSecret, trId);
    var h := QuoteHeaders(token, appKey, appSecret, trId);
    assert "appkey"[3] != "appsecret"[3];
    assert forall a, b :: 0 <= a < b < |h| ==> h[a].0 != h[b].0;
    HeaderValueOfDistinct(h, 0);
    HeaderValueOfDistinct(h, 1);
    HeaderValueOfDistinct(h, 2);
    HeaderValueOfDistinct(h, 3);
    HeaderValueOfDistinct(h, 4);
  }

  /** An index URL names the real server's index endpoint, market `U` and the code. */
  lemma IndexUrlCarries(indexCode: string)
    requires '&' !in indexCode
    ensures PathOf(IndexUrl(indexCode)) == RealUrl + IndexPath
    ensures Parameters(IndexUrl(indexCode)) == [("FID_COND_MRKT_DIV_CODE", "U"), ("FID_INPUT_ISCD", indexCode)]
  {
    PathsWithoutQuery(false);
    ReadBackUrl(RealUrl + IndexPath, [("FID_COND_MRKT_DIV_CODE", "U"), ("FID_INPUT_ISCD", indexCode)]);
  }

  /** A current-price URL names the mode's server, market `J` and the code, and no
      `FID_ORG_ADJ_PRC`. */
  lemma PriceUrlCarries(isVirtual: bool, stockCode: string)
    requires '&' !in stockCode
    ensures PathOf(PriceUrl(isVirtual, stockCode)) == BaseUrl(isVirtual) + PricePath
    ensures Parameters(PriceUrl(isVirtual, stockCode)) == [("FID_COND_MRKT_DIV_CODE", "J"), ("FID_INPUT_ISCD", stockCode)]
  {
    PathsWithoutQuery(isVirtual);
    ReadBackUrl(BaseUrl(isVirtual) + PricePath, [("FID_COND_MRKT_DIV_CODE", "J"), ("FID_INPUT_ISCD", stockCode)]);
  }

  lemma DailyParametersPlain(stockCode: string, periodCode: string)
    requires '&' !in stockCode && '&' !in periodCode
    ensures PlainParameters([("FID_COND_MRKT_DIV_CODE", "J"), ("FID_INPUT_ISCD", stockCode),
                             ("FID_PERIOD_DIV_CODE", periodCode), ("FID_ORG_ADJ_PRC", "0")])
  {
    assert '&' !in "FID_COND_MRKT_DIV_CODE" && '=' !in "FID_COND_MRKT_DIV_CODE";
    assert '&' !in "FID_INPUT_ISCD" && '=' !in "FID_INPUT_ISCD";
    assert '&' !in "FID_PERIOD_DIV_CODE" && '=' !in "FID_PERIOD_DIV_CODE";
    assert '&' !in "FID_ORG_ADJ_PRC" && '=' !in "FID_ORG_ADJ_PRC";
  }

  /** A daily-price URL names the mode's server, market `J`, the code, the period code
      passed through as given, and `FID_ORG_ADJ_PRC=0`. */
  lemma DailyUrlCarries(isVirtual: bool, stockCode: string, periodCode: string)
    requires '&' !in stockCode && '&' !in periodCode
    ensures PathOf(DailyUrl(isVirtual, stockCode, periodCode)) == BaseUrl(isVirtual) + DailyPath
    ensures Parameters(DailyUrl(isVirtual, stockCode, periodCode))
            == [("FID_COND_MRKT_DIV_CODE", "J"), ("FID_INPUT_ISCD", stockCode),
                ("FID_PERIOD_DIV_CODE", periodCode), ("FID_ORG_ADJ_PRC", "0")]
  {
    PathsWithoutQuery(isVirtual);
    DailyParametersPlain(stockCode, periodCode);
    ReadBackUrl(BaseUrl(isVirtual) + DailyPath,
                [("FID_COND_MRKT_DIV_CODE", "J"), ("FID_INPUT_ISCD", stockCode),
                 ("FID_PERIOD_DIV_CODE", periodCode), ("FID_ORG_ADJ_PRC", "0")]);
  }

  // ---------------------------------------------------------------------------------------
  // The three calls

  /** A token lookup in mode `tokenMode`, then one request to `url` with the `credentialMode`
      credentials read after it; the store is whatever the token lookup left. */
  function FetchOutcome<T>(entries: map<string, string>, tokenMode: bool, credentialMode: bool, now: Ticks,
                           tokens: Exchange<TokenResponse>, url: string, trId: string,
                           endpoint: Exchange<QuoteResponse<T>>): (s: Step<Option<T>>)
    ensures SameOutsideMode(entries, s.entries, tokenMode)
    ensures s.result.Success? ==> |s.sent| >= 1 && s.sent[|s.sent| - 1].url == url
                                  && s.sent[|s.sent| - 1].httpMethod == Get
  {
    var t := AccessTokenOutcome(entries, tokenMode, now, tokens);
    match t.result
    case Failure(e) => Step(Failure(e), t.entries, t.sent)
    case Success(token) =>
      var request := QuoteRequest(url, token, Lookup(t.entries, AppKeyName(credentialMode)),
                                  Lookup(t.entries, SecretName(credentialMode)), trId);
      match endpoint(request)
      case Failure(e) => Step(Failure(e), t.entries, t.sent + [request])
      case Success(response) => Step(SelectOutput(response), t.entries, t.sent + [request])
  }

  /** `GetIndexPriceAsync(indexCode)`. */
  function IndexOutcome(entries: map<string, string>, isVirtual: bool, now: Ticks, server: Brokerage,
                        indexCode: string): (s: Step<Option<IndexOutput>>)
    ensures SameOutsideMode(entries, s.entries, false)
    ensures s.result.Success? && s.result.value.Some? ==>
      !isVirtual && |s.sent| >= 1 && s.sent[|s.sent| - 1].url == IndexUrl(indexCode)
  {
    if isVirtual then Step(Success(None), entries, [])
    else FetchOutcome(entries, false, false, now, server.token, IndexUrl(indexCode), IndexTrId, server.index)
  }

  /** `GetCurrentPriceAsync(stockCode)`. */
  function PriceOutcome(entries: map<string, string>, isVirtual: bool, now: Ticks, server: Brokerage,
                        stockCode: string): (s: Step<Option<QuoteOutput>>)
    ensures SameOutsideMode(entries, s.entries, isVirtual)
    ensures s.result.Success? ==> |s.sent| >= 1 && s.sent[|s.sent| - 1].url == PriceUrl(isVirtual, stockCode)
  {
    FetchOutcome(entries, isVirtual, isVirtual, now, server.token, PriceUrl(isVirtual, stockCode), PriceTrId, server.price)
  }

  /** `GetDailyPriceAsync(stockCode, periodCode)`. */
  function DailyOutcome(entries: map<string, string>, isVirtual: bool, now: Ticks, server: Brokerage,
                        stockCode: string, periodCode: string): (s: Step<Option<seq<DailyPriceDetail>>>)
    ensures SameOutsideMode(entries, s.entries, isVirtual)
    ensures s.result.Success? ==>
      |s.sent| >= 1 && s.sent[|s.sent| - 1].url == DailyUrl(isVirtual, stockCode, periodCode)
  {
    FetchOutcome(entries, isVirtual, isVirtual, now, server.token, DailyUrl(isVirtual, stockCode, periodCode),
                 DailyTrId, server.daily)
  }

  /** In virtual mode the index lookup returns null at once: no token, no credentials, no
      request, no store change. */
  lemma VirtualIndexIsNull(entries: map<string, string>, now: Ticks, server: Brokerage, indexCode: string)
    ensures IndexOutcome(entries, true, now, server, indexCode) == Step(Success(None), entries, [])
  {
  }

  /** Once a token is obtained, a fetch sends exactly one request after the token lookup's:
      the one built from the token and the credentials of `credentialMode`; its result is the
      selected output, or the transport's exception. The quotation itself writes nothing. */
  lemma FetchSendsOneRequest<T>(entries: map<string, string>, tokenMode: bool, credentialMode: bool, now: Ticks,
                                tokens: Exchange<TokenResponse>, url: string, trId: string,
                                endpoint: Exchange<QuoteResponse<T>>)
    requires AccessTokenOutcome(entries, tokenMode, now, tokens).result.Success?
    ensures var t := AccessTokenOutcome(entries, tokenMode, now, tokens);
      var request := QuoteRequest(url, t.result.value, Lookup(t.entries, AppKeyName(credentialMode)),
                                  Lookup(t.entries, SecretName(credentialMode)), trId);
      var s := FetchOutcome(entries, tokenMode, credentialMode, now, tokens, url, trId, endpoint);
      s.entries == t.entries && s.sent == t.sent + [request]
      && s.result == (match endpoint(request)
                      case Failure(e) => Failure(e)
                      case Success(response) => SelectOutput(response))
  {
  }

  /** A failed token lookup fails the fetch before any quotation request. */
  lemma FetchNeedsToken<T>(entries: map<string, string>, tokenMode: bool, credentialMode: bool, now: Ticks,
                           tokens: Exchange<TokenResponse>, url: string, trId: string,
                           endpoint: Exchange<QuoteResponse<T>>)
    requires AccessTokenOutcome(entries, tokenMode, now, tokens).result.Failure?
    ensures var t := AccessTokenOutcome(entries, tokenMode, now, tokens);
      var s := FetchOutcome(entries, tokenMode, credentialMode, now, tokens, url, trId, endpoint);
      s.result == Failure(t.result.error) && s.entries == t.entries && s.sent == t.sent
  {
  }

  /** A real-mode index lookup asks for a real-mode token and sends the real-mode
      credentials, so it can be answered only by the real server. */
  lemma RealIndexUsesRealCredentials(entries: map<string, string>, now: Ticks, server: Brokerage, indexCode: string)
    requires AccessTokenOutcome(entries, false, now, server.token).result.Success?
    ensures var t := AccessTokenOutcome(entries, false, now, server.token);
      var s := IndexOutcome(entries, false, now, server, indexCode);
      s.sent == t.sent + [QuoteRequest(IndexUrl(indexCode), t.result.value,
                                       Lookup(t.entries, KisRealAppKeyName),
                                       Lookup(t.entries, KisRealSecretName), IndexTrId)]
  {
  }

  // ---------------------------------------------------------------------------------------

  class KisQuoteService {
    /** The auth service; its settings service is the one this service reads (both are the
        application's single `SettingsService`). */
    const auth: KisAuthService

    constructor(auth: KisAuthService)
      ensures this.auth == auth
    {
      this.auth := auth;
    }

    /** `GetIndexPriceAsync(indexCode)`. */
    method GetIndexPrice(indexCode: string, now: Ticks, server: Brokerage)
      returns (r: Result<Option<IndexOutput>, Exception>, ghost sent: seq<HttpRequest>)
      modifies auth.settings.store
      ensures var o := IndexOutcome(old(auth.settings.store.entries), auth.settings.IsVirtual(), now, server, indexCode);
        r == o.result && auth.settings.store.entries == o.entries && sent == o.sent
    {
      if auth.settings.IsVirtual() {
        return Success(None), [];
      }
      var token;
      token, sent := auth.GetAccessToken(now, server.token);
      if token.Failure? {
        return Failure(token.error), sent;
      }
      var appKey := auth.settings.GetKisAppKey(false);
      var appSecret := auth.settings.GetKisSecret(false);
      var request := QuoteRequest(IndexUrl(indexCode), token.value, appKey, appSecret, IndexTrId);
      sent := sent + [request];
      var response := server.index(request);
      if response.Failure? {
        return Failure(response.error), sent;
      }
      r := SelectOutput(response.value);
    }

    /** `GetCurrentPriceAsync(stockCode)`. */
    method GetCurrentPrice(stockCode: string, now: Ticks, server: Brokerage)
      returns (r: Result<Option<QuoteOutput>, Exception>, ghost sent: seq<HttpRequest>)
      modifies auth.settings.store
      ensures var o := PriceOutcome(old(auth.settings.store.entries), auth.settings.IsVirtual(), now, server, stockCode);
        r == o.result && auth.settings.store.entries == o.entries && sent == o.sent
    {
      var isVirtual := auth.settings.IsVirtual();
      var token;
      token, sent := auth.GetAccessToken(now, server.token);
      if token.Failure? {
        return Failure(token.error), sent;
      }
      var appKey := auth.settings.GetKisAppKey(isVirtual);
      var appSecret := auth.settings.GetKisSecret(isVirtual);
      var request := QuoteRequest(PriceUrl(isVirtual, stockCode), token.value, appKey, appSecret, PriceTrId);
      sent := sent + [request];
      var response := server.price(request);
      if response.Failure? {
        return Failure(response.error), sent;
      }
      r := SelectOutput(response.value);
    }

    /** `GetDailyPriceAsync(stockCode, periodCode)`. */
    method GetDailyPrice(stockCode: string, periodCode: string, now: Ticks, server: Brokerage)
      returns (r: Result<Option<seq<DailyPriceDetail>>, Exception>, ghost sent: seq<HttpRequest>)
      modifies auth.settings.store
      ensures var o := DailyOutcome(old(auth.settings.store.entries), auth.settings.IsVirtual(), now, server,
                                    stockCode, periodCode);
        r == o.result && auth.settings.store.entries == o.entries && sent == o.sent
    {
      var isVirtual := auth.settings.IsVirtual();
      var token;
      token, sent := auth.GetAccessToken(now, server.token);
      if token.Failure? {
        return Failure(token.error), sent;
      }
      var appKey := auth.settings.GetKisAppKey(isVirtual);
      var appSecret := auth.settings.GetKisSecret(isVirtual);
      var request := QuoteRequest(DailyUrl(isVirtual, stockCode, periodCode), token.value, appKey, appSecret, DailyTrId);
      sent := sent + [request];
      var response := server.daily(request);
      if response.Failure? {
        return Failure(response.error), sent;
      }
      r := SelectOutput(response.value);
    }
  }
}
