/** HTTP requests and responses as values, and the brokerage's REST endpoints as functions
    from a request to a response (or to the exception `HttpClient` throws). The two base
    addresses of the brokerage are here because the token and quote services share them. */
module Http {
  import opened Wrappers
  import opened Text
  import opened Json
  import opened Models

  datatype HttpMethod = Get | Post

  /** A request as the services build it: verb, absolute URL, the headers added to it in
      order, and the JSON body `PostAsJsonAsync` serialises (property names kept as written). */
  datatype HttpRequest = HttpRequest(
    httpMethod: HttpMethod, url: string, headers: seq<(string, string)>, body: Option<Json>)

  /** What `ReadFromJsonAsync<T>` makes of a response body: the JSON literal `null`, a body
      that does not deserialise (the `JsonException` it throws), or a value. */
  datatype Payload<T> = NullPayload | Unreadable(error: Exception) | Parsed(value: T)

  /** A response: the numeric status, the name `HttpStatusCode.ToString()` gives it, and the
      deserialised body. */
  datatype HttpResponse<T> = HttpResponse(status: int, statusName: string, content: Payload<T>)

  /** `HttpResponseMessage.IsSuccessStatusCode`. */
  predicate IsSuccessStatusCode(status: int)
  {
    200 <= status <= 299
  }

  /** One endpoint: `Failure` is the exception `PostAsJsonAsync`/`SendAsync` throws. */
  type Exchange<T> = HttpRequest -> Result<HttpResponse<T>, Exception>

  /** The brokerage's endpoints the app calls. */
  datatype Brokerage = Brokerage(
    token: Exchange<TokenResponse>,
    approval: Exchange<Json>,
    index: Exchange<QuoteResponse<IndexOutput>>,
    price: Exchange<QuoteResponse<QuoteOutput>>,
    daily: Exchange<QuoteResponse<seq<DailyPriceDetail>>>)

  const RealUrl: string := "https://openapi.koreainvestment.com:9443"
  const VirtualUrl: string := "https://openapivts.koreainvestment.com:29443"

  /** The REST base address of a mode: the virtual-trading server, or the real one. */
  function BaseUrl(isVirtual: bool): string
  {
    if isVirtual then VirtualUrl else RealUrl
  }

  lemma BaseUrlsDistinct()
    ensures BaseUrl(true) != BaseUrl(false)
  {
    assert |BaseUrl(true)| != |BaseUrl(false)|;
  }

  lemma BaseUrlWithoutQuery(isVirtual: bool)
    ensures '?' !in BaseUrl(isVirtual)
  {
    if isVirtual {
      assert '?' !in VirtualUrl;
    } else {
      assert '?' !in RealUrl;
    }
  }

  /** The value of the first header called `name`. */
  function HeaderValue(headers: seq<(string, string)>, name: string): (r: Option<string>)
    ensures r.None? <==> forall i :: 0 <= i < |headers| ==> headers[i].0 != name
    ensures r.Some? ==> exists i :: 0 <= i < |headers| && headers[i] == (name, r.value)
  {
    if headers == [] then None
    else if headers[0].0 == name then
      assert headers[0] == (name, headers[0].1);
      Some(headers[0].1)
    else
      var r := HeaderValue(headers[1..], name);
      if r.Some? then
        var i :| 0 <= i < |headers| - 1 && headers[1..][i] == (name, r.value);
        assert headers[i + 1] == (name, r.value);
        r
      else
        r
  }

  /** Where header names are distinct, each header is found under its own name. */
  lemma {:induction false} HeaderValueOfDistinct(headers: seq<(string, string)>, i: int)
    requires forall a, b :: 0 <= a < b < |headers| ==> headers[a].0 != headers[b].0
    requires 0 <= i < |headers|
    ensures HeaderValue(headers, headers[i].0) == Some(headers[i].1)
  {
    if i > 0 {
      assert headers[0].0 != headers[i].0;
      assert headers[1..][i - 1] == headers[i];
      HeaderValueOfDistinct(headers[1..], i - 1);
    }
  }

  /** The header names, in the order they were added. */
  function HeaderNames(headers: seq<(string, string)>): seq<string>
  {
    seq(|headers|, i requires 0 <= i < |headers| => headers[i].0)
  }

  // ---------------------------------------------------------------------------------------
  // Reading a URL back: the path before the first '?', and the query's name=value pairs
  // split at '&' and then at the first '='.

  function PathOf(url: string): string
  {
    Cut(url, '?').0
  }

  function Parameters(url: string): seq<(string, string)>
  {
    var parts := Split(Cut(url, '?').1, '&');
    seq(|parts|, i requires 0 <= i < |parts| => Cut(parts[i], '='))
  }

  /** `name=value` pairs joined with '&', no escaping (the services interpolate raw text). */
  function EncodeQuery(ps: seq<(string, string)>): string
  {
    Join(seq(|ps|, i requires 0 <= i < |ps| => ps[i].0 + "=" + ps[i].1), '&')
  }

  function Url(path: string, ps: seq<(string, string)>): string
  {
    path + "?" + EncodeQuery(ps)
  }

  /** Parameters whose text survives the round trip: no '&' anywhere, no '=' in a name. */
  predicate PlainParameters(ps: seq<(string, string)>)
  {
    forall i :: 0 <= i < |ps| ==> '&' !in ps[i].0 && '=' !in ps[i].0 && '&' !in ps[i].1
  }

  /** A URL built from a path and plain parameters reads back as that path and those
      parameters, in order. */
  lemma {:induction false} ReadBackUrl(path: string, ps: seq<(string, string)>)
    requires '?' !in path && |ps| >= 1 && PlainParameters(ps)
    ensures PathOf(Url(path, ps)) == path
    ensures Parameters(Url(path, ps)) == ps
  {
    var parts := seq(|ps|, i requires 0 <= i < |ps| => ps[i].0 + "=" + ps[i].1);
    assert Url(path, ps) == path + ['?'] + EncodeQuery(ps);
    CutAt(path, EncodeQuery(ps), '?');
    forall i | 0 <= i < |parts|
      ensures '&' !in parts[i]
    {
      assert parts[i] == ps[i].0 + "=" + ps[i].1;
    }
    SplitJoin(parts, '&');
    forall i | 0 <= i < |parts|
      ensures Cut(parts[i], '=') == ps[i]
    {
      assert parts[i] == ps[i].0 + ['='] + ps[i].1;
      CutAt(ps[i].0, ps[i].1, '=');
    }
  }
}
