/** `KisAuthService`: the access token of the current trading mode, reused from the secure
    store while it has more than five minutes left and issued anew otherwise, and the
    approval key the streaming service logs in with.

    The store's entries and the trading mode are the service's state; the brokerage's token
    and approval endpoints are functions from the request to the response, and `now` is the
    value `DateTime.Now` reads during the call. Each operation is given twice: as a function
    from the state before to the result, the state after and the requests sent, which the
    lemmas are about, and as a method of the service class proved to behave as that function. */
module KisAuth {
  import opened Wrappers
  import opened Text
  import opened Json
  import opened Calendar
  import opened Models
  import opened Http
  import opened Storage
  import opened Settings

  const MissingKeysMessage: string := "API 키가 설정되지 않았습니다. 설정 메뉴에서 KIS API 키를 입력해주세요."
  const IssueFailedPrefix: string := "토큰 발급 실패: "
  const UnreadableTokenMessage: string := "응답 데이터 해석 실패"
  /** The message of the `ArgumentOutOfRangeException` DateTime arithmetic throws. */
  const DateArithmeticMessage: string := "The added or subtracted value results in an un-representable DateTime. (Parameter 'value')"
  /** The message of the `InvalidOperationException` a JsonNode indexer throws on a non-object. */
  const NodeNotObjectMessage: string := "The node must be of type 'JsonObject'."

  const FiveMinutes: int := 5 * 60 * TicksPerSecond

  /** The result of one operation: what it returned or threw, the store's entries after it,
      and the requests it sent, in order. */
  datatype Step<T> = Step(result: Result<T, Exception>, entries: map<string, string>, sent: seq<HttpRequest>)

  function ModeName(isVirtual: bool): string
  {
    if isVirtual then "virtual" else "real"
  }

  /** Where a mode's access token is stored. */
  function TokenKey(isVirtual: bool): string
  {
    "kis_token_" + ModeName(isVirtual)
  }

  /** Where a mode's token expiry is stored. */
  function ExpiryKey(isVirtual: bool): string
  {
    "kis_expiry_" + ModeName(isVirtual)
  }

  /** The token store's four names are pairwise distinct and none is a credential name, so
      issuing a token can touch neither the other mode's token nor any credential. */
  lemma StoreKeysDistinct(v: bool, w: bool)
    ensures TokenKey(v) == TokenKey(w) <==> v == w
    ensures ExpiryKey(v) == ExpiryKey(w) <==> v == w
    ensures TokenKey(v) != ExpiryKey(w)
    ensures TokenKey(v) != AppKeyName(w) && TokenKey(v) != SecretName(w)
    ensures ExpiryKey(v) != AppKeyName(w) && ExpiryKey(v) != SecretName(w)
  {
    assert TokenKey(v)[4] == 't' && ExpiryKey(w)[4] == 'e';
    assert AppKeyName(w)[4] == 'r' || AppKeyName(w)[4] == 'v';
    assert SecretName(w)[4] == 'r' || SecretName(w)[4] == 'v';
    assert TokenKey(true)[10] != TokenKey(false)[10];
    assert ExpiryKey(true)[11] != ExpiryKey(false)[11];
  }

  /** `t.AddTicks(delta)`: throws when the result leaves DateTime's range. */
  function AddTicks(t: Ticks, delta: int): (r: Result<Ticks, Exception>)
    ensures r.Success? <==> 0 <= t + delta <= MaxTicks
    ensures r.Success? ==> r.value == t + delta
  {
    if 0 <= t + delta <= MaxTicks then Success(t + delta) else Failure(Exception(DateArithmeticMessage))
  }

  /** `t.AddSeconds(s)` for a whole number of seconds. */
  function AddSeconds(t: Ticks, s: int): (r: Result<Ticks, Exception>)
    ensures r.Success? <==> 0 <= t + s * TicksPerSecond <= MaxTicks
    ensures r.Success? ==> r.value - t == s * TicksPerSecond
  {
    AddTicks(t, s * TicksPerSecond)
  }

  /** `t.AddMinutes(m)` for a whole number of minutes. */
  function AddMinutes(t: Ticks, m: int): (r: Result<Ticks, Exception>)
    ensures r.Success? <==> 0 <= t + m * 60 * TicksPerSecond <= MaxTicks
    ensures r.Success? ==> r.value - t == m * 60 * TicksPerSecond
  {
    AddTicks(t, m * 60 * TicksPerSecond)
  }

  // ---------------------------------------------------------------------------------------
  // Requests

  /** `POST {base}/oauth2/tokenP` with `grant_type`, `appkey` and `appsecret`. */
  function TokenRequest(isVirtual: bool, appKey: string, appSecret: string): HttpRequest
  {
    HttpRequest(Post, BaseUrl(isVirtual) + "/oauth2/tokenP", [],
      Some(JObject([("grant_type", JString("client_credentials")),
                    ("appkey", JString(appKey)),
                    ("appsecret", JString(appSecret))])))
  }

  /** `POST {base}/oauth2/Approval` with `grant_type`, `appkey` and `secretkey`. */
  function ApprovalRequest(isVirtual: bool, appKey: string, appSecret: string): HttpRequest
  {
    HttpRequest(Post, BaseUrl(isVirtual) + "/oauth2/Approval", [],
      Some(JObject([("grant_type", JString("client_credentials")),
                    ("appkey", JString(appKey)),
                    ("secretkey", JString(appSecret))])))
  }

  /** The two credential requests differ in their body's third name only: the token endpoint
      takes `appsecret`, the approval endpoint `secretkey`. */
  lemma RequestBodies(isVirtual: bool, appKey: string, appSecret: string)
    ensures var b := TokenRequest(isVirtual, appKey, appSecret).body.value;
      Names(b) == ["grant_type", "appkey", "appsecret"]
      && GetProperty(b, "appkey") == Success(JString(appKey))
      && GetProperty(b, "appsecret") == Success(JString(appSecret))
    ensures var b := ApprovalRequest(isVirtual, appKey, appSecret).body.value;
      Names(b) == ["grant_type", "appkey", "secretkey"]
      && GetProperty(b, "appkey") == Success(JString(appKey))
      && GetProperty(b, "secretkey") == Success(JString(appSecret))
      && TryGetProperty(b, "appsecret") == Success(None)
    ensures TokenRequest(isVirtual, appKey, appSecret).url != ApprovalRequest(isVirtual, appKey, appSecret).url
  {
    TokenBody(isVirtual, appKey, appSecret);
    ApprovalBody(isVirtual, appKey, appSecret);
    assert |TokenRequest(isVirtual, appKey, appSecret).url| != |ApprovalRequest(isVirtual, appKey, appSecret).url|;
  }

  lemma TokenBody(isVirtual: bool, appKey: string, appSecret: string)
    ensures var b := TokenRequest(isVirtual, appKey, appSecret).body.value;
      Names(b) == ["grant_type", "appkey", "appsecret"]
      && GetProperty(b, "appkey") == Success(JString(appKey))
      && GetProperty(b, "appsecret") == Success(JString(appSecret))
  {
    var tb := TokenRequest(isVirtual, appKey, appSecret).body.value;
    assert DistinctNames(tb.members);
    LastMemberOfDistinct(tb.members, 1);
    LastMemberOfDistinct(tb.members, 2);
  }

  lemma ApprovalBody(isVirtual: bool, appKey: string, appSecret: string)
    ensures var b := ApprovalRequest(isVirtual, appKey, appSecret).body.value;
      Names(b) == ["grant_type", "appkey", "secretkey"]
      && GetProperty(b, "appkey") == Success(JString(appKey))
      && GetProperty(b, "secretkey") == Success(JString(appSecret))
      && TryGetProperty(b, "appsecret") == Success(None)
  {
    var ab := ApprovalRequest(isVirtual, appKey, appSecret).body.value;
    assert DistinctNames(ab.members);
    LastMemberOfDistinct(ab.members, 1);
    LastMemberOfDistinct(ab.members, 2);
    assert "appsecret" != "secretkey" && "appsecret" != "appkey" && "appsecret" != "grant_type";
  }

  // ---------------------------------------------------------------------------------------
  // The access token

  /** The check of `GetAccessTokenAsync` (KisAuthService.cs:52-58): `Some(saved)` when the saved token is
      non-empty, its expiry parses and lies strictly more than five minutes after `now`;
      `None` when a new token must be issued; `Failure` when `now + 5 min` is out of range. */
  function ReuseDecision(savedToken: string, expiryText: string, now: Ticks): (r: Result<Option<string>, Exception>)
    ensures r.Failure? <==> savedToken != "" && ParseTimestamp(expiryText).Some? && now + FiveMinutes > MaxTicks
    ensures r.Success? && r.value.Some? ==> r.value.value == savedToken && savedToken != ""
    ensures r.Success? && r.value.Some? ==> ParseTimestamp(expiryText).Some? && ParseTimestamp(expiryText).value > now + FiveMinutes
  {
    if !IsNullOrEmpty(savedToken) then
      match ParseTimestamp(expiryText)
      case Some(expiry) =>
        var limit :- AddMinutes(now, 5);
        if expiry > limit then Success(Some(savedToken)) else Success(None)
      case None => Success(None)
    else Success(None)
  }

  /** The saved token is reused exactly when it is non-empty and its expiry is strictly later
      than five minutes from now; otherwise a new one is issued. */
  lemma ReuseIff(savedToken: string, expiryText: string, now: Ticks)
    requires now + FiveMinutes <= MaxTicks
    ensures ReuseDecision(savedToken, expiryText, now).Success?
    ensures ReuseDecision(savedToken, expiryText, now) == Success(Some(savedToken))
      <==> savedToken != "" && ParseTimestamp(expiryText).Some?
           && ParseTimestamp(expiryText).value > now + FiveMinutes
    ensures ReuseDecision(savedToken, expiryText, now) != Success(Some(savedToken))
      ==> ReuseDecision(savedToken, expiryText, now) == Success(None)
  {
  }

  /** With exactly five minutes left the token is refreshed. */
  lemma FiveMinutesLeftRefreshes(savedToken: string, expiryText: string, now: Ticks)
    requires ParseTimestamp(expiryText) == Some(now + FiveMinutes)
    ensures ReuseDecision(savedToken, expiryText, now) == Success(None)
  {
  }

  /** `forall k` other than the mode's token and expiry names, `a` and `b` read alike. */
  ghost predicate SameOutsideMode(a: map<string, string>, b: map<string, string>, isVirtual: bool)
  {
    forall k :: k != TokenKey(isVirtual) && k != ExpiryKey(isVirtual) ==> Lookup(a, k) == Lookup(b, k)
  }

  /** The mode's credentials are both non-empty. */
  predicate HasCredentials(entries: map<string, string>, isVirtual: bool)
  {
    !IsNullOrEmpty(Lookup(entries, AppKeyName(isVirtual))) && !IsNullOrEmpty(Lookup(entries, SecretName(isVirtual)))
  }

  /** The token request built from the mode's stored credentials. */
  function IssueRequest(entries: map<string, string>, isVirtual: bool): HttpRequest
  {
    TokenRequest(isVirtual, Lookup(entries, AppKeyName(isVirtual)), Lookup(entries, SecretName(isVirtual)))
  }

  /** KisAuthService.cs:123-126: the token is written first; the expiry is computed and
      written after it, so a DateTime overflow leaves the new token beside the old expiry. */
  function SaveToken(entries: map<string, string>, isVirtual: bool, now: Ticks, token: TokenResponse): (s: Step<string>)
    ensures s.sent == [] && SameOutsideMode(entries, s.entries, isVirtual)
  {
    var withToken := entries[TokenKey(isVirtual) := token.accessToken];
    match AddSeconds(now, token.expiresIn)
    case Failure(e) => Step(Failure(e), withToken, [])
    case Success(expiry) =>
      Step(Success(token.accessToken), withToken[ExpiryKey(isVirtual) := FormatTimestamp(expiry)], [])
  }

  /** KisAuthService.cs:116-126: the status check, reading the body, and SaveToken. */
  function ReceiveToken(entries: map<string, string>, isVirtual: bool, now: Ticks,
                        response: Result<HttpResponse<TokenResponse>, Exception>): (s: Step<string>)
    ensures s.sent == [] && SameOutsideMode(entries, s.entries, isVirtual)
  {
    match response
    case Failure(e) => Step(Failure(e), entries, [])
    case Success(r) =>
      if !IsSuccessStatusCode(r.status) then
        Step(Failure(Exception(IssueFailedPrefix + r.statusName)), entries, [])
      else
        match r.content
        case NullPayload => Step(Failure(Exception(UnreadableTokenMessage)), entries, [])
        case Unreadable(e) => Step(Failure(e), entries, [])
        case Parsed(token) => SaveToken(entries, isVirtual, now, token)
  }

  /** `IssueNewTokenAsync(isVirtual)` from the store's entries: only the mode's token and
      expiry can change, and a request is sent only when both credentials are present. */
  function IssueOutcome(entries: map<string, string>, isVirtual: bool, now: Ticks,
                        server: Exchange<TokenResponse>): (s: Step<string>)
    ensures SameOutsideMode(entries, s.entries, isVirtual)
    ensures s.sent == (if HasCredentials(entries, isVirtual) then [IssueRequest(entries, isVirtual)] else [])
  {
    if !HasCredentials(entries, isVirtual) then
      Step(Failure(Exception(MissingKeysMessage)), entries, [])
    else
      var request := IssueRequest(entries, isVirtual);
      var s := ReceiveToken(entries, isVirtual, now, server(request));
      Step(s.result, s.entries, [request])
  }

  /** `GetAccessTokenAsync()` from the store's entries and the trading mode: only that mode's
      token and expiry can change. */
  function AccessTokenOutcome(entries: map<string, string>, isVirtual: bool, now: Ticks,
                              server: Exchange<TokenResponse>): (s: Step<string>)
    ensures SameOutsideMode(entries, s.entries, isVirtual)
  {
    match ReuseDecision(Lookup(entries, TokenKey(isVirtual)), Lookup(entries, ExpiryKey(isVirtual)), now)
    case Failure(e) => Step(Failure(e), entries, [])
    case Success(Some(token)) => Step(Success(token), entries, [])
    case Success(None) => IssueOutcome(entries, isVirtual, now, server)
  }

  /** Missing credentials fail before any request, with nothing written. */
  lemma MissingCredentialsFailEarly(entries: map<string, string>, isVirtual: bool, now: Ticks,
                                    server: Exchange<TokenResponse>)
    requires Lookup(entries, AppKeyName(isVirtual)) == "" || Lookup(entries, SecretName(isVirtual)) == ""
    ensures IssueOutcome(entries, isVirtual, now, server)
            == Step(Failure(Exception(MissingKeysMessage)), entries, [])
  {
  }

  /** A transport error, a non-success status, or a body that is null or does not read
      throws and leaves the store as it was; a rejected status throws with its name. */
  lemma RejectedIssueWritesNothing(entries: map<string, string>, isVirtual: bool, now: Ticks,
                                   server: Exchange<TokenResponse>)
    requires HasCredentials(entries, isVirtual)
    requires var r := server(IssueRequest(entries, isVirtual));
      r.Failure? || !IsSuccessStatusCode(r.value.status) || !r.value.content.Parsed?
    ensures IssueOutcome(entries, isVirtual, now, server).result.Failure?
    ensures IssueOutcome(entries, isVirtual, now, server).entries == entries
    ensures var r := server(IssueRequest(entries, isVirtual));
      r.Success? && !IsSuccessStatusCode(r.value.status)
      ==> IssueOutcome(entries, isVirtual, now, server).result
          == Failure(Exception(IssueFailedPrefix + r.value.statusName))
  {
  }

  /** Hence the other mode's token and expiry, and every credential, survive any call. */
  lemma OtherModeUntouched(entries: map<string, string>, isVirtual: bool, now: Ticks,
                           server: Exchange<TokenResponse>, other: bool)
    requires other != isVirtual
    ensures var after := AccessTokenOutcome(entries, isVirtual, now, server).entries;
      Lookup(after, TokenKey(other)) == Lookup(entries, TokenKey(other))
      && Lookup(after, ExpiryKey(other)) == Lookup(entries, ExpiryKey(other))
      && Lookup(after, AppKeyName(other)) == Lookup(entries, AppKeyName(other))
      && Lookup(after, SecretName(other)) == Lookup(entries, SecretName(other))
      && Lookup(after, AppKeyName(isVirtual)) == Lookup(entries, AppKeyName(isVirtual))
      && Lookup(after, SecretName(isVirtual)) == Lookup(entries, SecretName(isVirtual))
  {
    StoreKeysDistinct(isVirtual, other);
    StoreKeysDistinct(isVirtual, isVirtual);
  }

  /** Saving reads back: the token as returned, and an expiry that parses to
      `now + expires_in` seconds cut to the whole second. */
  lemma SavedTokenReadsBack(entries: map<string, string>, isVirtual: bool, now: Ticks, token: TokenResponse,
                            expiry: Ticks)
    requires expiry == now + token.expiresIn * TicksPerSecond
    ensures SaveToken(entries, isVirtual, now, token).result == Success(token.accessToken)
    ensures Lookup(SaveToken(entries, isVirtual, now, token).entries, TokenKey(isVirtual)) == token.accessToken
    ensures ParseTimestamp(Lookup(SaveToken(entries, isVirtual, now, token).entries, ExpiryKey(isVirtual)))
            == Some(expiry - expiry % TicksPerSecond)
  {
    SaveTokenWrites(entries, isVirtual, now, token, expiry);
    StoreKeysDistinct(isVirtual, isVirtual);
    ParseFormatTimestamp(expiry);
  }

  lemma SaveTokenWrites(entries: map<string, string>, isVirtual: bool, now: Ticks, token: TokenResponse,
                        expiry: Ticks)
    requires expiry == now + token.expiresIn * TicksPerSecond
    ensures SaveToken(entries, isVirtual, now, token)
      == Step(Success(token.accessToken),
              entries[TokenKey(isVirtual) := token.accessToken][ExpiryKey(isVirtual) := FormatTimestamp(expiry)], [])
  {
    assert AddSeconds(now, token.expiresIn) == Success(expiry);
  }

  /** When `now + expires_in` leaves DateTime's range the call throws after the token was
      written: the store then holds the new token beside the previous expiry text. */
  lemma OverflowLeavesTokenWithOldExpiry(entries: map<string, string>, isVirtual: bool, now: Ticks, token: TokenResponse)
    requires !(0 <= now + token.expiresIn * TicksPerSecond <= MaxTicks)
    ensures var s := SaveToken(entries, isVirtual, now, token);
      s.result == Failure(Exception(DateArithmeticMessage))
      && Lookup(s.entries, TokenKey(isVirtual)) == token.accessToken
      && Lookup(s.entries, ExpiryKey(isVirtual)) == Lookup(entries, ExpiryKey(isVirtual))
  {
    StoreKeysDistinct(isVirtual, isVirtual);
  }

  /** A successful issue sent exactly the token request and stored what it returned. */
  lemma IssuedTokenStored(entries: map<string, string>, isVirtual: bool, now: Ticks,
                          server: Exchange<TokenResponse>)
    requires IssueOutcome(entries, isVirtual, now, server).result.Success?
    ensures var r := server(IssueRequest(entries, isVirtual));
      HasCredentials(entries, isVirtual) && r.Success? && IsSuccessStatusCode(r.value.status) && r.value.content.Parsed?
    ensures var token := server(IssueRequest(entries, isVirtual)).value.content.value;
      IssueOutcome(entries, isVirtual, now, server)
        == Step(Success(token.accessToken), SaveToken(entries, isVirtual, now, token).entries, [IssueRequest(entries, isVirtual)])
      && 0 <= now + token.expiresIn * TicksPerSecond <= MaxTicks
  {
  }

  /** Saving a token issued at `issuedAt` and asking again at a later `now` (in the same
      mode) returns the stored token without a request exactly when it is non-empty and the
      stored expiry, cut to the second, lies more than five minutes after `now`; with
      `IssuedTokenStored` this is what a second call after a successful issue decides. */
  lemma ReuseAfterSave(entries: map<string, string>, isVirtual: bool, issuedAt: Ticks, token: TokenResponse,
                      expiry: int, now: Ticks)
    requires expiry == issuedAt + token.expiresIn * TicksPerSecond && 0 <= expiry <= MaxTicks
    requires now + FiveMinutes <= MaxTicks
    ensures var after := SaveToken(entries, isVirtual, issuedAt, token).entries;
      ReuseDecision(Lookup(after, TokenKey(isVirtual)), Lookup(after, ExpiryKey(isVirtual)), now)
        == (if token.accessToken != "" && expiry - expiry % TicksPerSecond > now + FiveMinutes
            then Success(Some(token.accessToken)) else Success(None))
  {
    SavedTokenReadsBack(entries, isVirtual, issuedAt, token, expiry);
    var after := SaveToken(entries, isVirtual, issuedAt, token).entries;
    ReuseIff(Lookup(after, TokenKey(isVirtual)), Lookup(after, ExpiryKey(isVirtual)), now);
  }

  // ---------------------------------------------------------------------------------------
  // The approval key

  /** `node?.ToString() ?? ""` for the value of `approval_key`: a string's text, a number's or
      literal's JSON text, "" for null; `structuredText` is the indented JSON `ToString()`
      writes for an array or object. */
  function NodeText(node: Json, structuredText: Json -> string): string
  {
    match node
    case JNull => ""
    case JString(s) => s
    case JNumber(literal) => literal
    case JBool(b) => if b then "true" else "false"
    case JArray(_) => structuredText(node)
    case JObject(_) => structuredText(node)
  }

  /** `json?["approval_key"]?.ToString() ?? string.Empty` for a response body. */
  function ApprovalKeyOf(content: Payload<Json>, structuredText: Json -> string): Result<string, Exception>
  {
    match content
    case NullPayload => Success("")
    case Unreadable(e) => Failure(e)
    case Parsed(JNull) => Success("")
    case Parsed(JObject(members)) =>
      (match LastMember(members, "approval_key")
       case None => Success("")
       case Some(node) => Success(NodeText(node, structuredText)))
    case Parsed(_) => Failure(Exception(NodeNotObjectMessage))
  }

  /** `GetWebSocketApprovalKeyAsync()`: one request, whatever its status, and no store write. */
  function ApprovalOutcome(entries: map<string, string>, isVirtual: bool, server: Exchange<Json>,
                           structuredText: Json -> string): (s: Step<string>)
    ensures s.entries == entries
    ensures s.sent == [ApprovalRequest(isVirtual, Lookup(entries, AppKeyName(isVirtual)), Lookup(entries, SecretName(isVirtual)))]
  {
    var request := ApprovalRequest(isVirtual, Lookup(entries, AppKeyName(isVirtual)),
                                   Lookup(entries, SecretName(isVirtual)));
    match server(request)
    case Failure(e) => Step(Failure(e), entries, [request])
    case Success(response) => Step(ApprovalKeyOf(response.content, structuredText), entries, [request])
  }

  /** The approval key is the response's `approval_key` string, or "" when the body is null or
      the name is absent or null; the status is never looked at. */
  lemma ApprovalKeyCases(content: Payload<Json>, structuredText: Json -> string, members: seq<(string, Json)>)
    ensures ApprovalKeyOf(NullPayload, structuredText) == Success("")
    ensures content == Parsed(JObject(members)) && LastMember(members, "approval_key").Some?
            && LastMember(members, "approval_key").value.JString?
            ==> ApprovalKeyOf(content, structuredText) == Success(LastMember(members, "approval_key").value.s)
    ensures content == Parsed(JObject(members))
            && (LastMember(members, "approval_key") == None || LastMember(members, "approval_key") == Some(JNull))
            ==> ApprovalKeyOf(content, structuredText) == Success("")
  {
  }

  /** The approval key does not depend on the response status. */
  lemma ApprovalIgnoresStatus(entries: map<string, string>, isVirtual: bool, server: Exchange<Json>,
                              structuredText: Json -> string)
    ensures var o := ApprovalOutcome(entries, isVirtual, server, structuredText);
      var r := server(ApprovalRequest(isVirtual, Lookup(entries, AppKeyName(isVirtual)), Lookup(entries, SecretName(isVirtual))));
      o.entries == entries && |o.sent| == 1
      && (r.Success? ==> o.result == ApprovalKeyOf(r.value.content, structuredText))
  {
  }

  // ---------------------------------------------------------------------------------------

  class KisAuthService {
    const settings: SettingsService

    constructor(settings: SettingsService)
      ensures this.settings == settings
    {
      this.settings := settings;
    }

    /** `GetAccessTokenAsync()`. */
    method GetAccessToken(now: Ticks, server: Exchange<TokenResponse>)
      returns (r: Result<string, Exception>, ghost sent: seq<HttpRequest>)
      modifies settings.store
      ensures var o := AccessTokenOutcome(old(settings.store.entries), settings.IsVirtual(), now, server);
        r == o.result && settings.store.entries == o.entries && sent == o.sent
    {
      var isVirtual := settings.IsVirtual();
      var mode := ModeName(isVirtual);
      var savedToken := settings.store.Get("kis_token_" + mode);
      var expiryText := settings.store.Get("kis_expiry_" + mode);
      if !IsNullOrEmpty(savedToken) {
        var expiryTime := ParseTimestamp(expiryText);
        if expiryTime.Some? {
          var limit := AddMinutes(now, 5);
          if limit.Failure? {
            return Failure(limit.error), [];
          }
          if expiryTime.value > limit.value {
            return Success(savedToken), [];
          }
        }
      }
      r, sent := IssueNewToken(isVirtual, now, server);
    }

    /** `IssueNewTokenAsync(isVirtual)`: the checks in order, then two store writes. */
    method IssueNewToken(isVirtual: bool, now: Ticks, server: Exchange<TokenResponse>)
      returns (r: Result<string, Exception>, ghost sent: seq<HttpRequest>)
      modifies settings.store
      ensures var o := IssueOutcome(old(settings.store.entries), isVirtual, now, server);
        r == o.result && settings.store.entries == o.entries && sent == o.sent
    {
      var modeKey := ModeName(isVirtual);
      var appKey := settings.GetKisAppKey(isVirtual);
      var appSecret := settings.GetKisSecret(isVirtual);
      if IsNullOrEmpty(appKey) || IsNullOrEmpty(appSecret) {
        return Failure(Exception(MissingKeysMessage)), [];
      }
      var request := TokenRequest(isVirtual, appKey, appSecret);
      sent := [request];
      var response := server(request);
      if response.Failure? {
        return Failure(response.error), sent;
      }
      if !IsSuccessStatusCode(response.value.status) {
        return Failure(Exception(IssueFailedPrefix + response.value.statusName)), sent;
      }
      match response.value.content {
        case NullPayload =>
          return Failure(Exception(UnreadableTokenMessage)), sent;
        case Unreadable(e) =>
          return Failure(e), sent;
        case Parsed(result) =>
          settings.store.Set("kis_token_" + modeKey, result.accessToken);
          var expiry := AddSeconds(now, result.expiresIn);
          if expiry.Failure? {
            return Failure(expiry.error), sent;
          }
          settings.store.Set("kis_expiry_" + modeKey, FormatTimestamp(expiry.value));
          return Success(result.accessToken), sent;
      }
    }

    /** `GetWebSocketApprovalKeyAsync()`: it reads the credentials and writes nothing. */
    method GetWebSocketApprovalKey(server: Exchange<Json>, structuredText: Json -> string)
      returns (r: Result<string, Exception>, ghost sent: seq<HttpRequest>)
      ensures var o := ApprovalOutcome(settings.store.entries, settings.IsVirtual(), server, structuredText);
        r == o.result && sent == o.sent
    {
      var isVirtual := settings.IsVirtual();
      var appKey := settings.GetKisAppKey(isVirtual);
      var appSecret := settings.GetKisSecret(isVirtual);
      var request := ApprovalRequest(isVirtual, appKey, appSecret);
      sent := [request];
      var response := server(request);
      if response.Failure? {
        return Failure(response.error), sent;
      }
      r := ApprovalKeyOf(response.value.content, structuredText);
    }
  }
}
