# SmartTrading.App core, modelled in Dafny

SmartTrading.App is a MAUI/Blazor stock-quote app. It talks to the Korea Investment & Securities
(KIS) Open API. This project models the deterministic logic around the app's network plumbing
and proves what that logic promises:

- **Token policy** (`KisAuth`, `kis_auth.dfy`). A saved per-mode access token is reused while
  its stored expiry lies strictly more than five minutes ahead. Otherwise a new token is
  issued. Issuing checks the credentials, sends one token request, checks the status, reads
  the body, and then writes the token and its expiry under mode-specific keys. The
  WebSocket approval key is fetched and never stored.
- **Quotations** (`KisQuote`, `kis_quote.dfy`). Index, current-price and daily-price requests
  are built from the mode, the codes and fixed transaction ids. A request carries the KIS
  headers, and its `output` is selected only when `rt_cd` is `"0"`. In virtual trading the
  index lookup answers null before doing anything.
- **Streaming** (`KisRealtime`, `kis_realtime.dfy`). The frame decoder
  `ParsePriceFromRawData` handles JSON control frames (keepalive, subscribe result) and
  `|`/`^`-separated tick frames, with a sentinel for every failure. The module also holds
  the subscribe frame and the connect/subscribe/disconnect guards on the socket state.
  Whether the receive loop is waiting on the socket is tracked too: a disconnect cancels
  that loop's token first, which aborts a socket the loop is waiting on, so only an open
  socket with no loop waiting gets the close handshake.
- **Settings** (`Settings`, `settings.dfy`). Per-mode credential names are chosen from the
  mode. A set removes the key for a blank value and stores any other value. The
  `IsVirtual` preference defaults to true. The secure store is modelled as a
  string-to-string map in which a missing key reads as `""` (`Storage`, `storage.dfy`).
- **Chart page** (`ChartTest`, `chart_test.dfy`). Daily items become candles when their date
  reads exactly as `yyyyMMdd`. The candles are stably sorted by date, and the page sets the
  empty-result and error messages and keeps the loading flag. Changing the period
  recomputes the title, and the current period's button is highlighted.
- **Dashboard page** (`Home`, `home.dfy`). The change-direction code maps to an arrow and a
  colour class. The index load runs only in real trading, and the featured stock loads in
  both modes.

Supporting modules:

- `Wrappers`: Option and Result.
- `Text`: `String.Split` with empty fields kept, `IsNullOrEmpty`/`IsNullOrWhiteSpace`, and
  fixed-width digits.
- `Json`: a JSON value with `JsonElement`'s property-access rules.
- `Calendar`: `yyyyMMdd` dates and `yyyy-MM-dd HH:mm:ss` timestamps over `DateTime` ticks,
  with both round trips proved.
- `Models`: the response records.
- `Http`: requests, responses, the brokerage endpoints as functions, and URL read-back.

The environment and the decimal parser are parameters:

- each endpoint is an `Exchange<T>`, a function from a request to a response or to the
  exception the HTTP client throws;
- the socket's connect attempt is `dial`;
- JSON parsing is `parse`;
- `decimal.Parse` is `parseDecimal`;
- the clock is one `now` (in ticks) per operation.

The service methods return ghost `sent` sequences of the requests they made. Each service
method is proved equal to a function (`…Outcome`) of the store's entries, the mode, the
clock and the endpoints. The lemmas are stated about those functions.

Where the app's design description and its code differ, the model follows the code:

- The decoder reads `header.tr_id` before it looks at `body`. A frame with a body and no
  header, such as `{"body":{"rt_cd":"0"}}`, therefore decodes to the sentinel
  `"데이터 해석 오류"` and not to the success text (`KisRealtime.BodyOnlyFrame`).
- The quote methods never look at the HTTP status. A non-2xx response whose body reads is
  selected like any other (`KisQuote.SelectIgnoresStatus`). The token issue, by contrast,
  fails on a non-success status, with the status name only and not the body.
- The streaming service takes its mode from the configuration value `KisApi:IsVirtual`. It
  does not take it from the settings service that the REST services follow.
- The socket states are those of `WebSocketState`: `None`, `Open`, `Closed` and the rest.
  There is no connecting, subscribing or streaming state. A failed connect leaves a fresh
  socket `Closed`.

## Model

| member | source | states |
|---|---|---|
| Storage.Lookup | SmartTrading.App/Utils/KeyStorage.cs:35 | a stored key reads as its value and a missing key as `""`, never null |
| Storage.SecureStore.Get | SmartTrading.App/Utils/KeyStorage.cs:35 | reading returns the stored value or `""` when the key is absent |
| Storage.SecureStore.Set | SmartTrading.App/Utils/KeyStorage.cs:28 | the key maps to the new value and every other entry is kept |
| Storage.SecureStore.Remove | SmartTrading.App/Utils/KeyStorage.cs:41 | the key is gone and every other entry is kept |
| Settings.CredentialNamesDistinct | SmartTrading.App/Services/Common/SettingsService.cs:32-35 | the app-key name and the secret name each select the mode (equal exactly for equal modes), and no app-key name is a secret name |
| Settings.SetOrRemove | SmartTrading.App/Services/Common/SettingsService.cs:95-105 | a null, empty or whitespace value removes the key, and any other value is stored under it; every other key is unchanged |
| Settings.SetThenGet | SmartTrading.App/Services/Common/SettingsService.cs:90-105 | after a set, the key reads back as the value, or as `""` after a blank value |
| Settings.SetKeepsOthers | SmartTrading.App/Services/Common/SettingsService.cs:95-105 | a set changes what no other key reads |
| Settings.SetOrRemoveIdempotent | SmartTrading.App/Services/Common/SettingsService.cs:95-105 | setting the same value twice is setting it once |
| Settings.SettingsService.SetIsVirtual | SmartTrading.App/Services/Common/SettingsService.cs:53-58 | the preference is written, `OnSettingsChanged` is raised exactly once, and the getter then reads the value |
| Settings.DefaultIsVirtual | SmartTrading.App/Services/Common/SettingsService.cs:52 | with the preference never set, the app is in virtual trading |
| Settings.SettingsService.GetSecureValue | SmartTrading.App/Services/Common/SettingsService.cs:90 | the stored value, or `""` for a missing key |
| Settings.SettingsService.IsVirtual | SmartTrading.App/Services/Common/SettingsService.cs:50-52 | the getter reads the stored preference, and reads true (virtual trading) when it was never set |
| Settings.SettingsService.GetKisAppKey | SmartTrading.App/Services/Common/SettingsService.cs:75 | reads `kis_virtual_appkey` in virtual and `kis_real_appkey` in real trading |
| Settings.SettingsService.GetKisSecret | SmartTrading.App/Services/Common/SettingsService.cs:81 | reads `kis_virtual_secret` in virtual and `kis_real_secret` in real trading |
| Settings.SettingsService.SetSecureValue | SmartTrading.App/Services/Common/SettingsService.cs:95-105 | the store becomes exactly the set-or-remove of its old contents |
| Calendar.ParseFormatDate | SmartTrading.App/Components/Pages/ChartTest.razor.cs:158 | every valid calendar date written as `yyyyMMdd` reads back exactly as that date |
| Calendar.FormatParseDate | SmartTrading.App/Components/Pages/ChartTest.razor.cs:158 | text that reads exactly as `yyyyMMdd` is the eight-digit rendering of the date it reads as, so the exact parse accepts nothing else |
| Calendar.ParseFormatTimestamp | SmartTrading.App/Services/Kis/KisAuthService.cs:124 | a moment written as `yyyy-MM-dd HH:mm:ss` reads back as that moment cut to the whole second |
| Calendar.FormatParseTimestamp | SmartTrading.App/Services/Kis/KisAuthService.cs:52 | a timestamp that reads is the rendering of the moment it reads as |
| Calendar.ParseTimestampOfRender | SmartTrading.App/Services/Kis/KisAuthService.cs:52 | any valid date and time, once rendered, reads back as exactly the moment it names |
| Calendar.ParseDateExact | SmartTrading.App/Components/Pages/ChartTest.razor.cs:158 | a text that reads is exactly eight digits and names a valid calendar date; the round trips above give the converse |
| Calendar.FormatTimestamp | SmartTrading.App/Services/Kis/KisAuthService.cs:124 | the rendering is always nineteen characters long, and it reads back as its moment cut to the second (Calendar.ParseFormatTimestamp) |
| Calendar.ParseTimestamp | SmartTrading.App/Services/Kis/KisAuthService.cs:52 | a text that reads is nineteen characters long and names a whole second; it is the rendering of what it reads as (Calendar.FormatParseTimestamp) |
| Json.LastMember | SmartTrading.App/Services/Kis/KisRealtimeService.cs:166 | nothing is found exactly when no member has the name; a found value is the value of a member with that name after which no member has it, so a repeated name yields its last occurrence |
| Json.GetProperty | SmartTrading.App/Services/Kis/KisRealtimeService.cs:166 | on an object, the member found by Json.LastMember, so the last one of a repeated name, or a key-not-found error when there is none; on anything else an error |
| Json.TryGetProperty | SmartTrading.App/Services/Kis/KisRealtimeService.cs:172 | succeeds exactly on an object, giving the member Json.LastMember finds (the last one of a repeated name) or none, and agrees with GetProperty when the member exists |
| Json.GetString | SmartTrading.App/Services/Kis/KisRealtimeService.cs:166 | a string reads as its text and null as null; every other kind is an error |
| Text.Split | SmartTrading.App/Services/Kis/KisRealtimeService.cs:183 | one more part than separators, no part holds the separator, and the parts joined back give the text (empty fields kept) |
| Text.SplitJoin | SmartTrading.App/Services/Kis/KisRealtimeService.cs:183-187 | joining separator-free parts and splitting again gives those parts back |
| Http.HeaderValue | SmartTrading.App/Services/Kis/KisQuoteService.cs:60-64 | a header is found exactly when one with that name was added, and the value found is one added under that name |
| Http.ReadBackUrl | SmartTrading.App/Services/Kis/KisQuoteService.cs:111-115 | a URL interpolated from a path and plain name=value pairs reads back as that path and those pairs in order |
| Http.BaseUrlsDistinct | SmartTrading.App/Services/Kis/KisAuthService.cs:34-35 | the real and virtual servers have different base addresses |
| KisAuth.StoreKeysDistinct | SmartTrading.App/Services/Kis/KisAuthService.cs:47-50 | `kis_token_{mode}` and `kis_expiry_{mode}` each select the mode, never coincide with one another, and never coincide with a credential name |
| KisAuth.AddTicks | SmartTrading.App/Services/Kis/KisAuthService.cs:124 | `DateTime` arithmetic succeeds exactly inside the representable range, with the exact sum |
| KisAuth.AddSeconds | SmartTrading.App/Services/Kis/KisAuthService.cs:124 | adding seconds succeeds exactly when the result stays inside `DateTime`'s range, and then moves the moment by exactly that many seconds |
| KisAuth.AddMinutes | SmartTrading.App/Services/Kis/KisAuthService.cs:54 | adding minutes succeeds exactly inside the range, and then moves the moment by exactly that many minutes |
| KisAuth.RequestBodies | SmartTrading.App/Services/Kis/KisAuthService.cs:74-114 | the token body holds `grant_type`, `appkey`, `appsecret` and the approval body `grant_type`, `appkey`, `secretkey` (no `appsecret`), each with the stored credential; the two go to different URLs |
| KisAuth.ReuseIff | SmartTrading.App/Services/Kis/KisAuthService.cs:52-58 | the saved token is returned exactly when it is non-empty, its expiry parses and the expiry is strictly later than now + 5 minutes; otherwise a new token is issued |
| KisAuth.ReuseDecision | SmartTrading.App/Services/Kis/KisAuthService.cs:52-58 | the check fails only when a non-empty token has a readable expiry and now + 5 minutes leaves the range; a reused token is the saved, non-empty one whose expiry reads as a moment strictly after now + 5 minutes |
| KisAuth.FiveMinutesLeftRefreshes | SmartTrading.App/Services/Kis/KisAuthService.cs:54 | exactly five minutes left forces a refresh |
| KisAuth.SaveToken | SmartTrading.App/Services/Kis/KisAuthService.cs:123-126 | saving sends nothing and changes no entry except the mode's token and expiry |
| KisAuth.ReceiveToken | SmartTrading.App/Services/Kis/KisAuthService.cs:116-126 | handling the token response sends nothing and changes only the mode's token and expiry |
| KisAuth.IssueOutcome | SmartTrading.App/Services/Kis/KisAuthService.cs:94-127 | an issue changes only the mode's token and expiry, and sends the token request exactly when both credentials are non-empty |
| KisAuth.AccessTokenOutcome | SmartTrading.App/Services/Kis/KisAuthService.cs:44-61 | getting a token changes only the current mode's token and expiry |
| KisAuth.MissingCredentialsFailEarly | SmartTrading.App/Services/Kis/KisAuthService.cs:99-105 | an empty app key or secret throws the configuration message before any request, with nothing written |
| KisAuth.RejectedIssueWritesNothing | SmartTrading.App/Services/Kis/KisAuthService.cs:114-121 | a transport error, a non-success status, or a null or unreadable body throws and leaves the store unchanged; a bad status throws `토큰 발급 실패: ` with its name |
| KisAuth.OtherModeUntouched | SmartTrading.App/Services/Kis/KisAuthService.cs:44-61 | a token call in one mode leaves the other mode's token and expiry and every credential as they were |
| KisAuth.SavedTokenReadsBack | SmartTrading.App/Services/Kis/KisAuthService.cs:121-126 | after a save, the mode's token reads as the returned token and its expiry parses to now + `expires_in` seconds cut to the second |
| KisAuth.SaveTokenWrites | SmartTrading.App/Services/Kis/KisAuthService.cs:123-124 | a save in range returns the token and writes exactly the token and then the formatted expiry |
| KisAuth.OverflowLeavesTokenWithOldExpiry | SmartTrading.App/Services/Kis/KisAuthService.cs:123-124 | when now + `expires_in` leaves `DateTime`'s range, the call throws after the token write, leaving the new token beside the old expiry |
| KisAuth.IssuedTokenStored | SmartTrading.App/Services/Kis/KisAuthService.cs:114-126 | a successful issue had credentials, a success status and a readable body, sent exactly the token request, and stored what that body returned |
| KisAuth.ReuseAfterSave | SmartTrading.App/Services/Kis/KisAuthService.cs:52-58 | after a token issued at T with lifetime E is saved, a later same-mode call at t reuses it exactly when it is non-empty and (T + E) cut to the second > t + 5 minutes |
| KisAuth.ApprovalKeyCases | SmartTrading.App/Services/Kis/KisAuthService.cs:82-84 | the approval key is the body's `approval_key` string, or `""` when the body is null or the member is absent or null |
| KisAuth.ApprovalIgnoresStatus | SmartTrading.App/Services/Kis/KisAuthService.cs:66-85 | the approval call sends one request, writes nothing, and takes the key from the body whatever the status |
| KisAuth.ApprovalOutcome | SmartTrading.App/Services/Kis/KisAuthService.cs:66-85 | the store is unchanged, and exactly one request is sent: the mode's approval request built from the stored app key and secret |
| KisAuth.KisAuthService.GetAccessToken | SmartTrading.App/Services/Kis/KisAuthService.cs:44-61 | result, new store and requests sent are those of the reuse-or-issue outcome for the current mode |
| KisAuth.KisAuthService.IssueNewToken | SmartTrading.App/Services/Kis/KisAuthService.cs:94-127 | result, new store and requests sent are those of the issue outcome |
| KisAuth.KisAuthService.GetWebSocketApprovalKey | SmartTrading.App/Services/Kis/KisAuthService.cs:66-85 | result and request are those of the approval outcome, and the store is untouched |
| KisQuote.SelectOutputIff | SmartTrading.App/Services/Kis/KisQuoteService.cs:66-68 | `output` is returned exactly when the body reads, `rt_cd` is `"0"` and `output` is set; a body that does not read throws; any other body gives null |
| KisQuote.SelectOutput | SmartTrading.App/Services/Kis/KisQuoteService.cs:66-68 | the selection fails exactly when the body does not read; a non-null result is the `output` of a readable body with `rt_cd` "0", and such a body always gives its `output` |
| KisQuote.SelectIgnoresStatus | SmartTrading.App/Services/Kis/KisQuoteService.cs:93-95 | two responses with the same body select the same result, whatever their status |
| KisQuote.QuoteHeadersCarry | SmartTrading.App/Services/Kis/KisQuoteService.cs:60-64 | a quotation request carries exactly `authorization: Bearer {token}`, `appkey`, `appsecret`, `tr_id` and `custtype: P`, in that order, each with its value |
| KisQuote.IndexUrlCarries | SmartTrading.App/Services/Kis/KisQuoteService.cs:57 | the index URL names the real server's index endpoint with exactly `FID_COND_MRKT_DIV_CODE=U` and the code |
| KisQuote.PriceUrlCarries | SmartTrading.App/Services/Kis/KisQuoteService.cs:84 | the current-price URL names the mode's server with exactly market `J` and the code, and no `FID_ORG_ADJ_PRC` |
| KisQuote.DailyUrlCarries | SmartTrading.App/Services/Kis/KisQuoteService.cs:111-115 | the daily URL names the mode's server with exactly market `J`, the code, the period code as given and `FID_ORG_ADJ_PRC=0` |
| KisQuote.VirtualIndexIsNull | SmartTrading.App/Services/Kis/KisQuoteService.cs:47-50 | in virtual trading the index lookup returns null with no token request, no quotation request and no store change |
| KisQuote.FetchSendsOneRequest | SmartTrading.App/Services/Kis/KisQuoteService.cs:78-95 | once a token is obtained, exactly one quotation request follows the token lookup's requests, built from that token and the credentials; its result is the selected output or the transport's exception |
| KisQuote.FetchNeedsToken | SmartTrading.App/Services/Kis/KisQuoteService.cs:78 | a failed token lookup fails the call before any quotation request |
| KisQuote.RealIndexUsesRealCredentials | SmartTrading.App/Services/Kis/KisQuoteService.cs:52-63 | a real-trading index lookup sends the real-mode token, `kis_real_appkey`, `kis_real_secret` and `FHPUP02100000` to the index URL |
| KisQuote.FetchOutcome | SmartTrading.App/Services/Kis/KisQuoteService.cs:78-95 | the call changes at most the token mode's token and expiry, and a call that returns sent a GET to the given URL as its last request |
| KisQuote.IndexOutcome | SmartTrading.App/Services/Kis/KisQuoteService.cs:45-69 | only the real mode's token and expiry may change; a non-null index comes only from real trading, with a last request to the index URL for that code |
| KisQuote.PriceOutcome | SmartTrading.App/Services/Kis/KisQuoteService.cs:74-96 | only the current mode's token and expiry may change; a call that returns sent its last request to the mode's current-price URL for that code |
| KisQuote.DailyOutcome | SmartTrading.App/Services/Kis/KisQuoteService.cs:101-127 | only the current mode's token and expiry may change; a call that returns sent its last request to the mode's daily URL for that code and period |
| KisQuote.KisQuoteService.GetIndexPrice | SmartTrading.App/Services/Kis/KisQuoteService.cs:45-69 | result, new store and requests sent are those of the index outcome |
| KisQuote.KisQuoteService.GetCurrentPrice | SmartTrading.App/Services/Kis/KisQuoteService.cs:74-96 | result, new store and requests sent are those of the current-price outcome |
| KisQuote.KisQuoteService.GetDailyPrice | SmartTrading.App/Services/Kis/KisQuoteService.cs:101-127 | result, new store and requests sent are those of the daily-price outcome |
| KisRealtime.PingFrame | SmartTrading.App/Services/Kis/KisRealtimeService.cs:166-169 | a JSON frame whose `header.tr_id` is `PINGPONG` decodes to `PING`, whatever else it holds |
| KisRealtime.SubscribeResult | SmartTrading.App/Services/Kis/KisRealtimeService.cs:172-178 | a frame with another `tr_id` and a body with `rt_cd` and `msg1` decodes to `✅ 실시간 연결 성공` exactly when `rt_cd` is `"0"`, and otherwise to `❌ 구독 실패: ` followed by `msg1` |
| KisRealtime.UnparsableFrame | SmartTrading.App/Services/Kis/KisRealtimeService.cs:160-162 | text starting with `{` that does not parse decodes to the sentinel |
| KisRealtime.FrameWithoutTrId | SmartTrading.App/Services/Kis/KisRealtimeService.cs:166 | JSON without `header.tr_id`, or with a `tr_id` that is not a string, decodes to the sentinel |
| KisRealtime.BodyMissingField | SmartTrading.App/Services/Kis/KisRealtimeService.cs:174-175 | a body lacking `rt_cd` or `msg1` decodes to the sentinel, even when `rt_cd` is `"0"` |
| KisRealtime.BodyOnlyFrame | SmartTrading.App/Services/Kis/KisRealtimeService.cs:166 | `{"body":{"rt_cd":"0"}}` decodes to the sentinel, because the header is read first |
| KisRealtime.HeaderOnlyFrame | SmartTrading.App/Services/Kis/KisRealtimeService.cs:172-196 | a JSON frame with a non-keepalive header and no body falls through to the tick branch |
| KisRealtime.TickFrame | SmartTrading.App/Services/Kis/KisRealtimeService.cs:183-193 | a frame of at least four pipe-separated parts whose fourth has at least three `^`-fields yields the third field |
| KisRealtime.NotATick | SmartTrading.App/Services/Kis/KisRealtimeService.cs:184-196 | with fewer than four pipe-separated parts, or fewer than three `^`-fields in the fourth, the frame comes back unchanged |
| KisRealtime.PlainFrame | SmartTrading.App/Services/Kis/KisRealtimeService.cs:160 | a frame that does not start with `{` goes to the tick branch only |
| KisRealtime.TickExample | SmartTrading.App/Services/Kis/KisRealtimeService.cs:183-193 | an example of the tick branch: the frame `a`, `b`, `c`, `H^H^123.45` joined by pipes decodes to `123.45` |
| KisRealtime.ControlFrameReplies | SmartTrading.App/Services/Kis/KisRealtimeService.cs:166-178 | a JSON control frame answers `PING`, the success text or a text starting with the failure prefix |
| KisRealtime.TickPriceOutcomes | SmartTrading.App/Services/Kis/KisRealtimeService.cs:183-196 | the tick branch returns the frame itself, or a field free of both separators taken from a frame with at least three pipes |
| KisRealtime.ParsePriceFromRawData | SmartTrading.App/Services/Kis/KisRealtimeService.cs:155-202 | the decoder is total: every frame gives the frame itself, the sentinel, `PING`, the success text, a text starting with the failure prefix, or a tick field holding neither separator taken from a frame with at least three pipes; the lemmas above pin down which frame gives which |
| KisRealtime.SubscribeHeaderFields | SmartTrading.App/Services/Kis/KisRealtimeService.cs:97-103 | the header holds exactly `approval_key`, `custtype: P`, `tr_type: 1` and `content_type: utf-8`, in order, each reading back its value |
| KisRealtime.SubscribeInputFields | SmartTrading.App/Services/Kis/KisRealtimeService.cs:106-112 | `body.input` holds exactly `tr_id: H0STCNT0` and `tr_key` set to the stock code |
| KisRealtime.SubscribeFrameFields | SmartTrading.App/Services/Kis/KisRealtimeService.cs:95-116 | the frame holds exactly `header` and `body`, and `body` exactly `input`, each reading back its part, with the member names as declared |
| KisRealtime.WsUrlsDistinct | SmartTrading.App/Services/Kis/KisRealtimeService.cs:34-39 | the two streaming addresses are equal exactly for equal modes |
| KisRealtime.KisRealtimeService.Connect | SmartTrading.App/Services/Kis/KisRealtimeService.cs:56-80 | an open socket is left alone; otherwise a fresh socket and an uncancelled token source dial the configured mode's address once, ending open with the receive loop waiting on success, and closed with no loop and the exception rethrown on failure; nothing is sent and the socket is open exactly when a loop waits |
| KisRealtime.KisRealtimeService.Subscribe | SmartTrading.App/Services/Kis/KisRealtimeService.cs:85-121 | an open socket keeps its socket, token source and loop; otherwise one more socket with an uncancelled token dials the configured address, with a loop waiting exactly when the dial succeeds; when connected and the approval key is obtained, exactly one subscribe frame carrying that key is sent, and a connect or key failure is rethrown with nothing sent |
| KisRealtime.KisRealtimeService.Disconnect | SmartTrading.App/Services/Kis/KisRealtimeService.cs:123-130 | the token source is cancelled first and no loop is left waiting; an open socket whose receive loop was waiting ends aborted with no close handshake, an open socket with no loop waiting gets one close handshake and ends closed, and any other state is kept |
| ChartTest.BarOfFields | SmartTrading.App/Components/Pages/ChartTest.razor.cs:158-168 | a candle carries the item's exactly-parsed valid date and the parsed open, high, low, close and volume |
| ChartTest.BarOf | SmartTrading.App/Components/Pages/ChartTest.razor.cs:158-168 | an undated item gives no candle and no error; a candle carries the item's exactly-parsed date; an error comes from a dated item one of whose five prices fails to parse |
| ChartTest.Collect | SmartTrading.App/Components/Pages/ChartTest.razor.cs:155-170 | never more candles than items; without a fault, one candle per dated item, in order, each that item's candle |
| ChartTest.CollectFault | SmartTrading.App/Components/Pages/ChartTest.razor.cs:163-167 | a fault is the exception of some item whose price fails to parse |
| ChartTest.CollectStep | SmartTrading.App/Components/Pages/ChartTest.razor.cs:155-169 | one more item adds its candle, adds nothing for an undated item, or stops with its exception |
| ChartTest.UndatedItemSkipped | SmartTrading.App/Components/Pages/ChartTest.razor.cs:158 | an item whose date does not read adds nothing and does not stop the loop |
| ChartTest.CollectStopsAtFault | SmartTrading.App/Components/Pages/ChartTest.razor.cs:179-182 | once a price fails, later items change nothing |
| ChartTest.InsertByDate | SmartTrading.App/Components/Pages/ChartTest.razor.cs:172 | inserting into a date-sorted list keeps it sorted and adds exactly that candle |
| ChartTest.InsertKeepsDateOrder | SmartTrading.App/Components/Pages/ChartTest.razor.cs:172 | inserting keeps each date's candles in order, with the new one after those of its date |
| ChartTest.SortByDate | SmartTrading.App/Components/Pages/ChartTest.razor.cs:172 | the result is sorted ascending by date and is a permutation of the input |
| ChartTest.SortKeepsDateOrder | SmartTrading.App/Components/Pages/ChartTest.razor.cs:172 | the sort is stable: each date's candles keep their arrival order |
| ChartTest.LoadedBars | SmartTrading.App/Components/Pages/ChartTest.razor.cs:153-173 | a load without fault shows no message and one candle per dated item, sorted, a permutation of the collected candles, and stable |
| ChartTest.EmptyResult | SmartTrading.App/Components/Pages/ChartTest.razor.cs:174-177 | a null or empty result shows no candles and the empty-result message |
| ChartTest.LoadOutcome | SmartTrading.App/Components/Pages/ChartTest.razor.cs:153-182 | a load that shows no message shows date-sorted candles; never more candles than items returned; the quote call's exception shows no candles, and a price that fails to parse shows the candles built so far, unsorted, in both cases with the system-error message and the exception's text |
| ChartTest.TitlesDistinct | SmartTrading.App/Components/Pages/ChartTest.razor.cs:198-204 | `D`, `W` and `M` have three distinct titles, none of them the generic `차트` |
| ChartTest.TitleFor | SmartTrading.App/Components/Pages/ChartTest.razor.cs:198-204 | the title differs from the generic `차트` exactly for `D`, `W` and `M` |
| ChartTest.ChartTestPage.ButtonClass | SmartTrading.App/Components/Pages/ChartTest.razor.cs:220 | `btn-primary` exactly for the current period, `btn-outline-primary` otherwise |
| ChartTest.OneButtonHighlighted | SmartTrading.App/Components/Pages/ChartTest.razor.cs:220 | at most one period's button is highlighted |
| ChartTest.ChartTestPage.CollectBars | SmartTrading.App/Components/Pages/ChartTest.razor.cs:155-170 | the loop leaves the candles and the fault that the collection defines, and changes no other field |
| ChartTest.ChartTestPage.ShowResult | SmartTrading.App/Components/Pages/ChartTest.razor.cs:153-182 | from a cleared page, the candles and message become those the load outcome gives for the result |
| ChartTest.ChartTestPage.LoadRealData | SmartTrading.App/Components/Pages/ChartTest.razor.cs:142-187 | the page shows the load outcome of the daily-price call, the store is what that call left, and the loading flag is down on every path |
| ChartTest.ChartTestPage.ChangePeriod | SmartTrading.App/Components/Pages/ChartTest.razor.cs:193-214 | the current period changes nothing; another sets the period, its title and the featured stock's load for it; the title always names the period |
| ChartTest.ChartTestPage.OnInitialized | SmartTrading.App/Components/Pages/ChartTest.razor.cs:134 | the page shows the featured stock's daily load |
| Home.GetSign | SmartTrading.App/Components/Pages/Home.razor.cs:104 | `▲` exactly for `1` or `2`, `▼` exactly for `4` or `5`, and no arrow exactly for every other code |
| Home.GetColorClass | SmartTrading.App/Components/Pages/Home.razor.cs:109 | `text-up` exactly for `1` or `2`, `text-down` exactly for `4` or `5`, and no class exactly for every other code |
| Home.SignMatchesColor | SmartTrading.App/Components/Pages/Home.razor.cs:104-109 | `▲` exactly for `1`/`2` and `▼` exactly for `4`/`5`; the arrow and colour class always agree, and `3` has neither |
| Home.VirtualShowsNoIndex | SmartTrading.App/Components/Pages/Home.razor.cs:64-71 | in virtual trading only the featured-stock requests are sent and both indices stay as they were |
| Home.RealLoadsBoth | SmartTrading.App/Components/Pages/Home.razor.cs:64-73 | in real trading the index requests come first, then the featured stock's; a returned quote is shown whatever the index calls did, and the KOSPI call's requests are a prefix of all requests sent |
| Home.IndexFailureKeepsBoard | SmartTrading.App/Components/Pages/Home.razor.cs:86-90 | a failed KOSPI call leaves both index fields unassigned |
| Home.IndexLoad | SmartTrading.App/Components/Pages/Home.razor.cs:86-90 | the featured stock is untouched; a failed KOSPI (`0001`) call leaves the board as it was, with that call's store and requests; a returned KOSPI call assigns its result, and then the KOSDAQ (`1001`) call runs on the store it left, its result assigned only when it returns, its requests following KOSPI's and its store the final one |
| Home.FeaturedLoad | SmartTrading.App/Components/Pages/Home.razor.cs:95-99 | the indices are untouched; store and requests are the current-price call's, and the featured stock is its result when it returns and unchanged when it throws |
| Home.InitOutcome | SmartTrading.App/Components/Pages/Home.razor.cs:58-81 | the indices are those of the index load in real trading and unchanged in virtual trading; the featured stock is the quote when it returns and unchanged otherwise; the requests are the index load's followed by the quote's |
| Home.HomePage.LoadIndex | SmartTrading.App/Components/Pages/Home.razor.cs:86-90 | fields, store and requests become those of the KOSPI-then-KOSDAQ load |
| Home.HomePage.LoadFeaturedStock | SmartTrading.App/Components/Pages/Home.razor.cs:95-99 | fields, store and requests become those of the featured-stock load |
| Home.HomePage.OnInitialized | SmartTrading.App/Components/Pages/Home.razor.cs:58-81 | fields, store and requests become those of the initialisation outcome, which loads the index only in real trading and swallows every exception |

## Left out

- `ReceiveLoopAsync` (KisRealtimeService.cs:136-153): a background receive loop over a byte buffer, which is concurrency and I/O. The quirk that it decodes only the last chunk of a multi-chunk message, the one marked end-of-message, is therefore not modelled. The decoder itself is modelled.
- The transports (`HttpClient.PostAsJsonAsync`/`SendAsync`, `ClientWebSocket.ConnectAsync`/`SendAsync`/`CloseAsync`) are parameters or left out. A send or close failure on the socket is not modelled.
- `System.Text.Json`: parsing is a parameter, and the bytes that serialising the subscribe frame produces are not modelled. The frame is modelled as the JSON value it serialises.
- `decimal.Parse` is a parameter (`parseDecimal`); decimal arithmetic is not modelled.
- `DateTime.TryParse` on the stored expiry accepts only the exact `yyyy-MM-dd HH:mm:ss` layout that the app writes. Other layouts and culture handling are not modelled.
- Calendar.ParseDateExact and Calendar.FormatTimestamp assume the Gregorian calendar and `:` as the time separator. `TryParseExact(item.Date, "yyyyMMdd", null, …)` (ChartTest.razor.cs:158) and `ToString("yyyy-MM-dd HH:mm:ss")` (KisAuthService.cs:124) both follow the current culture, and a culture with another calendar or time separator is not modelled.
- KisQuote.DailyOutcome takes the period code as a parameter. The default `periodCode = "D"` of `GetDailyPriceAsync` (KisQuoteService.cs:101) is not modelled, because the one caller always passes the period.
- `DateTime.Now` is one `now` per operation. The source reads the clock separately for the reuse check and for the expiry it writes.
- `HttpRequestHeaders.Add` validation and `Uri` parsing are not modelled. Headers and URLs are plain text.
- `JsonElement.GetProperty` on duplicate member names is modelled as returning the last one. KisAuth.ApprovalKeyOf reads `approval_key` the same way, through the last member of that name. The `JsonNode`/`JsonObject` indexer it stands for (KisAuthService.cs:82) would instead throw `ArgumentException` on a duplicate name, and that throw is not modelled.
- KisRealtime.KisRealtimeService.Disconnect: cancelling the token aborts the socket because .NET's managed `ClientWebSocket` aborts a socket whose pending `ReceiveAsync` sees its token cancelled. The model assumes the loop started at KisRealtimeService.cs:73 is already waiting in `ReceiveAsync`; the race in which it has not reached that call yet, so that `CloseAsync` runs, is not modelled.
- The Models records `TokenResponse`, `IndexOutput`, `QuoteOutput`, `DailyPriceDetail` and `QuoteResponse` have plain `string` fields and cannot hold a JSON `null` in a string property. Such a body is excluded. For example, `"access_token": null` would reach `KeyStorage.SaveAsync` (KeyStorage.cs:28, called at KisAuthService.cs:123), and `SecureStorage.SetAsync` would throw `ArgumentNullException`. A null price in a daily item would make `decimal.Parse` throw `ArgumentNullException`, which the model cannot express.
- `Task.WhenAll` in the dashboard's `OnInitializedAsync` is sequential in the model, with the index load first. The interleaving of the two loads' awaits is not modelled.
- `GetGeminiApiKeyAsync` (SettingsService.cs:69) is not part of this model: no core operation uses it.
- The `OnSettingsChanged` subscribers are not modelled. Raising the event is counted, but what listeners do is not.
- `OnDataReceived` listeners are not modelled.
- The ApexCharts options (ChartTest.razor.cs:85-131), `RenderAsync`, `StateHasChanged`/`InvokeAsync` and `Debug.WriteLine` logging are UI and diagnostics.
- The Settings, TokenTest and MainLayout pages and MauiProgram.cs are UI and dependency-injection bootstrap.
- KeyStorage.cs, `SecureStorage` and `Preferences` are modelled as maps inside in-memory classes; platform storage failures are not modelled.
- The Models files are data declarations only and are used as datatype shapes.
- Concurrent token refreshes are not modelled. The code has no coalescing, and the model adds none.
