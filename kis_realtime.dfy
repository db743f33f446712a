/** `KisRealtimeService`: the streaming connection to the brokerage. The frame decoder is a
    total function from a received text frame to the text handed to listeners; the subscribe
    frame is a fixed JSON record; connecting, subscribing and disconnecting are guarded state
    changes of the socket. The transport is a parameter: `dial` says whether the server
    accepts a connection to a URL, and JSON parsing is a function from text to a document
    (`None` where `JsonDocument.Parse` throws). */
module KisRealtime {
  import opened Wrappers
  import opened Text
  import opened Json
  import opened Models
  import opened Http
  import opened KisAuth

  // ---------------------------------------------------------------------------------------
  // The frame decoder

  /** What every failure inside the decoder turns into. */
  const Sentinel: string := "데이터 해석 오류"
  const PingReply: string := "PING"
  const ConnectedMessage: string := "✅ 실시간 연결 성공"
  const SubscribeFailedPrefix: string := "❌ 구독 실패: "

  /** The JSON branch on a parsed document: `Some(text)` is what the decoder returns, `None`
      means the frame carries no `body` and falls through to the tick branch, and a failure
      is an accessor's exception. `header.tr_id` is read before `body` is looked at, and
      `msg1` is read whatever `rt_cd` says. */
  function ControlFrame(root: Json): Result<Option<string>, AccessError>
  {
    var header :- GetProperty(root, "header");
    var trIdNode :- GetProperty(header, "tr_id");
    var trId :- GetString(trIdNode);
    if trId == Some("PINGPONG") then Success(Some(PingReply))
    else
      var body :- TryGetProperty(root, "body");
      if body.None? then Success(None)
      else
        var rtCdNode :- GetProperty(body.value, "rt_cd");
        var rtCd :- GetString(rtCdNode);
        var msgNode :- GetProperty(body.value, "msg1");
        var msg :- GetString(msgNode);
        Success(Some(if rtCd == Some("0") then ConnectedMessage else SubscribeFailedPrefix + msg.GetOr("")))
  }

  /** The tick branch: the third `^`-field of the fourth `|`-part, or the frame unchanged. */
  function TickPrice(message: string): string
  {
    var parts := Split(message, '|');
    if |parts| >= 4 then
      var values := Split(parts[3], '^');
      if |values| > 2 then values[2] else message
    else message
  }

  /** `ParsePriceFromRawData(message)`. The decoder has no failure of its own: every frame
      decodes to the frame itself, to one of the fixed replies, to a failure text, or to a tick
      field, which contains neither separator and comes from a frame with at least three '|'. */
  function ParsePriceFromRawData(parse: string -> Option<Json>, message: string): (r: string)
    ensures r == message || r == Sentinel || r == PingReply || r == ConnectedMessage
            || HasPrefix(SubscribeFailedPrefix, r)
            || ('|' !in r && '^' !in r && Occurrences(message, '|') >= 3)
  {
    TickPriceOutcomes(message);
    if StartsWith(message, '{') then
      match parse(message)
      case None => Sentinel
      case Some(root) =>
        ControlFrameReplies(root);
        (match ControlFrame(root)
         case Failure(_) => Sentinel
         case Success(Some(reply)) => reply
         case Success(None) => TickPrice(message))
    else TickPrice(message)
  }

  predicate HasPrefix(prefix: string, s: string)
  {
    |prefix| <= |s| && s[..|prefix|] == prefix
  }

  /** A keepalive: a JSON frame whose `header.tr_id` is "PINGPONG" decodes to "PING", whatever
      else it holds. */
  lemma PingFrame(parse: string -> Option<Json>, message: string, root: Json)
    requires StartsWith(message, '{') && parse(message) == Some(root)
    requires At(root, ["header", "tr_id"]) == Some(JString("PINGPONG"))
    ensures ParsePriceFromRawData(parse, message) == PingReply
  {
    var header := GetProperty(root, "header").value;
    assert At(header, ["tr_id"]) == At(root, ["header", "tr_id"]);
  }

  /** A subscribe result: a JSON frame whose `header.tr_id` is some other string (or null) and
      whose `body` carries `rt_cd` and `msg1` as strings (or nulls) decodes to the success text
      exactly when `rt_cd` is "0", and otherwise to the failure prefix followed by `msg1`
      (null reads as ""). */
  lemma SubscribeResult(parse: string -> Option<Json>, message: string, root: Json, trId: Option<string>,
                        body: Json, rtCd: Option<string>, msg: Option<string>)
    requires StartsWith(message, '{') && parse(message) == Some(root)
    requires At(root, ["header", "tr_id"]).Some? && GetString(At(root, ["header", "tr_id"]).value) == Success(trId)
    requires trId != Some("PINGPONG")
    requires At(root, ["body"]) == Some(body)
    requires At(body, ["rt_cd"]).Some? && GetString(At(body, ["rt_cd"]).value) == Success(rtCd)
    requires At(body, ["msg1"]).Some? && GetString(At(body, ["msg1"]).value) == Success(msg)
    ensures ParsePriceFromRawData(parse, message) == ConnectedMessage <==> rtCd == Some("0")
    ensures rtCd != Some("0") ==> ParsePriceFromRawData(parse, message) == SubscribeFailedPrefix + msg.GetOr("")
  {
    var header := GetProperty(root, "header").value;
    assert At(header, ["tr_id"]) == At(root, ["header", "tr_id"]);
    assert TryGetProperty(root, "body") == Success(Some(body));
    assert (SubscribeFailedPrefix + msg.GetOr(""))[0] != ConnectedMessage[0];
  }

  /** Text starting with '{' that does not parse decodes to the sentinel. */
  lemma UnparsableFrame(parse: string -> Option<Json>, message: string)
    requires StartsWith(message, '{') && parse(message) == None
    ensures ParsePriceFromRawData(parse, message) == Sentinel
  {
  }

  /** A JSON frame without `header.tr_id`, or whose `tr_id` is neither a string nor null,
      decodes to the sentinel. */
  lemma FrameWithoutTrId(parse: string -> Option<Json>, message: string, root: Json)
    requires StartsWith(message, '{') && parse(message) == Some(root)
    requires At(root, ["header", "tr_id"]).None? || GetString(At(root, ["header", "tr_id"]).value).Failure?
    ensures ParsePriceFromRawData(parse, message) == Sentinel
  {
    match GetProperty(root, "header")
    case Failure(_) =>
    case Success(header) =>
      assert At(header, ["tr_id"]) == At(root, ["header", "tr_id"]);
  }

  /** A subscribe result whose body lacks `rt_cd` or `msg1` decodes to the sentinel, even when
      `rt_cd` is "0". */
  lemma BodyMissingField(parse: string -> Option<Json>, message: string, root: Json, body: Json)
    requires StartsWith(message, '{') && parse(message) == Some(root)
    requires At(root, ["header", "tr_id"]).Some? && GetString(At(root, ["header", "tr_id"]).value).Success?
    requires GetString(At(root, ["header", "tr_id"]).value) != Success(Some("PINGPONG"))
    requires At(root, ["body"]) == Some(body)
    requires At(body, ["rt_cd"]).None? || At(body, ["msg1"]).None?
    ensures ParsePriceFromRawData(parse, message) == Sentinel
  {
    var header := GetProperty(root, "header").value;
    assert At(header, ["tr_id"]) == At(root, ["header", "tr_id"]);
    assert TryGetProperty(root, "body") == Success(Some(body));
    assert At(body, ["rt_cd"]).None? <==> GetProperty(body, "rt_cd").Failure?;
    assert At(body, ["msg1"]).None? <==> GetProperty(body, "msg1").Failure?;
  }

  /** Because the header is read first, a frame holding only a successful body, such as
      `{"body":{"rt_cd":"0"}}`, decodes to the sentinel and not to the success text. */
  lemma BodyOnlyFrame(parse: string -> Option<Json>, message: string)
    requires StartsWith(message, '{')
    requires parse(message) == Some(JObject([("body", JObject([("rt_cd", JString("0"))]))]))
    ensures ParsePriceFromRawData(parse, message) == Sentinel
  {
    assert "body" != "header";
  }

  /** A JSON frame with a non-keepalive header and no body falls through to the tick branch. */
  lemma HeaderOnlyFrame(parse: string -> Option<Json>, message: string, root: Json)
    requires StartsWith(message, '{') && parse(message) == Some(root)
    requires At(root, ["header", "tr_id"]).Some? && GetString(At(root, ["header", "tr_id"]).value).Success?
    requires GetString(At(root, ["header", "tr_id"]).value) != Success(Some("PINGPONG"))
    requires At(root, ["body"]).None?
    ensures ParsePriceFromRawData(parse, message) == TickPrice(message)
  {
    var header := GetProperty(root, "header").value;
    assert At(header, ["tr_id"]) == At(root, ["header", "tr_id"]);
    assert TryGetProperty(root, "body") == Success(None);
  }

  /** A tick frame: '|'-separated parts, at least four, the fourth made of at least three
      '^'-separated fields, decodes to the third field. */
  lemma {:induction false} TickFrame(parts: seq<string>, fields: seq<string>)
    requires |parts| >= 4 && |fields| >= 3
    requires forall i :: 0 <= i < |parts| ==> '|' !in parts[i]
    requires forall i :: 0 <= i < |fields| ==> '^' !in fields[i]
    requires parts[3] == Join(fields, '^')
    ensures TickPrice(Join(parts, '|')) == fields[2]
  {
    SplitJoin(parts, '|');
    SplitJoin(fields, '^');
  }

  /** With fewer than four '|'-parts, or a fourth part of fewer than three '^'-fields, the tick
      branch hands the frame back unchanged. */
  lemma NotATick(message: string)
    requires Occurrences(message, '|') < 3 || Occurrences(Split(message, '|')[3], '^') < 2
    ensures TickPrice(message) == message
  {
  }

  /** Text that is not JSON goes to the tick branch only. */
  lemma PlainFrame(parse: string -> Option<Json>, message: string)
    requires !StartsWith(message, '{')
    ensures ParsePriceFromRawData(parse, message) == TickPrice(message)
  {
  }

  lemma {:induction false} SplitThree(a: string, b: string, c: string, sep: char)
    requires sep !in a && sep !in b && sep !in c
    ensures Split(a + [sep] + b + [sep] + c, sep) == [a, b, c]
  {
    assert a + [sep] + b + [sep] + c == a + [sep] + (b + [sep] + c);
    SplitAtSeparator(a, b + [sep] + c, sep);
    SplitAtSeparator(b, c, sep);
    SplitWithoutSeparator(a, sep);
    SplitWithoutSeparator(b, sep);
    SplitWithoutSeparator(c, sep);
  }

  lemma {:induction false} SplitFour(a: string, b: string, c: string, d: string, sep: char)
    requires sep !in a && sep !in b && sep !in c && sep !in d
    ensures Split(a + [sep] + b + [sep] + c + [sep] + d, sep) == [a, b, c, d]
  {
    assert a + [sep] + b + [sep] + c + [sep] + d == a + [sep] + (b + [sep] + c + [sep] + d);
    SplitAtSeparator(a, b + [sep] + c + [sep] + d, sep);
    SplitWithoutSeparator(a, sep);
    SplitThree(b, c, d, sep);
  }

  /** Example: how the sample tick frame splits on '|'. */
  lemma TickPartsExample()
    ensures Split("a|b|c|H^H^123.45", '|') == ["a", "b", "c", "H^H^123.45"]
  {
    assert "a|b|c|H^H^123.45" == "a" + ['|'] + "b" + ['|'] + "c" + ['|'] + "H^H^123.45";
    assert '|' !in "H^H^123.45";
    SplitFour("a", "b", "c", "H^H^123.45", '|');
  }

  /** Example: how the sample tick field splits on '^'. */
  lemma TickFieldsExample()
    ensures Split("H^H^123.45", '^') == ["H", "H", "123.45"]
  {
    assert "H^H^123.45" == "H" + ['^'] + "H" + ['^'] + "123.45";
    assert '^' !in "123.45";
    SplitThree("H", "H", "123.45", '^');
  }

  /** Example, one instance of TickFrame: "a|b|c|H^H^123.45" decodes to "123.45". */
  lemma TickExample(parse: string -> Option<Json>)
    ensures ParsePriceFromRawData(parse, "a|b|c|H^H^123.45") == "123.45"
  {
    TickPartsExample();
    TickFieldsExample();
    assert !StartsWith("a|b|c|H^H^123.45", '{');
  }

  /** The JSON branch answers with a fixed reply or a failure text. */
  lemma ControlFrameReplies(root: Json)
    ensures var c := ControlFrame(root);
      c.Success? && c.value.Some? ==>
        c.value.value == PingReply || c.value.value == ConnectedMessage
        || HasPrefix(SubscribeFailedPrefix, c.value.value)
  {
    var c := ControlFrame(root);
    if c.Success? && c.value.Some? && c.value.value != PingReply && c.value.value != ConnectedMessage {
      var msg :| c.value.value == SubscribeFailedPrefix + msg;
      assert (SubscribeFailedPrefix + msg)[..|SubscribeFailedPrefix|] == SubscribeFailedPrefix;
    }
  }

  /** The tick branch answers with the frame itself or with a field free of both separators. */
  lemma TickPriceOutcomes(message: string)
    ensures var r := TickPrice(message);
      r == message || ('|' !in r && '^' !in r && Occurrences(message, '|') >= 3)
  {
    var parts := Split(message, '|');
    if |parts| >= 4 {
      SplitKeepsAbsent(parts[3], '^', '|');
    }
  }

  // ---------------------------------------------------------------------------------------
  // The subscribe frame

  const TradeTrId: string := "H0STCNT0"

  /** The `header` of the subscribe request: register (`tr_type` "1") with the key. */
  function SubscribeHeader(approvalKey: string): Json
  {
    JObject([("approval_key", JString(approvalKey)), ("custtype", JString("P")),
             ("tr_type", JString("1")), ("content_type", JString("utf-8"))])
  }

  /** The `body.input` of the subscribe request: the trade channel of one stock. */
  function SubscribeInput(stockCode: string): Json
  {
    JObject([("tr_id", JString(TradeTrId)), ("tr_key", JString(stockCode))])
  }

  /** The subscribe request, member names and order as declared (the serializer applies no
      naming policy). */
  function SubscribeFrame(approvalKey: string, stockCode: string): Json
  {
    JObject([("header", SubscribeHeader(approvalKey)), ("body", JObject([("input", SubscribeInput(stockCode))]))])
  }

  lemma SubscribeHeaderFields(approvalKey: string)
    ensures var h := SubscribeHeader(approvalKey);
      Names(h) == ["approval_key", "custtype", "tr_type", "content_type"]
      && GetProperty(h, "approval_key") == Success(JString(approvalKey))
      && GetProperty(h, "custtype") == Success(JString("P"))
      && GetProperty(h, "tr_type") == Success(JString("1"))
      && GetProperty(h, "content_type") == Success(JString("utf-8"))
  {
    var hs := SubscribeHeader(approvalKey).members;
    SubscribeHeaderDistinct(approvalKey);
    LastMemberOfDistinct(hs, 0);
    LastMemberOfDistinct(hs, 1);
    LastMemberOfDistinct(hs, 2);
    LastMemberOfDistinct(hs, 3);
  }

  lemma SubscribeHeaderDistinct(approvalKey: string)
    ensures DistinctNames(SubscribeHeader(approvalKey).members)
  {
    assert "approval_key"[1] != "custtype"[1] && "custtype"[1] != "content_type"[1];
    assert "tr_type"[0] != "content_type"[0] && "approval_key"[0] != "tr_type"[0];
  }

  lemma SubscribeInputFields(stockCode: string)
    ensures var i := SubscribeInput(stockCode);
      Names(i) == ["tr_id", "tr_key"]
      && GetProperty(i, "tr_id") == Success(JString(TradeTrId))
      && GetProperty(i, "tr_key") == Success(JString(stockCode))
  {
    var ms := SubscribeInput(stockCode).members;
    assert "tr_id"[3] != "tr_key"[3];
    assert DistinctNames(ms);
    LastMemberOfDistinct(ms, 0);
    LastMemberOfDistinct(ms, 1);
  }

  /** The frame holds exactly `header{approval_key, custtype, tr_type, content_type}` and
      `body.input{tr_id, tr_key}`, and each part reads back its value. */
  lemma SubscribeFrameFields(approvalKey: string, stockCode: string)
    ensures var f := SubscribeFrame(approvalKey, stockCode);
      Names(f) == ["header", "body"]
      && GetProperty(f, "header") == Success(SubscribeHeader(approvalKey))
      && GetProperty(f, "body") == Success(JObject([("input", SubscribeInput(stockCode))]))
      && Names(JObject([("input", SubscribeInput(stockCode))])) == ["input"]
      && GetProperty(JObject([("input", SubscribeInput(stockCode))]), "input") == Success(SubscribeInput(stockCode))
  {
    var f := SubscribeFrame(approvalKey, stockCode);
    assert "header"[0] != "body"[0];
    assert DistinctNames(f.members);
    LastMemberOfDistinct(f.members, 0);
    LastMemberOfDistinct(f.members, 1);
  }

  // ---------------------------------------------------------------------------------------
  // The connection

  const RealWsUrl: string := "ws://ws-api.koreainvestment.com:9443"
  const VirtualWsUrl: string := "ws://ops.koreainvestment.com:21000"

  /** `WebSocketState`; `Idle` is its `None`, the state of a socket never connected. */
  datatype SocketState = Idle | Connecting | Open | CloseSent | CloseReceived | Closed | Aborted

  /** The streaming address of a mode. */
  function WsUrl(isVirtual: bool): string
  {
    if isVirtual then VirtualWsUrl else RealWsUrl
  }

  lemma WsUrlsDistinct(v: bool, w: bool)
    ensures WsUrl(v) == WsUrl(w) <==> v == w
  {
    assert |VirtualWsUrl| != |RealWsUrl|;
  }

  class KisRealtimeService {
    /** `KisApi:IsVirtual` from the configuration (false when absent); unlike the REST
        services it does not follow the settings service. */
    const configIsVirtual: bool
    const auth: KisAuthService
    /** `_webSocket.State`. */
    var state: SocketState
    /** How many `ClientWebSocket`s have been created, the field initialiser's included. */
    var sockets: nat
    /** `_cts.IsCancellationRequested` for the current token source. */
    var cancelled: bool
    /** The receive loop started by the last successful connect is waiting in `ReceiveAsync`
        on the socket with the current token. */
    var receiving: bool
    /** How many close handshakes (`CloseAsync`) have been started. */
    var closes: nat
    /** The addresses connections were attempted to, in order. */
    var dialled: seq<string>
    /** The frames sent on the socket, in order. */
    var sent: seq<Json>

    constructor(configIsVirtual: bool, auth: KisAuthService)
      ensures this.configIsVirtual == configIsVirtual && this.auth == auth
      ensures state == Idle && sockets == 1 && !cancelled && dialled == [] && sent == []
      ensures !receiving && closes == 0 && Valid()
    {
      this.configIsVirtual := configIsVirtual;
      this.auth := auth;
      state := Idle;
      sockets := 1;
      cancelled := false;
      receiving := false;
      closes := 0;
      dialled := [];
      sent := [];
    }

    /** A receive loop is waiting exactly while the socket is open: every successful connect
        starts one, and nothing else opens a socket. */
    predicate Valid()
      reads this
    {
      receiving <==> state == Open
    }

    /** `ConnectAsync()`: nothing when already open; otherwise a fresh socket and token source
        and one attempt at the mode's address, which leaves the socket open or, rethrowing the
        transport's exception, closed. */
    method Connect(dial: string -> Result<(), Exception>) returns (r: Result<(), Exception>)
      modifies this
      ensures old(state) == Open ==>
        r == Success(()) && state == Open && sockets == old(sockets) && cancelled == old(cancelled)
        && dialled == old(dialled) && receiving == old(receiving)
      ensures old(state) != Open ==>
        sockets == old(sockets) + 1 && !cancelled && dialled == old(dialled) + [WsUrl(configIsVirtual)]
        && r == dial(WsUrl(configIsVirtual))
        && state == (if r.Success? then Open else Closed) && receiving == r.Success?
      ensures sent == old(sent) && closes == old(closes)
      ensures old(Valid()) ==> Valid()
    {
      if state == Open {
        return Success(());
      }
      var wsUrl := if configIsVirtual then VirtualWsUrl else RealWsUrl;
      sockets := sockets + 1;
      state := Idle;
      cancelled := false;
      receiving := false;
      dialled := dialled + [wsUrl];
      r := dial(wsUrl);
      if r.Success? {
        state := Open;
        receiving := true;
      } else {
        state := Closed;
      }
    }

    /** `SubscribeAsync(stockCode)`: connects first unless open, then fetches a fresh approval
        key and sends one subscribe frame carrying it. A failure to connect or to obtain the key
        is rethrown and nothing is sent. */
    method Subscribe(stockCode: string, dial: string -> Result<(), Exception>, approval: Exchange<Json>,
                     structuredText: Json -> string)
      returns (r: Result<(), Exception>)
      modifies this
      ensures old(state) == Open ==>
        dialled == old(dialled) && sockets == old(sockets) && cancelled == old(cancelled) && receiving == old(receiving)
      ensures old(state) != Open ==>
        dialled == old(dialled) + [WsUrl(configIsVirtual)] && sockets == old(sockets) + 1 && !cancelled
        && receiving == dial(WsUrl(configIsVirtual)).Success?
      ensures closes == old(closes)
      ensures old(Valid()) ==> Valid()
      ensures var key := ApprovalOutcome(auth.settings.store.entries, auth.settings.IsVirtual(), approval,
                                         structuredText).result;
        var connected := old(state) == Open || dial(WsUrl(configIsVirtual)).Success?;
        (connected && key.Success? ==>
           r == Success(()) && state == Open && sent == old(sent) + [SubscribeFrame(key.value, stockCode)])
        && (!connected ==> r == dial(WsUrl(configIsVirtual)) && state == Closed && sent == old(sent))
        && (connected && key.Failure? ==> r == Failure(key.error) && state == Open && sent == old(sent))
    {
      if state != Open {
        r := Connect(dial);
        if r.Failure? {
          return;
        }
      }
      var key, _ := auth.GetWebSocketApprovalKey(approval, structuredText);
      if key.Failure? {
        return Failure(key.error);
      }
      sent := sent + [SubscribeFrame(key.value, stockCode)];
      r := Success(());
    }

    /** `DisconnectAsync()`: cancels the token source first, then closes the socket if it is
        still open. Cancelling the token a waiting `ReceiveAsync` was given aborts the socket
        at once, so a socket with its receive loop waiting ends `Aborted` with no close
        handshake; only an open socket with no loop waiting is closed. */
    method Disconnect()
      modifies this
      ensures cancelled && !receiving
      ensures state == (if old(state) != Open then old(state) else if old(receiving) then Aborted else Closed)
      ensures closes == old(closes) + (if old(state) == Open && !old(receiving) then 1 else 0)
      ensures sockets == old(sockets) && dialled == old(dialled) && sent == old(sent)
      ensures old(Valid()) ==> Valid() && closes == old(closes)
    {
      cancelled := true;
      if receiving && state == Open {
        state := Aborted;
      }
      receiving := false;
      if state == Open {
        closes := closes + 1;
        state := Closed;
      }
    }
  }
}
