/**
 * The server side of the translator web app: the broadcast hub that forwards each published
 * translation to every open viewer socket, and the `/publish` handler with its input rules and
 * the call to the Translator service.
 */
module TranslatorApp {
  import opened Wrappers
  import opened TextRules

  /** A JSON value as FastAPI decodes a request body; numbers are kept as reals. */
  datatype Json =
    | JNull
    | JBool(b: bool)
    | JNum(n: real)
    | JStr(s: string)
    | JArr(items: seq<Json>)
    | JObj(fields: map<string, Json>)

  /** Python truthiness of a decoded value: `None`, `False`, zero and empty containers are false. */
  predicate Truthy(j: Json) {
    match j
    case JNull => false
    case JBool(b) => b
    case JNum(n) => n != 0.0
    case JStr(s) => s != ""
    case JArr(items) => items != []
    case JObj(fields) => fields != map[]
  }

  /** `payload.get(key)` is present and true. */
  predicate Given(payload: map<string, Json>, key: string) {
    key in payload && Truthy(payload[key])
  }

  /** `payload.get(key) or fallback`. */
  function GetOr(payload: map<string, Json>, key: string, fallback: Json): (r: Json)
    ensures Truthy(fallback) ==> Truthy(r)
    ensures r == fallback || (key in payload && r == payload[key])
  {
    if Given(payload, key) then payload[key] else fallback
  }

  /** What a handler answers: a status code and a JSON or plain-text body. */
  datatype Body = JsonBody(json: Json) | TextBody(text: string)
  datatype Response = Response(status: nat, body: Body)

  /** The 400 answer to a publish request without text. */
  const EmptyText: Response := Response(400, JsonBody(JObj(map["error" := JStr("empty text")])))

  /** The answer the server gives when the handler raises. */
  const InternalError: Response := Response(500, TextBody("Internal Server Error"))

  /** The 200 answer to a publish request that was translated and broadcast. */
  const Published: Response := Response(200, JsonBody(JObj(map["ok" := JBool(true)])))

  /** A publish request after its input rules: the stripped text and the two language codes. */
  datatype PublishRequest = PublishRequest(text: string, langFrom: Json, langTo: Json)

  /**
   * The input rules of `publish`: the text, when missing or false, is the empty string, and a text
   * that is present but not a string makes `.strip()` raise; whitespace-only text is refused with
   * 400; the languages default to `"en"` and `"ko"` when missing or false.
   */
  function ParsePublish(payload: map<string, Json>): (r: Result<PublishRequest, Response>)
    ensures !Given(payload, "text") ==> r == Err(EmptyText)
    ensures Given(payload, "text") && !payload["text"].JStr? ==> r == Err(InternalError)
    ensures Given(payload, "text") && payload["text"].JStr? ==>
      && (r.Err? <==> AllSpace(payload["text"].s))
      && (r.Err? ==> r == Err(EmptyText))
      && (r.Ok? ==> r.value.text == Strip(payload["text"].s))
    ensures r.Ok? ==> r.value.text != "" && Trimmed(r.value.text)
    ensures r.Ok? ==> r.value.langFrom == (if Given(payload, "from") then payload["from"] else JStr("en"))
    ensures r.Ok? ==> r.value.langTo == (if Given(payload, "to") then payload["to"] else JStr("ko"))
  {
    var raw := GetOr(payload, "text", JStr(""));
    if !raw.JStr? then Err(InternalError)
    else
      var text := Strip(raw.s);
      if text == "" then Err(EmptyText)
      else Ok(PublishRequest(text, GetOr(payload, "from", JStr("en")), GetOr(payload, "to", JStr("ko"))))
  }

  /**
   * Text that is not all whitespace is published stripped, and a request that names no language
   * is translated from `"en"` to `"ko"`.
   */
  lemma PublishStripsAndDefaults(s: string)
    requires !AllSpace(s)
    ensures ParsePublish(map["text" := JStr(s)]) == Ok(PublishRequest(Strip(s), JStr("en"), JStr("ko")))
  {
    var m := map["text" := JStr(s)];
    assert "from" !in m && "to" !in m;
  }

  /** Whitespace-only text is refused with 400, whatever else the request holds. */
  lemma PublishRefusesBlank(payload: map<string, Json>, s: string)
    requires AllSpace(s)
    ensures ParsePublish(payload["text" := JStr(s)]) == Err(EmptyText)
  {
  }

  /** The number 0 is false, so it counts as missing text; another number makes `.strip()` raise. */
  lemma PublishNumbers()
    ensures ParsePublish(map["text" := JNum(0.0)]) == Err(EmptyText)
    ensures ParsePublish(map["text" := JNum(5.0)]) == Err(InternalError)
  {
  }

  /** The Translator settings read from the environment; the endpoint has a default. */
  datatype TranslatorConfig = TranslatorConfig(key: Option<string>, region: Option<string>, endpoint: string)

  const DefaultEndpoint: string := "https://api.cognitive.microsofttranslator.com"

  /** `os.getenv` of the three settings: the default endpoint only when the variable is unset. */
  function ConfigFromEnv(env: map<string, string>): (c: TranslatorConfig)
    ensures Configured(c) <==>
      && "TRANSLATOR_KEY" in env && env["TRANSLATOR_KEY"] != ""
      && "TRANSLATOR_REGION" in env && env["TRANSLATOR_REGION"] != ""
    ensures "TRANSLATOR_ENDPOINT" !in env ==> c.endpoint == DefaultEndpoint
  {
    TranslatorConfig(
      if "TRANSLATOR_KEY" in env then Some(env["TRANSLATOR_KEY"]) else None,
      if "TRANSLATOR_REGION" in env then Some(env["TRANSLATOR_REGION"]) else None,
      if "TRANSLATOR_ENDPOINT" in env then env["TRANSLATOR_ENDPOINT"] else DefaultEndpoint)
  }

  /** Both the key and the region are set and not empty. */
  predicate Configured(c: TranslatorConfig) {
    c.key.Some? && c.key.value != "" && c.region.Some? && c.region.value != ""
  }

  /** The HTTP request `translate_text` posts to the Translator service. */
  datatype TranslateRequest = TranslateRequest(
    url: string, params: map<string, Json>, headers: map<string, string>, payload: Json)

  /** The query parameters: API version 3.0, the target language, and the source language only when it is true. */
  function TranslateParams(langFrom: Json, langTo: Json): (p: map<string, Json>)
    ensures p.Keys == if Truthy(langFrom) then {"api-version", "to", "from"} else {"api-version", "to"}
    ensures p["api-version"] == JStr("3.0") && p["to"] == langTo
    ensures "from" in p ==> p["from"] == langFrom
  {
    var p := map["api-version" := JStr("3.0"), "to" := langTo];
    if Truthy(langFrom) then p["from" := langFrom] else p
  }

  function TranslateCall(c: TranslatorConfig, text: string, langFrom: Json, langTo: Json): TranslateRequest
    requires Configured(c)
  {
    TranslateRequest(
      c.endpoint + "/translate",
      TranslateParams(langFrom, langTo),
      map["Ocp-Apim-Subscription-Key" := c.key.value,
          "Ocp-Apim-Subscription-Region" := c.region.value,
          "Content-Type" := "application/json"],
      JArr([JObj(map["Text" := JStr(text)])]))
  }

  /**
   * `data[0]["translations"][0]["text"]` on the decoded answer; `None` where Python raises. Indexing a
   * string could succeed at the first or third step, but the next step then indexes a string with a
   * string and raises, so every path through a string ends in `None`.
   */
  function Translation(data: Json): Option<Json> {
    if !data.JArr? || data.items == [] then None
    else
      var first := data.items[0];
      if !first.JObj? || "translations" !in first.fields then None
      else
        var list := first.fields["translations"];
        if !list.JArr? || list.items == [] then None
        else
          var entry := list.items[0];
          if !entry.JObj? || "text" !in entry.fields then None
          else Some(entry.fields["text"])
  }

  /**
   * `translate_text`: the text itself when the service is not configured; otherwise the translation
   * in the service's answer, `None` when the call or the answer's shape raises. `service` is the
   * HTTP round trip: the decoded answer, or `None` for an error status or a failed connection.
   */
  function TranslateText(text: string, langFrom: Json, langTo: Json, c: TranslatorConfig,
                         service: TranslateRequest -> Option<Json>): (r: Option<Json>)
    ensures !Configured(c) ==> r == Some(JStr(text))
  {
    if !Configured(c) then Some(JStr(text))
    else
      var answer := service(TranslateCall(c, text, langFrom, langTo));
      if answer.None? then None else Translation(answer.value)
  }

  /** The answer the Translator service documents: `[{"translations": [{"text": t, ...}, ...], ...}, ...]`. */
  predicate Answers(answer: Json, t: Json) {
    && answer.JArr? && answer.items != []
    && answer.items[0].JObj? && "translations" in answer.items[0].fields
    && var list := answer.items[0].fields["translations"];
       list.JArr? && list.items != [] && list.items[0].JObj? && "text" in list.items[0].fields
       && list.items[0].fields["text"] == t
  }

  /** A configured service that answers with a translation `t` makes `translate_text` return `t`. */
  lemma TranslateAnswered(text: string, langFrom: Json, langTo: Json, c: TranslatorConfig,
                          service: TranslateRequest -> Option<Json>, t: Json)
    requires Configured(c)
    requires service(TranslateCall(c, text, langFrom, langTo)).Some?
    requires Answers(service(TranslateCall(c, text, langFrom, langTo)).value, t)
    ensures TranslateText(text, langFrom, langTo, c, service) == Some(t)
  {
  }

  /** The smallest documented answer, one translation of one text, gives that translation. */
  lemma TranslateOneAnswer(text: string, langFrom: Json, langTo: Json, c: TranslatorConfig,
                           service: TranslateRequest -> Option<Json>, t: Json)
    requires Configured(c)
    requires service(TranslateCall(c, text, langFrom, langTo))
          == Some(JArr([JObj(map["translations" := JArr([JObj(map["text" := t])])])]))
    ensures TranslateText(text, langFrom, langTo, c, service) == Some(t)
  {
    TranslateAnswered(text, langFrom, langTo, c, service, t);
  }

  /**
   * A configured `translate_text` raises exactly when the call fails or the answer has no
   * translation where it is read.
   */
  lemma TranslateRaises(text: string, langFrom: Json, langTo: Json, c: TranslatorConfig,
                        service: TranslateRequest -> Option<Json>)
    requires Configured(c)
    ensures var answer := service(TranslateCall(c, text, langFrom, langTo));
      TranslateText(text, langFrom, langTo, c, service).None? <==>
        answer.None? || !exists t :: Answers(answer.value, t)
  {
    var answer := service(TranslateCall(c, text, langFrom, langTo));
    if answer.Some? {
      var r := TranslateText(text, langFrom, langTo, c, service);
      if r.Some? {
        assert Answers(answer.value, r.value);
      }
    }
  }

  /** An answer whose `translations` list is empty raises. */
  lemma TranslateNoTranslations(text: string, langFrom: Json, langTo: Json, c: TranslatorConfig,
                                service: TranslateRequest -> Option<Json>)
    requires Configured(c)
    requires service(TranslateCall(c, text, langFrom, langTo)) == Some(JArr([JObj(map["translations" := JArr([])])]))
    ensures TranslateText(text, langFrom, langTo, c, service).None?
  {
  }

  /**
   * `publish` always passes a true source language, so a configured call always names it
   * (`params["from"]`), defaulting to `"en"`.
   */
  lemma PublishSendsFrom(payload: map<string, Json>, c: TranslatorConfig)
    requires ParsePublish(payload).Ok? && Configured(c)
    ensures var req := ParsePublish(payload).value;
      && Truthy(req.langFrom) && Truthy(req.langTo)
      && "from" in TranslateCall(c, req.text, req.langFrom, req.langTo).params
  {
  }

  /** The request a configured service receives names the source language exactly when it is true. */
  lemma TranslateCallParams(c: TranslatorConfig, text: string, langFrom: Json, langTo: Json)
    requires Configured(c)
    ensures var q := TranslateCall(c, text, langFrom, langTo);
      && q.url == c.endpoint + "/translate"
      && q.params["to"] == langTo && q.params["api-version"] == JStr("3.0")
      && ("from" in q.params <==> Truthy(langFrom))
      && ("from" in q.params ==> q.params["from"] == langFrom)
      && q.payload == JArr([JObj(map["Text" := JStr(text)])])
  {
    var p := TranslateParams(langFrom, langTo);
    assert "from" in p <==> Truthy(langFrom);
  }

  /** The message broadcast for a published text: the stripped transcript and its translation. */
  function BroadcastBody(transcript: string, translation: Json): Json {
    JObj(map["transcript" := JStr(transcript), "translation" := translation])
  }

  /** A viewer's socket: whether it was accepted, and the messages it received, in order. */
  class WebSocket {
    var accepted: bool
    var received: seq<string>

    constructor ()
      ensures !accepted && received == []
    {
      accepted := false;
      received := [];
    }

    /** `accept`: the handshake completes when `ok`; otherwise it raises. */
    method Accept(ok: bool) returns (done: bool)
      modifies this
      ensures done == ok
      ensures accepted == (old(accepted) || ok) && received == old(received)
    {
      done := ok;
      if ok {
        accepted := true;
      }
    }

    /** `send_text`: the message arrives when `ok`; otherwise the send raises. */
    method SendText(text: string, ok: bool) returns (sent: bool)
      modifies this
      ensures sent == ok
      ensures received == if ok then old(received) + [text] else old(received)
      ensures accepted == old(accepted)
    {
      sent := ok;
      if ok {
        received := received + [text];
      }
    }
  }

  /** The sockets of `sockets` a send to which raises. */
  function FailedSends(sockets: set<WebSocket>, delivers: WebSocket -> bool): (dead: set<WebSocket>)
    ensures dead <= sockets
    ensures forall w | w in sockets :: w in dead <==> !delivers(w)
  {
    set w | w in sockets && !delivers(w)
  }

  /** `ConnectionManager`: the set of sockets currently watching the stream. */
  class ConnectionManager {
    var active: set<WebSocket>

    constructor ()
      ensures active == {}
    {
      active := {};
    }

    /**
     * `connect`: accepts the socket and adds it; when the handshake raises (`ok` false) the
     * exception propagates and the socket is not added.
     */
    method Connect(ws: WebSocket, ok: bool) returns (added: bool)
      modifies this, ws
      ensures added == ok
      ensures active == if ok then old(active) + {ws} else old(active)
      ensures ws.accepted == (old(ws.accepted) || ok) && ws.received == old(ws.received)
    {
      added := ws.Accept(ok);
      if added {
        active := active + {ws};
      }
    }

    /** `disconnect`: removes the socket; a socket that is not there is no error. */
    method Disconnect(ws: WebSocket)
      modifies this
      ensures active == old(active) - {ws}
    {
      active := active - {ws};
    }

    /**
     * `broadcast`: one send to every socket active when it starts, in some order; then exactly the
     * sockets whose send raised are disconnected. `delivers(ws)` says whether the send to `ws`
     * goes through.
     */
    method Broadcast(text: string, delivers: WebSocket -> bool)
      modifies this, active
      ensures active == old(active) - FailedSends(old(active), delivers)
      ensures forall w | w in old(active) ::
        w.received == (if delivers(w) then old(w.received) + [text] else old(w.received))
      ensures forall w | w in old(active) :: w.accepted == old(w.accepted)
    {
      var dead := SendToEach(text, delivers);
      DisconnectAll(dead);
      assert forall w :: w in active <==> w in old(active) - FailedSends(old(active), delivers);
    }

    /** The first loop of `broadcast`: sends to every active socket and lists those whose send raised. */
    method SendToEach(text: string, delivers: WebSocket -> bool) returns (dead: seq<WebSocket>)
      modifies active
      ensures forall w | w in dead :: w in active && !delivers(w)
      ensures forall w | w in active && !delivers(w) :: w in dead
      ensures forall w | w in active ::
        w.received == (if delivers(w) then old(w.received) + [text] else old(w.received))
      ensures forall w | w in active :: w.accepted == old(w.accepted)
    {
      var remaining := active;
      dead := [];
      while remaining != {}
        invariant remaining <= active
        invariant forall w | w in dead :: w in active && w !in remaining && !delivers(w)
        invariant forall w | w in active && w !in remaining && !delivers(w) :: w in dead
        invariant forall w | w in active && w !in remaining ::
          w.received == (if delivers(w) then old(w.received) + [text] else old(w.received))
        invariant forall w | w in remaining :: w.received == old(w.received)
        invariant forall w | w in active :: w.accepted == old(w.accepted)
        decreases |remaining|
      {
        var ws :| ws in remaining;
        var ok := ws.SendText(text, delivers(ws));
        if !ok {
          dead := dead + [ws];
        }
        remaining := remaining - {ws};
      }
    }

    /** The second loop of `broadcast`: disconnects each listed socket. */
    method DisconnectAll(dead: seq<WebSocket>)
      modifies this
      ensures forall w :: w in active <==> w in old(active) && w !in dead
    {
      var i := 0;
      while i < |dead|
        invariant 0 <= i <= |dead|
        invariant forall w :: w in active <==> w in old(active) && w !in dead[..i]
      {
        assert dead[..i + 1] == dead[..i] + [dead[i]];
        Disconnect(dead[i]);
        i := i + 1;
      }
      assert dead[..i] == dead;
    }
  }

  /**
   * `publish`: refuses a request its input rules refuse, doing nothing else; otherwise translates
   * the text, answers 500 when that raises, and broadcasts the transcript and the translation,
   * serialised by `dumps`, to the viewers of `manager`.
   */
  method Publish(manager: ConnectionManager, payload: map<string, Json>, c: TranslatorConfig,
                 service: TranslateRequest -> Option<Json>, dumps: Json -> string, delivers: WebSocket -> bool)
    returns (resp: Response)
    modifies manager, manager.active
    ensures ParsePublish(payload).Err? ==> resp == ParsePublish(payload).error
    ensures ParsePublish(payload).Ok? ==>
      var req := ParsePublish(payload).value;
      var translated := TranslateText(req.text, req.langFrom, req.langTo, c, service);
      resp == if translated.None? then InternalError else Published
    ensures Broadcasted(payload, c, service) ==>
      var req := ParsePublish(payload).value;
      var message := dumps(BroadcastBody(req.text, TranslateText(req.text, req.langFrom, req.langTo, c, service).value));
      && manager.active == old(manager.active) - FailedSends(old(manager.active), delivers)
      && forall w | w in old(manager.active) ::
           w.received == (if delivers(w) then old(w.received) + [message] else old(w.received))
    ensures !Broadcasted(payload, c, service) ==>
      && manager.active == old(manager.active)
      && forall w | w in old(manager.active) :: w.received == old(w.received)
  {
    var parsed := ParsePublish(payload);
    if parsed.Err? {
      return parsed.error;
    }
    var req := parsed.value;
    var translated := TranslateText(req.text, req.langFrom, req.langTo, c, service);
    if translated.None? {
      return InternalError;
    }
    manager.Broadcast(dumps(BroadcastBody(req.text, translated.value)), delivers);
    resp := Published;
  }

  /** Whether the request gets as far as the broadcast: it passes the input rules and the translation does not raise. */
  ghost predicate Broadcasted(payload: map<string, Json>, c: TranslatorConfig, service: TranslateRequest -> Option<Json>) {
    ParsePublish(payload).Ok? &&
    TranslateText(ParsePublish(payload).value.text, ParsePublish(payload).value.langFrom,
                  ParsePublish(payload).value.langTo, c, service).Some?
  }

  /** With the service not configured, the viewers receive the text itself as its translation. */
  lemma EchoWhenNotConfigured(payload: map<string, Json>, c: TranslatorConfig, service: TranslateRequest -> Option<Json>)
    requires !Configured(c) && ParsePublish(payload).Ok?
    ensures var req := ParsePublish(payload).value;
      var translated := TranslateText(req.text, req.langFrom, req.langTo, c, service);
      && translated == Some(JStr(req.text))
      && BroadcastBody(req.text, translated.value)
         == JObj(map["transcript" := JStr(req.text), "translation" := JStr(req.text)])
  {
  }
}
