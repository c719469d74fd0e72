/**
  The webhook endpoints shared by the coordinator server and the auto-responder: the GET
  verification handshake and the POST walk over the notification body. The body is a JSON
  value; a Python operation that would raise on it (`.get` on a non-object, iterating a
  number, `in` on null, ...) makes the walk fail, and the handler answer 500, after keeping
  whatever it had already done.
 */
module Webhook {
  import opened Wrappers
  import opened Text

  datatype Json =
    | JNull
    | JBool(b: bool)
    | JNum(n: int)
    | JStr(s: string)
    | JArr(items: seq<Json>)
    | JObj(fields: map<string, Json>)

  /** An HTTP answer. */
  datatype Response = Response(status: int, text: string)

  // ---------------------------------------------------------------------------
  // Verification handshake
  // ---------------------------------------------------------------------------

  const DefaultVerifyToken := "c1d01-whatsapp-verify"

  /**
    `verify_webhook`: the challenge is echoed iff the mode is "subscribe" and the token is
    the configured one (the default when the variable is unset); anything else is 403.
    An absent challenge gives an empty body.
   */
  function VerifyWebhook(configured: Option<string>, mode: Option<string>, token: Option<string>,
                         challenge: Option<string>): (r: Response)
    ensures r.status == 200 <==> mode == Some("subscribe") && token == Some(configured.GetOr(DefaultVerifyToken))
    ensures r.status == 200 ==> r.text == challenge.GetOr("")
    ensures r.status != 200 ==> r == Response(403, "Forbidden")
  {
    if mode == Some("subscribe") && token == Some(configured.GetOr(DefaultVerifyToken)) then
      Response(200, challenge.GetOr(""))
    else Response(403, "Forbidden")
  }

  /** With no token configured, exactly the default token verifies a subscription. */
  lemma DefaultTokenOnly(token: string, challenge: Option<string>)
    ensures VerifyWebhook(None, Some("subscribe"), Some(token), challenge).status == 200
        <==> token == DefaultVerifyToken
  {
  }

  // ---------------------------------------------------------------------------
  // Python operations on JSON values
  // ---------------------------------------------------------------------------

  /** `j.get(key, default)`; `None` when `j` is not an object (AttributeError). */
  function Get(j: Json, key: string, default: Json): (r: Option<Json>)
    ensures r.Some? <==> j.JObj?
    ensures j.JObj? && key in j.fields ==> r == Some(j.fields[key])
    ensures j.JObj? && key !in j.fields ==> r == Some(default)
  {
    match j
    case JObj(m) => Some(if key in m then m[key] else default)
    case _ => None
  }

  /** `key in j`; `None` when `in` raises (numbers, booleans, null). */
  function HasKey(j: Json, key: string): (r: Option<bool>)
    ensures j.JObj? ==> r == Some(key in j.fields)
    ensures j.JNull? || j.JBool? || j.JNum? ==> r.None?
  {
    match j
    case JObj(m) => Some(key in m)
    case JArr(xs) => Some(JStr(key) in xs)
    case JStr(s) => Some(Contains(s, key))
    case _ => None
  }

  /**
    The elements a `for x in j` loop visits, when every visited element is then asked for
    `.get`: an array's items; an empty object or string (no visit); `None` when iteration
    raises or visits a key or character, on which `.get` raises.
   */
  function Members(j: Json): (r: Option<seq<Json>>)
    ensures j.JArr? ==> r == Some(j.items)
    ensures r.Some? && !j.JArr? ==> r == Some([])
  {
    match j
    case JArr(xs) => Some(xs)
    case JObj(m) => if |m| == 0 then Some([]) else None
    case JStr(s) => if |s| == 0 then Some([]) else None
    case _ => None
  }

  // ---------------------------------------------------------------------------
  // The walk
  // ---------------------------------------------------------------------------

  /** One text message found: the sender (`message.get('from')`) and the text body. */
  datatype Found = Found(from: Json, body: Json)

  /** What the walk did: the messages found in order, and whether it stopped on an exception. */
  datatype Walk = Walk(found: seq<Found>, failed: bool)

  function Then(a: Walk, b: Walk): Walk {
    if a.failed then a else Walk(a.found + b.found, b.failed)
  }

  /** The coordinator server tests `'messages' in value` first; the auto-responder does not. */
  datatype Flavour = Coordinator | AutoResponder

  /** One element of a `messages` list: a text message yields one `Found`, others none. */
  function ReadMessage(m: Json): (r: Walk)
    ensures |r.found| <= 1
  {
    match Get(m, "type", JNull)
    case None => Walk([], true)
    case Some(kind) =>
      var from := Get(m, "from", JNull).value;
      if kind != JStr("text") then Walk([], false)
      else
        match Get(m, "text", JObj(map[]))
        case None => Walk([], true)
        case Some(t) =>
          match Get(t, "body", JStr(""))
          case None => Walk([], true)
          case Some(body) => Walk([Found(from, body)], false)
  }

  function ReadMessages(ms: seq<Json>): Walk {
    if |ms| == 0 then Walk([], false) else Then(ReadMessage(ms[0]), ReadMessages(ms[1..]))
  }

  /** `value.get('messages', [])` iterated. */
  function ReadValueMessages(value: Json): Walk {
    match Get(value, "messages", JArr([]))
    case None => Walk([], true)
    case Some(list) =>
      match Members(list)
      case None => Walk([], true)
      case Some(ms) => ReadMessages(ms)
  }

  /**
    The `value` of a change whose field is "messages". The coordinator reads messages only
    when `'messages' in value`, and otherwise tests `'statuses' in value`, whose branch
    only records outgoing ids.
   */
  function ReadValue(value: Json, flavour: Flavour): Walk {
    match flavour
    case AutoResponder => ReadValueMessages(value)
    case Coordinator =>
      match HasKey(value, "messages")
      case None => Walk([], true)
      case Some(true) => ReadValueMessages(value)
      case Some(false) =>
        if HasKey(value, "statuses").None? then Walk([], true) else Walk([], false)
  }

  function ReadChange(change: Json, flavour: Flavour): Walk {
    match Get(change, "field", JNull)
    case None => Walk([], true)
    case Some(field) =>
      if field != JStr("messages") then Walk([], false)
      else ReadValue(Get(change, "value", JObj(map[])).value, flavour)
  }

  function ReadChanges(cs: seq<Json>, flavour: Flavour): Walk {
    if |cs| == 0 then Walk([], false) else Then(ReadChange(cs[0], flavour), ReadChanges(cs[1..], flavour))
  }

  function ReadEntry(entry: Json, flavour: Flavour): Walk {
    match Get(entry, "changes", JArr([]))
    case None => Walk([], true)
    case Some(list) =>
      match Members(list)
      case None => Walk([], true)
      case Some(cs) => ReadChanges(cs, flavour)
  }

  function ReadEntries(es: seq<Json>, flavour: Flavour): Walk {
    if |es| == 0 then Walk([], false) else Then(ReadEntry(es[0], flavour), ReadEntries(es[1..], flavour))
  }

  const BusinessAccount := "whatsapp_business_account"

  /** The walk of the whole body: only a business-account notification is looked into. */
  function ReadBody(body: Json, flavour: Flavour): (r: Walk)
    ensures body.JObj? && ("object" !in body.fields || body.fields["object"] != JStr(BusinessAccount)) ==>
      r == Walk([], false)
  {
    match HasKey(body, "object")
    case None => Walk([], true)
    case Some(false) => Walk([], false)
    case Some(true) =>
      if !body.JObj? then Walk([], true)   // body['object'] on a list or a string
      else if body.fields["object"] != JStr(BusinessAccount) then Walk([], false)
      else
        match Members(Get(body, "entry", JArr([])).value)
        case None => Walk([], true)
        case Some(es) => ReadEntries(es, flavour)
  }

  /** The handler's outcome: the HTTP answer and the messages acted on before it. */
  datatype Handled = Handled(response: Response, found: seq<Found>)

  /**
    `process_webhook`. `body` is `None` when the request body is not JSON. Each found message
    is queued (coordinator) or answered with the automatic reply (auto-responder); the answer
    is 200 unless an exception stopped the walk, then 500.
   */
  function ProcessWebhook(body: Option<Json>, flavour: Flavour): (r: Handled)
    ensures body.None? ==> r.response.status == 500 && r.found == []
    ensures body.Some? ==> r.found == ReadBody(body.value, flavour).found
    ensures r.response.status == 200 <==> body.Some? && !ReadBody(body.value, flavour).failed
    ensures r.response.status != 200 ==> r.response.status == 500
  {
    match body
    case None => Handled(Response(500, "Error: invalid JSON"), [])
    case Some(b) =>
      var w := ReadBody(b, flavour);
      if w.failed then Handled(Response(500, "Error"), w.found) else Handled(Response(200, "OK"), w.found)
  }

  // ---------------------------------------------------------------------------
  // Reference: well-formed notifications
  // ---------------------------------------------------------------------------

  /** A message as Meta sends it; `body` is `None` when the text object has no body. */
  datatype MessageSpec = MessageSpec(from: string, kind: string, body: Option<string>)
  datatype ChangeSpec = ChangeSpec(field: string, messages: seq<MessageSpec>)
  datatype EntrySpec = EntrySpec(changes: seq<ChangeSpec>)

  function MessageJson(m: MessageSpec): Json {
    var base := map["from" := JStr(m.from), "type" := JStr(m.kind)];
    match m.body
    case Some(b) => JObj(base["text" := JObj(map["body" := JStr(b)])])
    case None => JObj(base["text" := JObj(map[])])
  }

  function MessagesJson(ms: seq<MessageSpec>): (r: seq<Json>)
    ensures |r| == |ms|
  {
    if |ms| == 0 then [] else [MessageJson(ms[0])] + MessagesJson(ms[1..])
  }

  function ChangeJson(c: ChangeSpec): Json {
    JObj(map["field" := JStr(c.field), "value" := JObj(map["messages" := JArr(MessagesJson(c.messages))])])
  }

  function ChangesJson(cs: seq<ChangeSpec>): (r: seq<Json>)
    ensures |r| == |cs|
  {
    if |cs| == 0 then [] else [ChangeJson(cs[0])] + ChangesJson(cs[1..])
  }

  function EntryJson(e: EntrySpec): Json {
    JObj(map["changes" := JArr(ChangesJson(e.changes))])
  }

  function EntriesJson(es: seq<EntrySpec>): (r: seq<Json>)
    ensures |r| == |es|
  {
    if |es| == 0 then [] else [EntryJson(es[0])] + EntriesJson(es[1..])
  }

  function NotificationJson(es: seq<EntrySpec>): Json {
    JObj(map["object" := JStr(BusinessAccount), "entry" := JArr(EntriesJson(es))])
  }

  /** The text messages of a notification, in order, with a missing body read as "". */
  function TextMessages(ms: seq<MessageSpec>): seq<Found> {
    if |ms| == 0 then []
    else
      (if ms[0].kind == "text" then [Found(JStr(ms[0].from), JStr(ms[0].body.GetOr("")))] else [])
      + TextMessages(ms[1..])
  }

  function ChangeTexts(cs: seq<ChangeSpec>): seq<Found> {
    if |cs| == 0 then []
    else (if cs[0].field == "messages" then TextMessages(cs[0].messages) else []) + ChangeTexts(cs[1..])
  }

  function EntryTexts(es: seq<EntrySpec>): seq<Found> {
    if |es| == 0 then [] else ChangeTexts(es[0].changes) + EntryTexts(es[1..])
  }

  lemma MessageRead(m: MessageSpec)
    ensures ReadMessage(MessageJson(m))
         == Walk(if m.kind == "text" then [Found(JStr(m.from), JStr(m.body.GetOr("")))] else [], false)
  {
    var j := MessageJson(m);
    assert "type" in j.fields && j.fields["type"] == JStr(m.kind);
    assert "from" in j.fields && j.fields["from"] == JStr(m.from);
    assert "text" in j.fields;
  }

  lemma {:induction false} MessagesRead(ms: seq<MessageSpec>)
    ensures ReadMessages(MessagesJson(ms)) == Walk(TextMessages(ms), false)
  {
    if |ms| > 0 {
      MessageRead(ms[0]);
      MessagesRead(ms[1..]);
      assert MessagesJson(ms)[0] == MessageJson(ms[0]);
      assert MessagesJson(ms)[1..] == MessagesJson(ms[1..]);
    }
  }

  lemma ChangeRead(c: ChangeSpec, flavour: Flavour)
    ensures ReadChange(ChangeJson(c), flavour)
         == Walk(if c.field == "messages" then TextMessages(c.messages) else [], false)
  {
    var j := ChangeJson(c);
    assert "field" in j.fields && j.fields["field"] == JStr(c.field);
    var value := JObj(map["messages" := JArr(MessagesJson(c.messages))]);
    assert "value" in j.fields && j.fields["value"] == value;
    assert "messages" in value.fields;
    MessagesRead(c.messages);
  }

  lemma {:induction false} ChangesRead(cs: seq<ChangeSpec>, flavour: Flavour)
    ensures ReadChanges(ChangesJson(cs), flavour) == Walk(ChangeTexts(cs), false)
  {
    if |cs| > 0 {
      ChangeRead(cs[0], flavour);
      ChangesRead(cs[1..], flavour);
      assert ChangesJson(cs)[0] == ChangeJson(cs[0]);
      assert ChangesJson(cs)[1..] == ChangesJson(cs[1..]);
    }
  }

  lemma {:induction false} EntriesRead(es: seq<EntrySpec>, flavour: Flavour)
    ensures ReadEntries(EntriesJson(es), flavour) == Walk(EntryTexts(es), false)
  {
    if |es| > 0 {
      var j := EntryJson(es[0]);
      assert "changes" in j.fields && j.fields["changes"] == JArr(ChangesJson(es[0].changes));
      ChangesRead(es[0].changes, flavour);
      EntriesRead(es[1..], flavour);
      assert EntriesJson(es)[0] == j;
      assert EntriesJson(es)[1..] == EntriesJson(es[1..]);
    }
  }

  /**
    A well-formed notification is answered 200, and exactly its text messages are acted on,
    once each and in order, by either server; a text without body counts as "".
   */
  lemma WellFormedNotification(es: seq<EntrySpec>, flavour: Flavour)
    ensures ProcessWebhook(Some(NotificationJson(es)), flavour) == Handled(Response(200, "OK"), EntryTexts(es))
  {
    var j := NotificationJson(es);
    assert "object" in j.fields && j.fields["object"] == JStr(BusinessAccount);
    assert "entry" in j.fields && j.fields["entry"] == JArr(EntriesJson(es));
    EntriesRead(es, flavour);
  }

  /** A notification whose object is another one is acknowledged without being read. */
  lemma OtherObjectIgnored(fields: map<string, Json>, flavour: Flavour)
    requires "object" in fields && fields["object"] != JStr(BusinessAccount)
    ensures ProcessWebhook(Some(JObj(fields)), flavour) == Handled(Response(200, "OK"), [])
  {
  }

  /** A failing walk still keeps what it did before failing: earlier messages stay acted on. */
  lemma {:induction false} FailureKeepsEarlier(ms: seq<Json>, k: nat)
    requires k < |ms| && ReadMessage(ms[k]).failed
    requires forall i :: 0 <= i < k ==> !ReadMessage(ms[i]).failed
    ensures ReadMessages(ms).failed
    ensures ReadMessages(ms).found == ReadMessages(ms[..k]).found
    decreases k
  {
    if k == 0 {
      assert ms[..0] == [];
    } else {
      FailureKeepsEarlier(ms[1..], k - 1);
      assert ms[..k][1..] == ms[1..][..k - 1];
    }
  }
}
