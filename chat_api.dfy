/** The chat client in lib/chat-api.ts: how every call's request is put
    together (bearer token, caller headers, the two message-body shapes) and
    how the backend's `{success, message, data}` envelope is unwrapped. The
    session token, the HTTP status and the parsed body are inputs. */
module ChatApi {
  import opened Wrappers
  import opened Strings
  import opened Records
  import opened Types

  /** A conversation member. */
  datatype Participant = Participant(id: string, name: string, email: string, role: string)

  /** A conversation between participants. */
  datatype Conversation = Conversation(
    id: string, participants: seq<Participant>, lastMessageAt: string, updatedAt: string)

  /** A file stored with a message. */
  datatype Attachment = Attachment(url: string, publicId: string)

  /** A sender or receiver: an id, or the populated participant. */
  datatype Party = PartyId(id: string) | PartyRecord(participant: Participant)

  /** A chat message. */
  datatype Message = Message(
    id: string,
    conversation: string,
    sender: Party,
    receiver: Party,
    text: string,
    attachment: Option<Attachment>,
    createdAt: string,
    readAt: Option<string>)

  /** The backend's reply envelope (`ApiResponse<T>`). */
  datatype Envelope<T> = Envelope(success: bool, message: string, data: T)

  /** What `fetch` resolved with: the status, and the body when it parsed as JSON. */
  datatype HttpResponse<T> = HttpResponse(status: int, json: Option<Envelope<T>>)

  /** Why a call rejected: a non-2xx status, an envelope with `success`
      false, or a body that is not JSON (`res.json()` throws). */
  datatype ApiError = StatusError(status: int) | EnvelopeError(message: string) | BodyNotJson

  /** `res.ok`: the status is in the 2xx range. */
  predicate StatusOk(status: int) {
    200 <= status <= 299
  }

  /** The text of the `Error` a rejected call throws, where the client sets it. */
  function ErrorText(e: ApiError): (r: string)
    requires !e.BodyNotJson?
    ensures e.StatusError? ==> StartsWith(r, "Request failed with status ") && |r| > 27
    ensures e.EnvelopeError? ==> r == e.message
  {
    match e
    case StatusError(s) => "Request failed with status " + IntToString(s)
    case EnvelopeError(m) => m
  }

  /** The checks `apiFetch` applies to a response, in their order: the status
      first, then the JSON parse, then the envelope's `success`. */
  function Unwrap<T>(res: HttpResponse<T>): (r: Result<T, ApiError>)
    ensures !StatusOk(res.status) ==> r == Err(StatusError(res.status))
    ensures r.Err? && r.error.EnvelopeError? ==> r.error.message != []
  {
    if !StatusOk(res.status) then Err(StatusError(res.status))
    else match res.json
      case None => Err(BodyNotJson)
      case Some(env) =>
        if !env.success then Err(EnvelopeError(if env.message != "" then env.message else "Request failed"))
        else Ok(env.data)
  }

  /** A call resolves exactly when the status is ok and the envelope parsed
      and says `success`; it then yields the envelope's `data` unchanged. */
  lemma UnwrapOkIff<T>(res: HttpResponse<T>)
    ensures Unwrap(res).Ok? <==> StatusOk(res.status) && res.json.Some? && res.json.value.success
    ensures Unwrap(res).Ok? ==> Unwrap(res).value == res.json.value.data
  {
  }

  /** An envelope with `success` false on an ok status rejects with its own
      message, or with "Request failed" when that message is empty. */
  lemma UnwrapEnvelopeFailure<T>(status: int, message: string, data: T)
    requires StatusOk(status)
    ensures Unwrap(HttpResponse(status, Some(Envelope(false, message, data)))) ==
      Err(EnvelopeError(if message == "" then "Request failed" else message))
  {
  }

  /** Whatever the body holds, a non-ok status rejects with the status text. */
  lemma UnwrapIgnoresBodyOnBadStatus<T>(status: int, json: Option<Envelope<T>>)
    requires !StatusOk(status)
    ensures Unwrap(HttpResponse(status, json)).Err?
    ensures ErrorText(Unwrap(HttpResponse(status, json)).error) ==
      "Request failed with status " + IntToString(status)
  {
  }

  /** A request body as `fetch` receives it. */
  datatype Body = NoBody | JsonBody(json: Fields) | FormBody(form: FormEntries)

  /** The `init` a chat call hands to `apiFetch`; `verb` (its `method`) is `None` where
      the caller leaves it to `fetch`'s default. */
  datatype Init = Init(verb: Option<string>, headers: Fields, body: Body)

  /** The request `fetch` finally sends. */
  datatype Request = Request(url: string, verb: string, headers: Fields, body: Body, credentials: string)

  /** The session token counts only when truthy: present and non-empty. */
  predicate HasToken(token: Option<string>) {
    token.Some? && token.value != ""
  }

  /** `token ? { Authorization: `Bearer ${token}` } : {}`. */
  function AuthHeader(token: Option<string>): (r: Fields)
    ensures HasToken(token) ==> Lookup(r, "Authorization") == Some("Bearer " + token.value)
    ensures !HasToken(token) ==> r == []
  {
    if HasToken(token) then [("Authorization", "Bearer " + token.value)] else []
  }

  /** `fetch(input, { ...init, headers: {...auth, ...init.headers}, credentials: "include" })`. */
  function FetchRequest(url: string, init: Init, token: Option<string>): (r: Request)
    ensures r.url == url && r.body == init.body && r.credentials == "include"
    ensures r.verb == init.verb.GetOr("GET")
  {
    Request(url, init.verb.GetOr("GET"), Spread(AuthHeader(token), init.headers), init.body, "include")
  }

  /** The bearer header is sent only with a token, and a caller's own
      `Authorization` header wins over it; every other header is the caller's. */
  lemma {:induction false} FetchHeaders(url: string, init: Init, token: Option<string>, k: string)
    requires UniqueKeys(init.headers)
    ensures var h := FetchRequest(url, init, token).headers;
      Lookup(h, k) ==
        if k in Keys(init.headers) then Lookup(init.headers, k)
        else if k == "Authorization" && HasToken(token) then Some("Bearer " + token.value)
        else None
  {
    LookupSpread(AuthHeader(token), init.headers, k);
  }

  /** `${NEXT_PUBLIC_BASE_URL}/chat`. */
  function Base(baseUrl: string): string {
    baseUrl + "/chat"
  }

  /** `URLSearchParams.toString()` on parameters whose names and values need
      no escaping: every pair as `name=value`, with `&` only between pairs. */
  function QueryString(params: Fields): (r: string)
    ensures r == [] <==> params == []
    ensures params != [] ==> StartsWith(r, params[0].0 + "=" + params[0].1)
  {
    if params == [] then ""
    else params[0].0 + "=" + params[0].1 + (if params[1..] == [] then "" else "&" + QueryString(params[1..]))
  }

  /** Two parameters serialise to both pairs, in order, joined by one `&`. */
  lemma QueryStringPair(a: (string, string), b: (string, string))
    ensures QueryString([a, b]) == a.0 + "=" + a.1 + "&" + b.0 + "=" + b.1
  {
    assert [a, b][1..] == [b];
    assert [b][1..] == [];
  }

  /** `listConversations()`: a GET with no headers of its own. */
  function ListConversations(baseUrl: string): (r: (string, Init))
    ensures r.0 == Base(baseUrl) + "/conversations"
    ensures r.1 == Init(None, [], NoBody)
  {
    (Base(baseUrl) + "/conversations", Init(None, [], NoBody))
  }

  /** `getOrCreateConversation(userId)`: a JSON POST carrying only `userId`. */
  function GetOrCreateConversation(baseUrl: string, userId: string): (r: (string, Init))
    ensures r.1.verb == Some("POST")
    ensures Lookup(r.1.headers, "Content-Type") == Some("application/json")
    ensures r.1.body.JsonBody? && Keys(r.1.body.json) == ["userId"]
    ensures Lookup(r.1.body.json, "userId") == Some(userId)
  {
    (Base(baseUrl) + "/conversations",
     Init(Some("POST"), [("Content-Type", "application/json")], JsonBody([("userId", userId)])))
  }

  /** The query of `getMessages`: `page` and `limit`, in that order, with the
      defaults 1 and 50 for arguments left out. */
  function MessagesParams(page: Option<int>, limit: Option<int>): (r: Fields)
    ensures Keys(r) == ["page", "limit"]
    ensures Lookup(r, "page") == Some(IntToString(page.GetOr(1)))
    ensures Lookup(r, "limit") == Some(IntToString(limit.GetOr(50)))
  {
    [("page", IntToString(page.GetOr(1))), ("limit", IntToString(limit.GetOr(50)))]
  }

  /** `getMessages(conversationId, page = 1, limit = 50)`. */
  function GetMessages(baseUrl: string, conversationId: string, page: Option<int>, limit: Option<int>): (r: (string, Init))
    ensures r.0 == SendMessageUrl(baseUrl, conversationId) + "?page=" + IntToString(page.GetOr(1)) +
      "&limit=" + IntToString(limit.GetOr(50))
    ensures r.1 == Init(None, [], NoBody)
  {
    QueryStringPair(("page", IntToString(page.GetOr(1))), ("limit", IntToString(limit.GetOr(50))));
    (Base(baseUrl) + "/messages/" + conversationId + "?" + QueryString(MessagesParams(page, limit)),
     Init(None, [], NoBody))
  }

  /** With no page or limit given, the messages request asks for page 1 of 50. */
  lemma GetMessagesDefaults(baseUrl: string, conversationId: string)
    ensures GetMessages(baseUrl, conversationId, None, None).0 ==
      Base(baseUrl) + "/messages/" + conversationId + "?" + "page=1&limit=50"
  {
    DefaultMessagesParams();
    DefaultQueryString();
  }

  /** The default query reads "page=1&limit=50". */
  lemma DefaultQueryString()
    ensures QueryString([("page", "1"), ("limit", "50")]) == "page=1&limit=50"
  {
    QueryStringPair(("page", "1"), ("limit", "50"));
  }

  /** The query `getMessages` builds when neither page nor limit is given. */
  lemma DefaultMessagesParams()
    ensures MessagesParams(None, None) == [("page", "1"), ("limit", "50")]
  {
    assert IntToString(1) == NatToString(1) == "1";
    assert IntToString(50) == NatToString(5) + [DigitChar(0)] == "50";
  }

  /** A non-negative page number sent as a query value reads back as itself. */
  lemma PageReadsBack(page: nat, limit: Option<int>)
    ensures ParseNat(Lookup(MessagesParams(Some(page), limit), "page").value) == page
  {
    ParseNatString(page);
  }

  /** The fields `sendMessage` takes. */
  datatype SendPayload = SendPayload(text: string, receiverId: string, file: Option<FileRef>)

  /** The body and headers `sendMessage` assembles before calling `apiFetch`:
      a multipart form (receiverId, text, attachment, and no Content-Type so
      the browser sets the boundary) when a file is attached, otherwise a JSON
      body with exactly receiverId and text under an explicit Content-Type. */
  method BuildSendBody(payload: SendPayload) returns (body: Body, headers: Fields)
    ensures body.FormBody? <==> payload.file.Some?
    ensures payload.file.Some? ==>
      headers == [] &&
      body.form == [("receiverId", TextValue(payload.receiverId)),
                    ("text", TextValue(payload.text)),
                    ("attachment", FileValue(payload.file.value))]
    ensures payload.file.None? ==>
      Keys(headers) == ["Content-Type"] &&
      Lookup(headers, "Content-Type") == Some("application/json") &&
      body == JsonBody([("receiverId", payload.receiverId), ("text", payload.text)])
  {
    headers := [];
    if payload.file.Some? {
      var form: FormEntries := [];
      form := form + [("receiverId", TextValue(payload.receiverId))];
      form := form + [("text", TextValue(payload.text))];
      form := form + [("attachment", FileValue(payload.file.value))];
      body := FormBody(form);
    } else {
      headers := Assign(headers, "Content-Type", "application/json");
      body := JsonBody([("receiverId", payload.receiverId), ("text", payload.text)]);
    }
  }

  /** The URL `sendMessage` posts to. */
  function SendMessageUrl(baseUrl: string, conversationId: string): (r: string)
    ensures StartsWith(r, Base(baseUrl) + "/messages/")
    ensures r[|Base(baseUrl) + "/messages/"|..] == conversationId
  {
    Base(baseUrl) + "/messages/" + conversationId
  }

  /** The two reads leave the method to `fetch`'s default, so they go out as
      GETs with only the bearer header, when there is a token, and no body. */
  lemma {:induction false} ReadsAreBareGets(baseUrl: string, conversationId: string, page: Option<int>, limit: Option<int>, token: Option<string>)
    ensures var q := FetchRequest(ListConversations(baseUrl).0, ListConversations(baseUrl).1, token);
      q.verb == "GET" && q.headers == AuthHeader(token) && q.body == NoBody
    ensures var m := GetMessages(baseUrl, conversationId, page, limit);
      var q := FetchRequest(m.0, m.1, token);
      q.verb == "GET" && q.headers == AuthHeader(token) && q.body == NoBody
  {
    SpreadEmpty(AuthHeader(token));
  }

  /** `return data[0]`: the first message of the returned array, which is
      `undefined` (here `None`) when the array is empty; a rejection passes through. */
  function FirstMessage(r: Result<seq<Message>, ApiError>): (m: Result<Option<Message>, ApiError>)
    ensures r.Err? <==> m.Err?
    ensures r.Err? ==> m.error == r.error
    ensures r.Ok? ==> (m.value.Some? <==> r.value != [])
    ensures r.Ok? && r.value != [] ==> m.value.value == r.value[0]
  {
    match r
    case Err(e) => Err(e)
    case Ok(s) => if s == [] then Ok(None) else Ok(Some(s[0]))
  }

  /** `markRead(conversationId)`: a POST with no body and no headers of its own. */
  function MarkRead(baseUrl: string, conversationId: string): (r: (string, Init))
    ensures r.0 == SendMessageUrl(baseUrl, conversationId) + "/read"
    ensures r.1 == Init(Some("POST"), [], NoBody)
  {
    (Base(baseUrl) + "/messages/" + conversationId + "/read", Init(Some("POST"), [], NoBody))
  }
}
