/** The service worker (background.js): it receives a `requestSong`
    message from a page, reads the stored settings, builds the request body
    and posts it to the room server, and answers the page with exactly one
    response. Storage and the network are inputs: the stored settings are a
    `Stored` value and the server's answer is a `Reply`, consulted only
    when a request is actually sent. */
module Background {
  import opened Wrappers
  import opened Strings
  import opened Settings
  import opened Http
  import Endpoint

  const PickPath := "/music/pick"
  const DefaultUserName := "点歌插件"
  const DefaultSource := "db"
  /** Thrown when the server address or the room id is not configured. */
  const ConfigIncomplete := "用户配置不完整，请在插件设置中配置服务器地址和房间ID"
  const PickAccepted := "点歌成功！"

  /** The song a page asks for; every field may be absent from the
      message (a video button sends no `id`, a song button no `name`). */
  datatype SongRequest = SongRequest(id: Option<string>, name: Option<string>, source: Option<string>)

  datatype User = User(name: string, email: string)

  /** The JSON body of `POST /music/pick`. `houseId` is copied as stored. */
  datatype PickBody = PickBody(
    houseId: Option<string>,
    password: string,
    user: User,
    id: string,
    name: string,
    source: string)

  datatype PickRequest = PickRequest(url: string, body: PickBody)

  /** A successful pick: the fixed message and the server's parsed body. */
  datatype Accepted = Accepted(message: string, data: string)

  /** What one call of `handleSongRequest` did: the request it sent, if
      any, and whether it resolved or threw (with the error's message). */
  datatype Exchange = Exchange(sent: Option<PickRequest>, outcome: Result<Accepted, string>)

  // ---------------------------------------------------------------------
  // buildSongRequestBody
  // ---------------------------------------------------------------------

  /** Every optional field falls back to a fixed default when it is absent
      or empty, as JavaScript's `||` does; the room id is copied. */
  function BuildSongRequestBody(c: Stored, song: SongRequest): (b: PickBody)
    ensures b.houseId == c.houseId
    ensures Truthy(c.housePwd) ==> b.password == c.housePwd.value
    ensures !Truthy(c.housePwd) ==> b.password == ""
    ensures Truthy(c.userName) ==> b.user.name == c.userName.value
    ensures !Truthy(c.userName) ==> b.user.name == DefaultUserName
    ensures Truthy(c.userEmail) ==> b.user.email == c.userEmail.value
    ensures !Truthy(c.userEmail) ==> b.user.email == ""
    ensures Truthy(song.id) ==> b.id == song.id.value
    ensures !Truthy(song.id) ==> b.id == ""
    ensures Truthy(song.name) ==> b.name == song.name.value
    ensures !Truthy(song.name) ==> b.name == ""
    ensures Truthy(song.source) ==> b.source == song.source.value
    ensures !Truthy(song.source) ==> b.source == DefaultSource
  {
    PickBody(
      c.houseId,
      OrElse(c.housePwd, ""),
      User(OrElse(c.userName, DefaultUserName), OrElse(c.userEmail, "")),
      OrElse(song.id, ""),
      OrElse(song.name, ""),
      OrElse(song.source, DefaultSource))
  }

  /** The server always receives a display name and a source: neither
      field of the body is ever empty. */
  lemma BodyNamesSenderAndSource(c: Stored, song: SongRequest)
    ensures BuildSongRequestBody(c, song).user.name != ""
    ensures BuildSongRequestBody(c, song).source != ""
  {
  }

  // ---------------------------------------------------------------------
  // handleSongRequest
  // ---------------------------------------------------------------------

  const ServerErrorPrefix := "服务器错误 ("

  /** The message synthesized for a failed response whose body has no
      usable `message`: the status in decimal, in parentheses after a
      fixed text. */
  function ServerError(status: nat): (m: string)
    ensures |ServerErrorPrefix| < |m| - 1
    ensures StartsWith(m, ServerErrorPrefix) && m[|m| - 1] == ')'
    ensures AllDigits(m[|ServerErrorPrefix|..|m| - 1])
  {
    var m := ServerErrorPrefix + DecimalString(status) + ")";
    assert m[|ServerErrorPrefix|..|m| - 1] == DecimalString(status);
    m
  }

  /** How the reply to the pick request settles the call: a 2xx response
      resolves with the fixed success message and the parsed body; any
      other status throws the body's `message`, or the synthesized text
      when there is none; a failed `fetch` or an unparsable body throws its
      own error's message. */
  function Interpret(reply: Reply): (r: Result<Accepted, string>)
    ensures r.Ok? <==> reply.Response? && IsOk(reply.status) && reply.body.Parsed?
    ensures r.Ok? ==> r.value == Accepted(PickAccepted, reply.body.document)
    ensures reply.Rejected? ==> r == Err(reply.error.message)
    ensures reply.Response? && reply.body.Unparsable? ==> r == Err(reply.body.error.message)
    ensures reply.Response? && !IsOk(reply.status) && reply.body.Parsed? ==>
              r == Err(OrElse(reply.body.message, ServerError(reply.status)))
  {
    match reply
    case Rejected(e) => Err(e.message)
    case Response(status, body) =>
      if IsOk(status) then
        match body
        case Unparsable(e) => Err(e.message)
        case Parsed(_, document) => Ok(Accepted(PickAccepted, document))
      else
        match body
        case Unparsable(e) => Err(e.message)
        case Parsed(message, _) => Err(OrElse(message, ServerError(status)))
  }

  /** The synthesized error text names the status: the digits between the
      parentheses read back as the status code. */
  lemma ServerErrorNamesStatus(status: nat)
    ensures var m := ServerError(status);
            DecimalValue(m[|ServerErrorPrefix|..|m| - 1]) == status
  {
    var m := ServerError(status);
    assert m[|ServerErrorPrefix|..|m| - 1] == DecimalString(status);
    DecimalRoundTrip(status);
  }

  /** `handleSongRequest`: read the settings (`getUserConfig`, whose
      rejection propagates with its error's message), check them, then
      build the body and the URL, then post and interpret the reply. */
  function HandleSongRequest(read: Result<Stored, string>, song: SongRequest, reply: Reply): (x: Exchange)
    ensures read.Err? ==> x == Exchange(None, Err(read.error))
    ensures x.sent.None? <==> read.Err? || !Truthy(read.value.endPoint) || !Truthy(read.value.houseId)
    ensures read.Ok? && x.sent.None? ==> x.outcome == Err(ConfigIncomplete)
    ensures x.sent.Some? ==>
              && x.sent.value.url == Endpoint.Normalize(read.value.endPoint.value) + PickPath
              && x.sent.value.body == BuildSongRequestBody(read.value, song)
              && x.outcome == Interpret(reply)
  {
    match read
    case Err(e) => Exchange(None, Err(e))
    case Ok(c) =>
      if !Truthy(c.endPoint) || !Truthy(c.houseId) then
        Exchange(None, Err(ConfigIncomplete))
      else
        var body := BuildSongRequestBody(c, song);
        var url := Endpoint.Normalize(c.endPoint.value) + PickPath;
        Exchange(Some(PickRequest(url, body)), Interpret(reply))
  }

  /** With the settings unreadable, or the address or room id missing, the
      server plays no part: the call fails the same way whatever the server
      would have answered. */
  lemma IncompleteConfigIgnoresServer(read: Result<Stored, string>, song: SongRequest, r1: Reply, r2: Reply)
    requires read.Err? || !Truthy(read.value.endPoint) || !Truthy(read.value.houseId)
    ensures HandleSongRequest(read, song, r1) == HandleSongRequest(read, song, r2)
    ensures HandleSongRequest(read, song, r1).sent.None?
  {
  }

  /** The pick request always goes to an absolute HTTP(S) URL ending in
      `/music/pick`, and the room id in its body is the configured one. */
  lemma PickTarget(c: Stored, song: SongRequest, reply: Reply)
    requires HandleSongRequest(Ok(c), song, reply).sent.Some?
    ensures var req := HandleSongRequest(Ok(c), song, reply).sent.value;
            && Endpoint.HasScheme(req.url)
            && |PickPath| <= |req.url| && req.url[|req.url| - |PickPath|..] == PickPath
            && req.body.houseId == c.houseId && Truthy(req.body.houseId)
  {
    var req := HandleSongRequest(Ok(c), song, reply).sent.value;
    var base := Endpoint.Normalize(c.endPoint.value);
    if StartsWith(base, Endpoint.HttpsScheme) {
      StartsWithAppend(base, PickPath, Endpoint.HttpsScheme);
    } else {
      StartsWithAppend(base, PickPath, Endpoint.HttpScheme);
    }
  }

  // ---------------------------------------------------------------------
  // The message listener
  // ---------------------------------------------------------------------

  /** A runtime message as the listener sees it. */
  datatype Message = Message(action: string, id: Option<string>, name: Option<string>, source: Option<string>)

  /** What `sendResponse` passes back: `{success: true, message, data}` or
      `{success: false, error}`. */
  datatype SongResponse = Succeeded(message: string, data: string) | Failed(error: string)

  const RequestSongAction := "requestSong"

  /** The listener: a `requestSong` message gets exactly one response,
      which reports the call's failure message when it threw; any other
      message gets none. */
  function OnMessage(msg: Message, read: Result<Stored, string>, reply: Reply): (r: Option<SongResponse>)
    ensures r.Some? <==> msg.action == RequestSongAction
    ensures r.Some? ==>
              var x := HandleSongRequest(read, SongRequest(msg.id, msg.name, msg.source), reply);
              && (r.value.Failed? <==> x.outcome.Err?)
              && (x.outcome.Err? ==> r.value == Failed(x.outcome.error))
              && (x.outcome.Ok? ==> r.value == Succeeded(x.outcome.value.message, x.outcome.value.data))
  {
    if msg.action == RequestSongAction then
      var x := HandleSongRequest(read, SongRequest(msg.id, msg.name, msg.source), reply);
      match x.outcome
      case Ok(a) => Some(Succeeded(a.message, a.data))
      case Err(e) => Some(Failed(e))
    else
      None
  }

  /** A response reports success exactly when the settings could be read
      and were complete and the server accepted the request with a 2xx
      status; unreadable settings answer with the storage error. */
  lemma SuccessMeansAccepted(msg: Message, read: Result<Stored, string>, reply: Reply)
    requires msg.action == RequestSongAction
    ensures OnMessage(msg, read, reply).value.Succeeded? <==>
              && read.Ok? && Truthy(read.value.endPoint) && Truthy(read.value.houseId)
              && reply.Response? && IsOk(reply.status) && reply.body.Parsed?
    ensures OnMessage(msg, read, reply).value.Succeeded? ==>
              OnMessage(msg, read, reply).value.message == PickAccepted
    ensures read.Err? ==> OnMessage(msg, read, reply).value == Failed(read.error)
  {
  }
}
