/** The settings popup (popup.js): loading the form from storage, the
    fixed order of checks in `saveConfig`, and the way `testConnection`
    sorts the server's answer. The form's inputs are a `Config` of raw
    strings; storage, the active tab and the network are inputs. */
module Popup {
  import opened Wrappers
  import opened Strings
  import opened Settings
  import opened Http
  import Endpoint

  datatype ToastKind = Success | Warning | Error

  /** The message and colour of the popup's toast. */
  datatype Toast = Toast(message: string, kind: ToastKind)

  const RequiredMissing := "请填写所有必填字段"
  const BadEndPoint := "服务器地址格式不正确"
  const SaveSucceeded := "配置保存成功"
  const SaveFailed := "保存配置失败"

  // ---------------------------------------------------------------------
  // loadConfig
  // ---------------------------------------------------------------------

  /** Fills the form from storage: a text input takes the stored value only
      when it is truthy and otherwise keeps what `blank` holds; a switch is
      on unless `false` was stored. */
  function LoadForm(s: Stored, blank: Config): (form: Config)
    ensures Truthy(s.endPoint) ==> form.endPoint == s.endPoint.value
    ensures !Truthy(s.endPoint) ==> form.endPoint == blank.endPoint
    ensures Truthy(s.houseId) ==> form.houseId == s.houseId.value
    ensures !Truthy(s.houseId) ==> form.houseId == blank.houseId
    ensures Truthy(s.housePwd) ==> form.housePwd == s.housePwd.value
    ensures !Truthy(s.housePwd) ==> form.housePwd == blank.housePwd
    ensures Truthy(s.userName) ==> form.userName == s.userName.value
    ensures !Truthy(s.userName) ==> form.userName == blank.userName
    ensures Truthy(s.userEmail) ==> form.userEmail == s.userEmail.value
    ensures !Truthy(s.userEmail) ==> form.userEmail == blank.userEmail
    ensures form.bilibiliEnabled == SwitchEnabled(s.bilibiliEnabled)
    ensures form.neteaseMusicEnabled == SwitchEnabled(s.neteaseMusicEnabled)
  {
    Config(
      OrElse(s.endPoint, blank.endPoint),
      OrElse(s.houseId, blank.houseId),
      OrElse(s.housePwd, blank.housePwd),
      OrElse(s.userName, blank.userName),
      OrElse(s.userEmail, blank.userEmail),
      SwitchEnabled(s.bilibiliEnabled),
      SwitchEnabled(s.neteaseMusicEnabled))
  }

  /** The inputs of a freshly opened popup. */
  const EmptyForm := Config("", "", "", "", "", true, true)

  const LoadFailed := "加载配置失败"

  /** What `loadConfig` leaves behind: the form, and the toast shown when
      storage could not be read. */
  datatype Loaded = Loaded(form: Config, toast: Option<Toast>)

  /** `loadConfig`: a rejected read leaves every input as it was and shows
      an error toast; a successful one fills the form without a toast. */
  function LoadConfig(read: Result<Stored, string>, blank: Config): (l: Loaded)
    ensures l.toast.Some? <==> read.Err?
    ensures read.Err? ==> l == Loaded(blank, Some(Toast(LoadFailed, Error)))
    ensures read.Ok? ==> l.form == LoadForm(read.value, blank)
  {
    match read
    case Err(_) => Loaded(blank, Some(Toast(LoadFailed, Error)))
    case Ok(s) => Loaded(LoadForm(s, blank), None)
  }

  // ---------------------------------------------------------------------
  // saveConfig
  // ---------------------------------------------------------------------

  /** Every text field of the form with surrounding white space removed;
      the switches as they are. */
  function Trimmed(form: Config): (c: Config)
    ensures c.endPoint == Trim(form.endPoint) && c.houseId == Trim(form.houseId)
    ensures c.housePwd == Trim(form.housePwd)
    ensures c.userName == Trim(form.userName) && c.userEmail == Trim(form.userEmail)
    ensures c.bilibiliEnabled == form.bilibiliEnabled
    ensures c.neteaseMusicEnabled == form.neteaseMusicEnabled
  {
    form.(endPoint := Trim(form.endPoint), houseId := Trim(form.houseId),
          housePwd := Trim(form.housePwd), userName := Trim(form.userName),
          userEmail := Trim(form.userEmail))
  }

  /** What one `saveConfig` did: its return value, the toast shown, the
      settings written to storage (if any) and the settings sent to the
      active tab's content script (if any). */
  datatype SaveOutcome = SaveOutcome(saved: bool, toast: Toast, written: Option<Config>, notified: Option<Config>)

  /** The settings a save can write: every text field trimmed, a valid
      address and a room id. */
  predicate Writable(c: Config) {
    && Endpoint.IsValidEndPoint(c.endPoint) && c.houseId != ""
    && NoOuterSpace(c.endPoint) && NoOuterSpace(c.houseId) && NoOuterSpace(c.housePwd)
    && NoOuterSpace(c.userName) && NoOuterSpace(c.userEmail)
  }

  /** `saveConfig`: trim, check the required fields, check the address
      format, write, then tell the active tab (with the address
      normalized). `storageFails` is a rejected `chrome.storage.sync.set`;
      `hasActiveTab` is whether `chrome.tabs.query` found a tab. */
  function SaveConfig(form: Config, storageFails: bool, hasActiveTab: bool): (o: SaveOutcome)
    ensures o.saved <==> o.written.Some?
    ensures o.saved <==>
              && !storageFails && Trim(form.endPoint) != "" && Trim(form.houseId) != ""
              && Endpoint.IsValidEndPoint(Trim(form.endPoint))
    ensures o.saved ==> o.toast == Toast(SaveSucceeded, Success)
    ensures o.written.Some? ==> o.written.value == Trimmed(form) && Writable(o.written.value)
    ensures Trim(form.endPoint) == "" || Trim(form.houseId) == "" ==>
              o == SaveOutcome(false, Toast(RequiredMissing, Error), None, None)
    ensures Trim(form.endPoint) != "" && Trim(form.houseId) != ""
            && !Endpoint.IsValidEndPoint(Trim(form.endPoint)) ==>
              o == SaveOutcome(false, Toast(BadEndPoint, Error), None, None)
    ensures storageFails && Trim(form.endPoint) != "" && Trim(form.houseId) != ""
            && Endpoint.IsValidEndPoint(Trim(form.endPoint)) ==>
              o == SaveOutcome(false, Toast(SaveFailed, Error), None, None)
    ensures o.notified.Some? <==> o.saved && hasActiveTab
    ensures o.notified.Some? ==>
              o.notified.value == o.written.value.(endPoint := Endpoint.Normalize(o.written.value.endPoint))
  {
    var c := Trimmed(form);
    if c.endPoint == "" || c.houseId == "" then
      SaveOutcome(false, Toast(RequiredMissing, Error), None, None)
    else if !Endpoint.IsValidEndPoint(c.endPoint) then
      SaveOutcome(false, Toast(BadEndPoint, Error), None, None)
    else if storageFails then
      SaveOutcome(false, Toast(SaveFailed, Error), None, None)
    else
      var notified := if hasActiveTab then Some(c.(endPoint := Endpoint.Normalize(c.endPoint))) else None;
      SaveOutcome(true, Toast(SaveSucceeded, Success), Some(c), notified)
  }

  /** Trimming writable settings changes nothing. */
  lemma WritableIsTrimmed(c: Config)
    requires Writable(c)
    ensures Trimmed(c) == c
  {
    TrimOfTrimmed(c.endPoint);
    TrimOfTrimmed(c.houseId);
    TrimOfTrimmed(c.housePwd);
    TrimOfTrimmed(c.userName);
    TrimOfTrimmed(c.userEmail);
  }

  /** Saving accepts exactly the forms whose trimmed address and room id
      are present and whose trimmed address passes `isValidEndPoint`
      (storage permitting). */
  lemma SaveAcceptsExactly(form: Config, hasActiveTab: bool)
    ensures SaveConfig(form, false, hasActiveTab).saved <==>
              Trim(form.endPoint) != "" && Trim(form.houseId) != ""
              && Endpoint.IsValidEndPoint(Trim(form.endPoint))
  {
  }

  /** The settings sent to the page differ from the stored ones only in the
      address, which is the normalized form of the stored address and is in
      URL form. */
  lemma NotifiedDiffersOnlyInEndPoint(c: Config)
    requires Writable(c)
    ensures var o := SaveConfig(c, false, true);
            && o.written == Some(c)
            && o.notified == Some(c.(endPoint := Endpoint.Normalize(c.endPoint)))
            && Endpoint.MatchesUrlPattern(o.notified.value.endPoint)
  {
    SaveWritable(c, true);
    Endpoint.NormalizeValid(c.endPoint);
  }

  /** Reopening the popup after a save and saving again writes the same
      settings: what was stored loads back into the form unchanged (an
      empty optional field is not truthy and leaves the blank input
      empty), and trimming an already trimmed field changes nothing. */
  lemma SaveReloadSave(c: Config, hasActiveTab: bool)
    requires Writable(c)
    ensures LoadForm(Store(c), EmptyForm) == c
    ensures SaveConfig(LoadForm(Store(c), EmptyForm), false, hasActiveTab).written == Some(c)
  {
    LoadStored(c);
    SaveWritable(c, hasActiveTab);
  }

  /** Saving writable settings writes them unchanged. */
  lemma SaveWritable(c: Config, hasActiveTab: bool)
    requires Writable(c)
    ensures SaveConfig(c, false, hasActiveTab).written == Some(c)
  {
    WritableIsTrimmed(c);
    var t := Trimmed(c);
    assert t.endPoint == c.endPoint && t.houseId == c.houseId;
    assert t.endPoint != "" && t.houseId != "" && Endpoint.IsValidEndPoint(t.endPoint);
  }

  /** A write that storage rejects saves nothing and tells no page, even
      for settings that pass every check: the save reports failure with
      `保存配置失败`. */
  lemma SaveWriteFails(c: Config, hasActiveTab: bool)
    requires Writable(c)
    ensures SaveConfig(c, true, hasActiveTab) == SaveOutcome(false, Toast(SaveFailed, Error), None, None)
    ensures SaveConfig(c, false, hasActiveTab).saved
    ensures SaveConfig(c, false, hasActiveTab).toast == Toast(SaveSucceeded, Success)
  {
    SaveWritable(c, hasActiveTab);
    WritableIsTrimmed(c);
  }

  /** Loading what a save wrote into a fresh popup restores the form. */
  lemma LoadStored(c: Config)
    ensures LoadForm(Store(c), EmptyForm) == c
    ensures LoadConfig(Ok(Store(c)), EmptyForm) == Loaded(c, None)
  {
  }

  /** Trimming the form twice is trimming it once. */
  lemma TrimmedIsFixed(form: Config)
    ensures Trimmed(Trimmed(form)) == Trimmed(form)
  {
    TrimIdempotent(form.endPoint);
    TrimIdempotent(form.houseId);
    TrimIdempotent(form.housePwd);
    TrimIdempotent(form.userName);
    TrimIdempotent(form.userEmail);
  }

  // ---------------------------------------------------------------------
  // testConnection
  // ---------------------------------------------------------------------

  const EnterPath := "/house/enter"
  const FillConfigFirst := "请先填写完整配置"
  const ConnectionOk := "连接测试成功"
  const RoomMissing := "连接成功，但房间不存在，请检查房间号"
  const WrongPassword := "连接成功，但房间密码错误"
  const Unreachable := "无法连接到服务器，请检查服务器地址"
  const TestFailedPrefix := "连接测试失败: "

  /** `POST /house/enter` with body `{id, password}`. */
  datatype EnterRequest = EnterRequest(url: string, id: string, password: string)

  /** How the status of the test request is read. */
  datatype Verdict = RoomFound | RoomNotFound | BadPassword | HttpFailure(message: string)

  /** A 2xx status means the room exists and the password is right; 404
      and 401 mean the server was reached but the room is missing or the
      password wrong; anything else is a failure named `HTTP <status>`,
      whose digits read back as the status. */
  function ClassifyStatus(status: nat): (v: Verdict)
    ensures v == RoomFound <==> IsOk(status)
    ensures v == RoomNotFound <==> status == 404
    ensures v == BadPassword <==> status == 401
    ensures v.HttpFailure? ==>
              && StartsWith(v.message, "HTTP ")
              && AllDigits(v.message[|"HTTP "|..])
              && DecimalValue(v.message[|"HTTP "|..]) == status
  {
    if IsOk(status) then RoomFound
    else if status == 404 then RoomNotFound
    else if status == 401 then BadPassword
    else
      var m := "HTTP " + DecimalString(status);
      assert m[|"HTTP "|..] == DecimalString(status);
      DecimalRoundTrip(status);
      HttpFailure(m)
  }

  /** The `catch` block: a `TypeError` whose message mentions `fetch` is
      shown as an unreachable server, anything else with its message. */
  function CatchToast(e: JsError): (t: Toast)
    ensures t.kind == Error
    ensures e.name == "TypeError" && Occurs(e.message, "fetch") ==> t.message == Unreachable
    ensures !(e.name == "TypeError" && Occurs(e.message, "fetch")) ==> t.message == TestFailedPrefix + e.message
  {
    if e.name == "TypeError" && Includes(e.message, "fetch") then Toast(Unreachable, Error)
    else Toast(TestFailedPrefix + e.message, Error)
  }

  /** The toast for a status that reached the server: a green success
      only for a found room, a warning for a missing room or a wrong
      password, and the `catch` block's text for any other status (its
      `Error` is no `TypeError`, so it is never read as unreachable). */
  function VerdictToast(v: Verdict): (t: Toast)
    ensures t.kind == Success <==> v == RoomFound
    ensures t.kind == Warning <==> v == RoomNotFound || v == BadPassword
    ensures v.HttpFailure? ==> t == Toast(TestFailedPrefix + v.message, Error)
  {
    match v
    case RoomFound => Toast(ConnectionOk, Success)
    case RoomNotFound => Toast(RoomMissing, Warning)
    case BadPassword => Toast(WrongPassword, Warning)
    case HttpFailure(m) => CatchToast(JsError("Error", m))
  }

  /** What one `testConnection` did: the request it sent, if any, and the
      toast it showed. */
  datatype TestRun = TestRun(sent: Option<EnterRequest>, toast: Toast)

  /** The request `testConnection` sends: none when the trimmed address or
      room id is empty; otherwise `/house/enter` under the normalized
      address, with the trimmed room id and password (an empty password
      stays empty). */
  function TestRequest(form: Config): (r: Option<EnterRequest>)
    ensures r.None? <==> Trim(form.endPoint) == "" || Trim(form.houseId) == ""
    ensures r.Some? ==>
              r.value == EnterRequest(Endpoint.Normalize(Trim(form.endPoint)) + EnterPath,
                                      Trim(form.houseId), Trim(form.housePwd))
  {
    var endPoint := Trim(form.endPoint);
    var houseId := Trim(form.houseId);
    if endPoint == "" || houseId == "" then None
    else Some(EnterRequest(Endpoint.Normalize(endPoint) + EnterPath, houseId, OrElse(Some(Trim(form.housePwd)), "")))
  }

  /** The toast once the test request has settled: a rejected `fetch`
      goes to the `catch` block; a response is judged by its status alone,
      whatever its body. */
  function ReplyToast(reply: Reply): (t: Toast)
    ensures reply.Rejected? ==> t == CatchToast(reply.error)
    ensures reply.Response? ==> (t.kind == Success <==> IsOk(reply.status))
    ensures reply.Response? && !IsOk(reply.status) && reply.status != 404 && reply.status != 401 ==>
              t == Toast(TestFailedPrefix + "HTTP " + DecimalString(reply.status), Error)
  {
    match reply
    case Rejected(e) => CatchToast(e)
    case Response(status, _) => VerdictToast(ClassifyStatus(status))
  }

  /** `testConnection`: with the trimmed address or room id empty it only
      warns; otherwise it posts to `/house/enter` and shows the verdict.
      Unlike saving, it does not check the address format. */
  function TestConnection(form: Config, reply: Reply): (t: TestRun)
    ensures t.sent.None? <==> Trim(form.endPoint) == "" || Trim(form.houseId) == ""
    ensures t.sent.None? ==> t.toast == Toast(FillConfigFirst, Warning)
    ensures t.sent.Some? ==>
              t.sent.value == EnterRequest(Endpoint.Normalize(Trim(form.endPoint)) + EnterPath,
                                           Trim(form.houseId), Trim(form.housePwd))
    ensures t.sent.Some? && reply.Response? ==> t.toast == VerdictToast(ClassifyStatus(reply.status))
    ensures t.sent.Some? && reply.Rejected? ==> t.toast == CatchToast(reply.error)
  {
    match TestRequest(form)
    case None => TestRun(None, Toast(FillConfigFirst, Warning))
    case Some(request) => TestRun(Some(request), ReplyToast(reply))
  }

  /** The four outcomes of a test that reached the server: success, a
      missing room, a wrong password (both shown as warnings), and an error
      naming the status; each toast belongs to one kind of status only. */
  lemma StatusToasts(status: nat)
    ensures var t := VerdictToast(ClassifyStatus(status));
            && (IsOk(status) <==> t == Toast(ConnectionOk, Success))
            && (status == 404 <==> t == Toast(RoomMissing, Warning))
            && (status == 401 <==> t == Toast(WrongPassword, Warning))
            && (!IsOk(status) && status != 404 && status != 401 ==>
                  t == Toast(TestFailedPrefix + "HTTP " + DecimalString(status), Error))
  {
    var v := ClassifyStatus(status);
    if v.HttpFailure? {
      assert "Error" != "TypeError";
      assert VerdictToast(v) == Toast(TestFailedPrefix + v.message, Error);
      assert TestFailedPrefix + ("HTTP " + DecimalString(status)) == TestFailedPrefix + "HTTP " + DecimalString(status);
    }
    assert RoomMissing != WrongPassword by {
      assert RoomMissing[8] != WrongPassword[8];
    }
  }

  /** The test sends a request for any address that saving refuses for
      its `/` (a path, a trailing slash, a foreign scheme), as long as
      the room id is present. */
  lemma TestSkipsFormatCheck(form: Config, reply: Reply, i: nat)
    requires Trim(form.houseId) != ""
    requires Endpoint.SchemeLength(Trim(form.endPoint)) <= i < |Trim(form.endPoint)|
    requires Trim(form.endPoint)[i] == '/'
    ensures TestConnection(form, reply).sent.Some?
    ensures !SaveConfig(form, false, true).saved
  {
    Endpoint.SlashRejected(Trim(form.endPoint), i);
  }
}
