/** Properties that cross the extension's three scripts: what the popup
    saves is what the service worker sends, what a button carries is what
    the server receives, and what the server answers is what the user is
    shown. */
module Flows {
  import opened Wrappers
  import opened Strings
  import opened Settings
  import opened Http
  import Endpoint
  import Pattern
  import Background
  import Popup
  import Content

  /** A click on a button, when the runtime delivers the message: the page
      sends the button's request, the service worker handles it against
      its reading of storage and the server's `reply`, and the page
      reports the response. The click succeeds exactly when the settings
      were read and complete and the server accepted the pick; an
      incomplete configuration, a storage error and a server's own error
      text reach the toast as they are. */
  function Click(b: Content.Button, read: Result<Stored, string>, reply: Reply): (f: Content.Feedback)
    ensures f.succeeded <==>
              read.Ok? && Truthy(read.value.endPoint) && Truthy(read.value.houseId)
              && reply.Response? && IsOk(reply.status) && reply.body.Parsed?
    ensures f.succeeded ==> f.toast == Content.ToastSucceeded
    ensures read.Err? && read.error != "" ==> f.toast == read.error
    ensures read.Ok? && (!Truthy(read.value.endPoint) || !Truthy(read.value.houseId)) ==>
              f.toast == Background.ConfigIncomplete
    ensures read.Ok? && Truthy(read.value.endPoint) && Truthy(read.value.houseId)
            && reply.Response? && !IsOk(reply.status)
            && reply.body.Parsed? && Truthy(reply.body.message) ==>
              f.toast == reply.body.message.value
    ensures read.Ok? && Truthy(read.value.endPoint) && Truthy(read.value.houseId)
            && reply.Rejected? && reply.error.message != "" ==>
              f.toast == reply.error.message
    ensures f.title.Some? <==> b.kind == Content.Custom
  {
    var response := Background.OnMessage(Content.ToMessage(b.request), read, reply);
    Content.RequestFeedback(b.kind, Ok(response.value))
  }

  /** The server message that a failed pick shows is never replaced by the
      page's fallbacks: whenever the service worker reports a non-empty
      error, the toast and a video button's tooltip show exactly it. */
  lemma FailureTextPreserved(kind: Content.ButtonKind, error: string)
    requires error != ""
    ensures var f := Content.RequestFeedback(kind, Ok(Background.Failed(error)));
            && !f.succeeded && f.toast == error
            && (kind == Content.Custom ==> f.title == Some(error))
  {
  }

  /** A video button asks for the video by name: the pick body carries the
      card's video id (which starts with `BV`) as `name`, no `id`, and
      source `db`. */
  lemma VideoButtonPick(processed: set<string>, card: Content.VideoCard, s: Stored, reply: Reply)
    requires Content.ProcessVideoCard(processed, card).button.Some?
    requires Truthy(s.endPoint) && Truthy(s.houseId)
    ensures var b := Content.ProcessVideoCard(processed, card).button.value;
            var x := Background.HandleSongRequest(Ok(s), b.request, reply);
            var bvId := Pattern.ExtractBvId(card.link.value.hrefAttribute).value;
            && b.kind == Content.Custom
            && x.sent.Some?
            && x.sent.value.body.name == bvId && bvId[..2] == "BV"
            && x.sent.value.body.id == ""
            && x.sent.value.body.source == "db"
  {
  }

  /** A playlist row's button asks for the song by id: the pick body
      carries the row's decimal song id as `id`, no `name`, and source
      `wy`. */
  lemma SongButtonPick(processed: set<string>, row: Content.PlaylistRow, s: Stored, reply: Reply)
    requires Content.ProcessPlaylistRow(processed, row).button.Some?
    requires Truthy(s.endPoint) && Truthy(s.houseId)
    ensures var b := Content.ProcessPlaylistRow(processed, row).button.value;
            var x := Background.HandleSongRequest(Ok(s), b.request, reply);
            var songId := Pattern.ExtractSongId(row.link.value.hrefAttribute).value;
            && b.kind == Content.Plain
            && x.sent.Some?
            && x.sent.value.body.id == songId && AllDigits(songId) && songId != ""
            && x.sent.value.body.name == ""
            && x.sent.value.body.source == "wy"
  {
  }

  /** A song detail page's button sends the page's `data-res-id` as the
      song id, with source `wy`. */
  lemma DetailButtonPick(processed: set<string>, page: Content.DetailPage, s: Stored, reply: Reply)
    requires Content.ProcessDetailPage(processed, page).button.Some?
    requires Truthy(s.endPoint) && Truthy(s.houseId)
    ensures var b := Content.ProcessDetailPage(processed, page).button.value;
            var x := Background.HandleSongRequest(Ok(s), b.request, reply);
            && x.sent.Some?
            && x.sent.value.body.id == page.resId.value
            && x.sent.value.body.name == ""
            && x.sent.value.body.source == "wy"
  {
  }

  /** Once the popup has saved settings, the service worker finds a
      complete configuration and posts to `/music/pick` under the saved
      address (in URL form), with the saved room id and password. Every
      saved configuration is `Popup.Writable`. */
  lemma SavedSettingsReachServer(c: Config, song: Background.SongRequest, reply: Reply)
    requires Popup.Writable(c)
    ensures var x := Background.HandleSongRequest(Ok(Store(c)), song, reply);
            && x.sent.Some?
            && Endpoint.MatchesUrlPattern(Endpoint.Normalize(c.endPoint))
            && x.sent.value.url == Endpoint.Normalize(c.endPoint) + Background.PickPath
            && x.sent.value.body.houseId == Some(c.houseId)
            && x.sent.value.body.password == c.housePwd
            && x.outcome == Background.Interpret(reply)
  {
    Endpoint.NormalizeValid(c.endPoint);
  }

  /** The popup's connection test and the service worker's picks talk to
      the same server: with saved settings loaded back into the popup,
      both URLs share the normalized saved address and differ only in the
      path. */
  lemma TestAndPickShareServer(c: Config, song: Background.SongRequest, r1: Reply, r2: Reply)
    requires Popup.Writable(c)
    ensures var form := Popup.LoadForm(Store(c), Popup.EmptyForm);
            var base := Endpoint.Normalize(c.endPoint);
            && Popup.TestConnection(form, r1).sent.Some?
            && Popup.TestConnection(form, r1).sent.value.url == base + Popup.EnterPath
            && Background.HandleSongRequest(Ok(Store(c)), song, r2).sent.value.url == base + Background.PickPath
  {
    Popup.LoadStored(c);
    TestUsesSavedAddress(c, r1);
    SavedSettingsReachServer(c, song, r2);
  }

  /** Testing saved settings posts their room id and password to
      `/house/enter` under their normalized address. */
  lemma TestUsesSavedAddress(c: Config, reply: Reply)
    requires Popup.Writable(c)
    ensures Popup.TestConnection(c, reply).sent ==
              Some(Popup.EnterRequest(Endpoint.Normalize(c.endPoint) + Popup.EnterPath, c.houseId, c.housePwd))
  {
    Popup.WritableIsTrimmed(c);
  }

  /** The switches a `configUpdated` message carries are the ones the
      page's reload of storage then confirms, because the popup writes
      the settings to storage before it sends them, address normalized,
      to the page. */
  lemma NotifiedFlagsAgree(c: Config, hostname: string)
    ensures var u := Content.OnConfigUpdated(c.(endPoint := Endpoint.Normalize(c.endPoint)), Ok(Store(c)), hostname);
            && u.interim == u.flags
            && u.flags == Content.Flags(c.bilibiliEnabled, c.neteaseMusicEnabled)
  {
  }

  /** A switch turned off in the popup stops the page: after the save, the
      page reloads into doing nothing on that site. */
  lemma SwitchOffStopsPage(c: Config, hostname: string)
    requires Content.SiteTypeOf(hostname) == Content.Bilibili && !c.bilibiliEnabled
    ensures Content.OnConfigUpdated(c.(endPoint := Endpoint.Normalize(c.endPoint)), Ok(Store(c)), hostname).work == Content.Idle
  {
  }
}
