/** The content script (content.js): which site it is running on,
    whether that site's switch lets it work, how it reads a video or song
    id out of a link, how the page-wide `processedCards` set keeps it from
    equipping one card, row or detail page twice, what each button asks
    the background for, and what the user is shown afterwards. The DOM is
    not modelled: a card, row or page is the handful of values the script
    reads from it. */
module Content {
  import opened Wrappers
  import opened Strings
  import opened Settings
  import opened Pattern
  import Background

  // ---------------------------------------------------------------------
  // Site detection and gating
  // ---------------------------------------------------------------------

  datatype SiteType = Bilibili | Netease | Unknown

  const BilibiliHost := "bilibili.com"
  const NeteaseHost := "music.163.com"

  /** `getCurrentSiteType`: the video site wins when both names occur. */
  function SiteTypeOf(hostname: string): (t: SiteType)
    ensures t == Bilibili <==> Occurs(hostname, BilibiliHost)
    ensures t == Netease <==> !Occurs(hostname, BilibiliHost) && Occurs(hostname, NeteaseHost)
    ensures t == Unknown <==> !Occurs(hostname, BilibiliHost) && !Occurs(hostname, NeteaseHost)
  {
    if Includes(hostname, BilibiliHost) then Bilibili
    else if Includes(hostname, NeteaseHost) then Netease
    else Unknown
  }

  /** The script's `globalConfig`: one switch per site. */
  datatype Flags = Flags(bilibiliEnabled: bool, neteaseMusicEnabled: bool)

  /** `globalConfig` before anything was loaded: both switches on. */
  const DefaultFlags := Flags(true, true)

  /** `loadConfig`: each switch is on unless storage holds exactly
      `false`; when storage cannot be read the error is only logged and
      the switches keep the values they had. */
  function LoadFlags(prev: Flags, read: Result<Stored, string>): (f: Flags)
    ensures read.Err? ==> f == prev
    ensures read.Ok? ==> (f.bilibiliEnabled <==> read.value.bilibiliEnabled != Some(false))
    ensures read.Ok? ==> (f.neteaseMusicEnabled <==> read.value.neteaseMusicEnabled != Some(false))
  {
    match read
    case Err(_) => prev
    case Ok(s) => Flags(SwitchEnabled(s.bilibiliEnabled), SwitchEnabled(s.neteaseMusicEnabled))
  }

  /** What `init` sets going: on the video site, a scan of the cards plus
      a mutation observer; on the music site, a load handler. */
  datatype Work = Idle | ScanBilibili | WatchNetease

  /** What one `init` leaves: the switches after its reload and the work
      it started. */
  datatype Started = Started(flags: Flags, work: Work)

  /** `init`: reload the switches over `prev`, then do nothing on an
      unknown site or on a site whose switch is off. The page's first
      `init` starts from `DefaultFlags`. */
  function Init(prev: Flags, read: Result<Stored, string>, hostname: string): (st: Started)
    ensures st.flags == LoadFlags(prev, read)
    ensures st.work == ScanBilibili <==> SiteTypeOf(hostname) == Bilibili && st.flags.bilibiliEnabled
    ensures st.work == WatchNetease <==> SiteTypeOf(hostname) == Netease && st.flags.neteaseMusicEnabled
    ensures SiteTypeOf(hostname) == Unknown ==> st.work == Idle
  {
    var flags := LoadFlags(prev, read);
    var site := SiteTypeOf(hostname);
    var work :=
      if site == Bilibili && !flags.bilibiliEnabled then Idle
      else if site == Netease && !flags.neteaseMusicEnabled then Idle
      else if site == Bilibili then ScanBilibili
      else if site == Netease then WatchNetease
      else Idle;
    Started(flags, work)
  }

  /** On a fresh page the work starts exactly where the site's stored
      switch is not `false`, and an unreadable storage leaves both sites
      on. */
  lemma FirstInit(read: Result<Stored, string>, hostname: string)
    ensures var st := Init(DefaultFlags, read, hostname);
            && (st.work == ScanBilibili <==>
                  SiteTypeOf(hostname) == Bilibili && (read.Err? || read.value.bilibiliEnabled != Some(false)))
            && (st.work == WatchNetease <==>
                  SiteTypeOf(hostname) == Netease && (read.Err? || read.value.neteaseMusicEnabled != Some(false)))
  {
  }

  /** What a `configUpdated` message does: the switches it carries take
      effect at once (`interim`), then `init` reloads them from storage,
      which decides the `work` and the switches that stay. */
  datatype Update = Update(interim: Flags, work: Work, flags: Flags)

  /** The page's `configUpdated` listener; `read` is what `init` gets from
      storage. */
  function OnConfigUpdated(notified: Config, read: Result<Stored, string>, hostname: string): (u: Update)
    ensures u.interim.bilibiliEnabled == notified.bilibiliEnabled
    ensures u.interim.neteaseMusicEnabled == notified.neteaseMusicEnabled
    ensures u.flags == LoadFlags(u.interim, read)
    ensures Started(u.flags, u.work) == Init(u.interim, read, hostname)
  {
    var interim := Flags(notified.bilibiliEnabled, notified.neteaseMusicEnabled);
    var st := Init(interim, read, hostname);
    Update(interim, st.work, st.flags)
  }

  /** When the reload after a `configUpdated` message fails, the switches
      the message carried stay in force and decide the work. */
  lemma FailedReloadKeepsNotified(notified: Config, error: string, hostname: string)
    ensures var u := OnConfigUpdated(notified, Err(error), hostname);
            && u.flags == u.interim
            && (u.work == ScanBilibili <==> SiteTypeOf(hostname) == Bilibili && notified.bilibiliEnabled)
            && (u.work == WatchNetease <==> SiteTypeOf(hostname) == Netease && notified.neteaseMusicEnabled)
  {
  }

  /** The work the music site's load handler picks, once its delay has
      passed. */
  datatype NeteaseTask = NoTask | SongDetail | Playlist

  /** The load handler: nothing when the switch is off; a song detail page
      when the address mentions `/song`; otherwise the playlist rows,
      which are only processed inside a frame (the top window is
      skipped). */
  function NeteaseOnLoad(flags: Flags, url: string, isTopFrame: bool): (t: NeteaseTask)
    ensures !flags.neteaseMusicEnabled ==> t == NoTask
    ensures t == SongDetail <==> flags.neteaseMusicEnabled && Occurs(url, "/song")
    ensures t == Playlist <==> flags.neteaseMusicEnabled && !Occurs(url, "/song") && !isTopFrame
  {
    if !flags.neteaseMusicEnabled then NoTask
    else if Includes(url, "/song") then SongDetail
    else if isTopFrame then NoTask
    else Playlist
  }

  // ---------------------------------------------------------------------
  // Page elements and the buttons they get
  // ---------------------------------------------------------------------

  /** A link as the script reads it: `href` is the browser-resolved
      property, `hrefAttribute` the attribute text the patterns run on. */
  datatype Link = Link(href: string, hrefAttribute: string)

  /** A video card: its first link to a video, if any, and the random
      fallback id `getCardId` would draw when there is none. */
  datatype VideoCard = VideoCard(link: Option<Link>, randomId: string)

  /** A playlist row: its first link to a song, its element id, whether
      it has a share icon, and the random fallback id. */
  datatype PlaylistRow = PlaylistRow(link: Option<Link>, id: string, hasShareButton: bool, randomId: string)

  /** A song detail page: whether it has the share button, and that
      button's `data-res-id` attribute. */
  datatype DetailPage = DetailPage(hasShareButton: bool, resId: Option<string>)

  datatype Element = Card(card: VideoCard) | Row(row: PlaylistRow) | Detail(page: DetailPage)

  /** A video card gets a new button (`custom`, with its own feedback);
      a song's share button is repurposed (`default`). */
  datatype ButtonKind = Custom | Plain

  datatype Button = Button(kind: ButtonKind, request: Background.SongRequest)

  /** What a video button sends: the video id as the name, source `db`. */
  function VideoRequest(bvId: string): Background.SongRequest {
    Background.SongRequest(None, Some(bvId), Some("db"))
  }

  /** What a song button sends: the song id, source `wy`. */
  function SongIdRequest(songId: string): Background.SongRequest {
    Background.SongRequest(Some(songId), None, Some("wy"))
  }

  /** `getCardId`: the key `processedCards` records a card under is its
      video link's resolved `href`, or the random fallback without one. */
  function CardId(card: VideoCard): (id: string)
    ensures card.link.Some? ==> id == card.link.value.href
    ensures card.link.None? ==> id == card.randomId
  {
    match card.link
    case Some(l) => l.href
    case None => card.randomId
  }

  /** `extractBvId`. */
  function CardBvId(card: VideoCard): (r: Option<string>)
    ensures card.link.None? ==> r.None?
    ensures card.link.Some? ==> r == ExtractBvId(card.link.value.hrefAttribute)
  {
    match card.link
    case Some(l) => ExtractBvId(l.hrefAttribute)
    case None => None
  }

  /** `getSongRowId`: the key a row is recorded under is its song link's
      resolved `href`, else the row's element id when non-empty, else the
      random fallback. */
  function RowId(row: PlaylistRow): (id: string)
    ensures row.link.Some? ==> id == row.link.value.href
    ensures row.link.None? && row.id != "" ==> id == row.id
    ensures row.link.None? && row.id == "" ==> id == row.randomId
  {
    match row.link
    case Some(l) => l.href
    case None => OrElse(Some(row.id), row.randomId)
  }

  /** `extractSongId`. */
  function RowSongId(row: PlaylistRow): (r: Option<string>)
    ensures row.link.None? ==> r.None?
    ensures row.link.Some? ==> r == ExtractSongId(row.link.value.hrefAttribute)
  {
    match row.link
    case Some(l) => ExtractSongId(l.hrefAttribute)
    case None => None
  }

  const DetailPrefix := "detail-"

  /** The key under which an element is recorded in `processedCards` once
      it has its button; a detail page has one only when its song id is
      known. */
  function Key(e: Element): Option<string> {
    match e
    case Card(card) => Some(CardId(card))
    case Row(row) => Some(RowId(row))
    case Detail(page) =>
      if page.hasShareButton && Truthy(page.resId) then Some(DetailPrefix + page.resId.value) else None
  }

  /** What else, beyond a new key, an element needs to get its button: a
      card a video id, a row a share icon and a song id, a detail page a
      key at all (the share button and a non-empty song id). */
  predicate Equips(e: Element) {
    match e
    case Card(card) => CardBvId(card).Some?
    case Row(row) => row.hasShareButton && RowSongId(row).Some?
    case Detail(page) => Key(e).Some?
  }

  /** The button a qualifying element gets, asking for its own id: a card
      a custom button for its video id, a row or a detail page a plain one
      for its song id. */
  function ButtonOf(e: Element): Button
    requires Equips(e)
  {
    match e
    case Card(card) => Button(Custom, VideoRequest(CardBvId(card).value))
    case Row(row) => Button(Plain, SongIdRequest(RowSongId(row).value))
    case Detail(page) => Button(Plain, SongIdRequest(page.resId.value))
  }

  /** The set after visiting one element, and the button it got, if any. */
  datatype Visit = Visit(processed: set<string>, button: Option<Button>)

  /** `processVideoCard`: skip a card already recorded; otherwise a card
      whose link yields a video id gets a button and is recorded (the
      insertion point is the card itself, so insertion always happens). */
  function ProcessVideoCard(processed: set<string>, card: VideoCard): (v: Visit)
    ensures CardId(card) in processed ==> v == Visit(processed, None)
    ensures v.button.Some? <==> CardId(card) !in processed && CardBvId(card).Some?
    ensures v.button.Some? ==>
              && v.processed == processed + {CardId(card)}
              && v.button.value == Button(Custom, VideoRequest(CardBvId(card).value))
    ensures v.button.None? ==> v.processed == processed
  {
    var id := CardId(card);
    if id in processed then Visit(processed, None)
    else
      match CardBvId(card)
      case None => Visit(processed, None)
      case Some(bvId) => Visit(processed + {id}, Some(Button(Custom, VideoRequest(bvId))))
  }

  /** `processSongPlaylistRow`: skip a recorded row, a row without a share
      icon, and a row without a song id; otherwise repurpose the icon
      (which always succeeds) and record the row. */
  function ProcessPlaylistRow(processed: set<string>, row: PlaylistRow): (v: Visit)
    ensures RowId(row) in processed ==> v == Visit(processed, None)
    ensures v.button.Some? <==> RowId(row) !in processed && row.hasShareButton && RowSongId(row).Some?
    ensures v.button.Some? ==>
              && v.processed == processed + {RowId(row)}
              && v.button.value == Button(Plain, SongIdRequest(RowSongId(row).value))
    ensures v.button.None? ==> v.processed == processed
  {
    var id := RowId(row);
    if id in processed then Visit(processed, None)
    else if !row.hasShareButton then Visit(processed, None)
    else
      match RowSongId(row)
      case None => Visit(processed, None)
      case Some(songId) => Visit(processed + {id}, Some(Button(Plain, SongIdRequest(songId))))
  }

  /** `processSongDetailPage`: needs the share button and a non-empty song
      id before it looks the page up under `detail-<id>`. */
  function ProcessDetailPage(processed: set<string>, page: DetailPage): (v: Visit)
    ensures v.button.Some? <==>
              page.hasShareButton && Truthy(page.resId) && DetailPrefix + page.resId.value !in processed
    ensures v.button.Some? ==>
              && v.processed == processed + {DetailPrefix + page.resId.value}
              && v.button.value == Button(Plain, SongIdRequest(page.resId.value))
    ensures v.button.None? ==> v.processed == processed
  {
    if !page.hasShareButton then Visit(processed, None)
    else if !Truthy(page.resId) then Visit(processed, None)
    else
      var songId := page.resId.value;
      var id := DetailPrefix + songId;
      if id in processed then Visit(processed, None)
      else Visit(processed + {id}, Some(Button(Plain, SongIdRequest(songId))))
  }

  /** One element, whatever its kind: it gets a button exactly when it
      qualifies and its key is new, and then exactly that key is
      recorded. */
  function VisitElement(processed: set<string>, e: Element): (v: Visit)
    ensures v.button.Some? <==> Equips(e) && Key(e).Some? && Key(e).value !in processed
    ensures v.button.None? ==> v.processed == processed
    ensures v.button.Some? ==>
              && Key(e).Some? && Key(e).value !in processed
              && v.processed == processed + {Key(e).value}
              && v.button.value == ButtonOf(e)
    ensures Key(e).Some? && Key(e).value in processed ==> v.button.None?
  {
    match e
    case Card(card) => ProcessVideoCard(processed, card)
    case Row(row) => ProcessPlaylistRow(processed, row)
    case Detail(page) => ProcessDetailPage(processed, page)
  }

  /** The set after a run of visits, with the keys recorded and the
      buttons made, in order. */
  datatype Sweep = Sweep(processed: set<string>, keys: seq<string>, buttons: seq<Button>)

  /** Visits the elements in order, threading `processedCards` through.
      The set only grows, by exactly the recorded keys; no key is recorded
      twice or was recorded before, so no element is equipped twice. Every
      recorded key belongs to a qualifying element of the scan, and the
      button made with it is that element's own; every qualifying element
      ends up recorded, by its own visit or by an earlier element with the
      same key. */
  function ProcessAll(processed: set<string>, es: seq<Element>): (r: Sweep)
    ensures |r.keys| == |r.buttons| <= |es|
    ensures processed <= r.processed
    ensures forall k :: k in r.processed <==> k in processed || k in r.keys
    ensures forall i :: 0 <= i < |r.keys| ==> r.keys[i] !in processed
    ensures forall i, j :: 0 <= i < j < |r.keys| ==> r.keys[i] != r.keys[j]
    ensures ButtonsOfQualifying(r.keys, r.buttons, es)
    ensures forall j :: 0 <= j < |es| && Equips(es[j]) && Key(es[j]).Some? ==> Key(es[j]).value in r.processed
    ensures forall j :: 0 <= j < |es| && VisitElement(processed, es[j]).button.Some? ==>
              Key(es[j]).value in r.processed
    decreases |es|
  {
    if es == [] then Sweep(processed, [], [])
    else
      var v := VisitElement(processed, es[0]);
      var rest := ProcessAll(v.processed, es[1..]);
      KeysFromTail(es, rest.keys, rest.buttons);
      match v.button
      case None => rest
      case Some(b) =>
        KeyFromHead(es, Key(es[0]).value, b, rest.keys, rest.buttons);
        Sweep(rest.processed, [Key(es[0]).value] + rest.keys, [b] + rest.buttons)
  }

  /** The recorded keys and the buttons made pair up: each key is that of
      a qualifying element of `es`, and the button beside it is that
      element's own. */
  predicate ButtonsOfQualifying(keys: seq<string>, buttons: seq<Button>, es: seq<Element>) {
    && |keys| == |buttons|
    && forall i :: 0 <= i < |keys| ==> ButtonOfSome(keys[i], buttons[i], es)
  }

  /** Some element of `es` has key `k` and own button `b`. */
  predicate ButtonOfSome(k: string, b: Button, es: seq<Element>) {
    exists j :: 0 <= j < |es| && OwnButton(es[j], k, b)
  }

  /** `e` qualifies, `k` is its key and `b` its own button. */
  predicate OwnButton(e: Element, k: string, b: Button) {
    Equips(e) && Key(e) == Some(k) && b == ButtonOf(e)
  }

  /** A pairing with elements of `es[1..]` is one with elements of `es`. */
  lemma KeysFromTail(es: seq<Element>, keys: seq<string>, buttons: seq<Button>)
    requires |es| > 0
    requires ButtonsOfQualifying(keys, buttons, es[1..])
    ensures ButtonsOfQualifying(keys, buttons, es)
  {
    forall i | 0 <= i < |keys|
      ensures ButtonOfSome(keys[i], buttons[i], es)
    {
      var j :| 0 <= j < |es[1..]| && OwnButton(es[1..][j], keys[i], buttons[i]);
      assert es[1..][j] == es[j + 1];
      assert OwnButton(es[j + 1], keys[i], buttons[i]);
    }
  }

  /** The first element's own key and button extend a pairing with `es`. */
  lemma KeyFromHead(es: seq<Element>, k: string, b: Button, keys: seq<string>, buttons: seq<Button>)
    requires |es| > 0 && OwnButton(es[0], k, b)
    requires ButtonsOfQualifying(keys, buttons, es)
    ensures ButtonsOfQualifying([k] + keys, [b] + buttons, es)
  {
    var ks, bs := [k] + keys, [b] + buttons;
    assert ButtonOfSome(k, b, es);
    forall i | 0 <= i < |ks|
      ensures ButtonOfSome(ks[i], bs[i], es)
    {
      if i > 0 {
        assert ks[i] == keys[i - 1] && bs[i] == buttons[i - 1];
      }
    }
  }

  /** Cards run through the same scan (`processVideoCards`). */
  function Cards(cards: seq<VideoCard>): seq<Element> {
    seq(|cards|, i requires 0 <= i < |cards| => Card(cards[i]))
  }

  /** The video site's mutation observer: when its switch is off, added
      cards are left alone and nothing is recorded; otherwise every card
      with a video id ends up recorded, nothing but new keys of such cards
      is, and the button made with each key asks for that card's video. */
  function OnBilibiliMutation(flags: Flags, processed: set<string>, cards: seq<VideoCard>): (r: Sweep)
    ensures !flags.bilibiliEnabled ==> r == Sweep(processed, [], [])
    ensures |r.keys| == |r.buttons|
    ensures forall k :: k in r.processed <==> k in processed || k in r.keys
    ensures forall i :: 0 <= i < |r.keys| ==> r.keys[i] !in processed
    ensures forall i, j :: 0 <= i < j < |r.keys| ==> r.keys[i] != r.keys[j]
    ensures ButtonsOfCards(r.keys, r.buttons, cards)
    ensures flags.bilibiliEnabled ==>
              forall j :: 0 <= j < |cards| && CardBvId(cards[j]).Some? ==> CardId(cards[j]) in r.processed
  {
    if !flags.bilibiliEnabled then Sweep(processed, [], [])
    else
      var es := Cards(cards);
      var r := ProcessAll(processed, es);
      assert forall j :: 0 <= j < |cards| ==> Key(es[j]) == Some(CardId(cards[j])) && (Equips(es[j]) <==> CardBvId(cards[j]).Some?);
      CardKeys(cards, es, r.keys, r.buttons);
      r
  }

  /** Each key in `keys` is that of a card with a video id, and the button
      beside it is the custom button asking for that card's video. */
  predicate ButtonsOfCards(keys: seq<string>, buttons: seq<Button>, cards: seq<VideoCard>) {
    && |keys| == |buttons|
    && forall i :: 0 <= i < |keys| ==> VideoButtonOf(keys[i], buttons[i], cards)
  }

  /** Some card with a video id has key `k`, and `b` asks for its video. */
  predicate VideoButtonOf(k: string, b: Button, cards: seq<VideoCard>) {
    exists j :: 0 <= j < |cards| && CardId(cards[j]) == k && CardBvId(cards[j]).Some?
                && b == Button(Custom, VideoRequest(CardBvId(cards[j]).value))
  }

  /** A pairing with the elements of `Cards(cards)` is one with the cards. */
  lemma CardKeys(cards: seq<VideoCard>, es: seq<Element>, keys: seq<string>, buttons: seq<Button>)
    requires es == Cards(cards)
    requires ButtonsOfQualifying(keys, buttons, es)
    ensures ButtonsOfCards(keys, buttons, cards)
  {
    forall i | 0 <= i < |keys|
      ensures VideoButtonOf(keys[i], buttons[i], cards)
    {
      assert ButtonOfSome(keys[i], buttons[i], es);
      var j :| 0 <= j < |es| && OwnButton(es[j], keys[i], buttons[i]);
      assert es[j] == Card(cards[j]);
      assert CardId(cards[j]) == keys[i] && CardBvId(cards[j]).Some?
             && buttons[i] == Button(Custom, VideoRequest(CardBvId(cards[j]).value));
    }
  }

  /** Scanning the same page twice adds nothing the second time. */
  lemma {:induction false} RescanAddsNothing(processed: set<string>, es: seq<Element>)
    ensures var first := ProcessAll(processed, es);
            ProcessAll(first.processed, es) == Sweep(first.processed, [], [])
  {
    var first := ProcessAll(processed, es);
    RescanFrom(processed, es, first.processed);
  }

  /** Every element whose key is already in a set that contains all keys
      a scan of `es` can record is skipped. */
  lemma {:induction false} RescanFrom(processed: set<string>, es: seq<Element>, later: set<string>)
    requires ProcessAll(processed, es).processed <= later
    ensures ProcessAll(later, es) == Sweep(later, [], [])
    decreases |es|
  {
    if es != [] {
      var v := VisitElement(processed, es[0]);
      var w := VisitElement(later, es[0]);
      assert v.processed <= ProcessAll(v.processed, es[1..]).processed;
      if Key(es[0]).Some? {
        if v.button.Some? {
          assert Key(es[0]).value in later;
        } else {
          KeylessOrSkipped(processed, later, es[0]);
        }
      } else {
        assert w.button.None? by { KeylessOrSkipped(processed, later, es[0]); }
      }
      assert w.button.None? by {
        if Key(es[0]).Some? && v.button.None? { KeylessOrSkipped(processed, later, es[0]); }
      }
      RescanFrom(v.processed, es[1..], later);
    }
  }

  /** An element that got no button from a smaller set gets none from a
      larger one. */
  lemma KeylessOrSkipped(processed: set<string>, later: set<string>, e: Element)
    requires processed <= later
    requires VisitElement(processed, e).button.None?
    ensures VisitElement(later, e).button.None?
  {
  }

  // ---------------------------------------------------------------------
  // Feedback after a click
  // ---------------------------------------------------------------------

  const ToastSucceeded := "点歌成功！"
  const SendFailed := "发送失败"
  const ToastFailed := "点歌失败，请重试"
  const TitleFailed := "点歌失败"

  /** What the user sees: whether it worked, the toast text, and, for a
      `custom` button only, its new tooltip. */
  datatype Feedback = Feedback(succeeded: bool, toast: string, title: Option<string>)

  /** The `catch` block: the error's message, or a fixed text when it is
      empty. */
  function Caught(kind: ButtonKind, message: string): Feedback {
    Feedback(false, OrElse(Some(message), ToastFailed),
             if kind == Custom then Some(OrElse(Some(message), TitleFailed)) else None)
  }

  /** The page's `handleSongRequest` once the runtime message settles:
      `delivery` is the background's response, or the message of a
      rejected `sendMessage`. A response with `success` false becomes a
      thrown error carrying the response's `error` (or a fixed text). */
  function RequestFeedback(kind: ButtonKind, delivery: Result<Background.SongResponse, string>): (f: Feedback)
    ensures f.succeeded <==> delivery.Ok? && delivery.value.Succeeded?
    ensures f.succeeded ==> f.toast == ToastSucceeded
    ensures f.toast != ""
    ensures f.title.Some? <==> kind == Custom
    ensures delivery.Ok? && delivery.value.Failed? ==> f.toast == OrElse(Some(delivery.value.error), SendFailed)
    ensures delivery.Err? ==> f.toast == OrElse(Some(delivery.error), ToastFailed)
  {
    match delivery
    case Ok(response) =>
      (match response
       case Succeeded(message, _) =>
         Feedback(true, ToastSucceeded,
                  if kind == Custom then Some(OrElse(Some(message), ToastSucceeded)) else None)
       case Failed(error) => Caught(kind, OrElse(Some(error), SendFailed)))
    case Err(message) => Caught(kind, message)
  }

  /** The runtime message a button sends. */
  function ToMessage(request: Background.SongRequest): (m: Background.Message)
    ensures m.action == Background.RequestSongAction
    ensures m.id == request.id && m.name == request.name && m.source == request.source
  {
    Background.Message(Background.RequestSongAction, request.id, request.name, request.source)
  }
}
