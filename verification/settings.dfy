/** The user's settings, as the popup's form holds them and as
    `chrome.storage.sync` returns them, plus the two JavaScript idioms the
    extension uses to read stored values: `value || fallback` for text and
    `value !== false` for switches. */
module Settings {
  import opened Wrappers

  /** The settings object the popup builds and writes to storage. */
  datatype Config = Config(
    endPoint: string,
    houseId: string,
    housePwd: string,
    userName: string,
    userEmail: string,
    bilibiliEnabled: bool,
    neteaseMusicEnabled: bool)

  /** What `chrome.storage.sync.get` yields: each key may be absent. */
  datatype Stored = Stored(
    endPoint: Option<string>,
    houseId: Option<string>,
    housePwd: Option<string>,
    userName: Option<string>,
    userEmail: Option<string>,
    bilibiliEnabled: Option<bool>,
    neteaseMusicEnabled: Option<bool>)

  /** Storage before anything was saved. */
  const Blank := Stored(None, None, None, None, None, None, None)

  /** `chrome.storage.sync.set(config)` writes every key of the object. */
  function Store(c: Config): (s: Stored)
    ensures s.endPoint == Some(c.endPoint) && s.houseId == Some(c.houseId)
    ensures s.housePwd == Some(c.housePwd)
    ensures s.userName == Some(c.userName) && s.userEmail == Some(c.userEmail)
    ensures s.bilibiliEnabled == Some(c.bilibiliEnabled)
    ensures s.neteaseMusicEnabled == Some(c.neteaseMusicEnabled)
  {
    Stored(Some(c.endPoint), Some(c.houseId), Some(c.housePwd), Some(c.userName),
           Some(c.userEmail), Some(c.bilibiliEnabled), Some(c.neteaseMusicEnabled))
  }

  /** JavaScript truthiness of a string that may be `undefined`: only a
      present, non-empty string is truthy. */
  predicate Truthy(o: Option<string>) {
    o.Some? && o.value != ""
  }

  /** `o || fallback`. */
  function OrElse(o: Option<string>, fallback: string): (r: string)
    ensures Truthy(o) ==> r == o.value
    ensures !Truthy(o) ==> r == fallback
  {
    if o.Some? && o.value != "" then o.value else fallback
  }

  /** `stored !== false`: a switch is on unless storage holds exactly
      `false`, so a switch never saved counts as on. */
  function SwitchEnabled(stored: Option<bool>): (on: bool)
    ensures stored.None? ==> on
    ensures stored.Some? ==> on == stored.value
  {
    stored != Some(false)
  }
}
