# alisten-request, modelled in Dafny

alisten-request is a browser extension that adds a "request this song"
button to bilibili video cards and NetEase Cloud Music song lists, and
forwards the request to an alisten room server. It has three scripts:

- the **content script** (`content.js`) recognises the site, reads the
  video id (`BV…`) or song id out of each card's link, adds or repurposes
  one button per card, row or detail page, and reports the outcome of a
  click;
- the **service worker** (`background.js`) answers a `requestSong`
  message by reading the stored settings, building the `POST /music/pick`
  body and interpreting the server's reply;
- the **popup** (`popup.js`) loads, checks and saves the settings and
  tests the connection with `POST /house/enter`.

The model keeps the decisions these scripts make and leaves the browser
to parameters: what storage returns is a `Settings.Stored` value (every
key optional), what `fetch` yields is an `Http.Reply` (a rejection, or a
status with a body that may not parse), the random fallback ids of cards
and rows are fields of the element, and the DOM is reduced to the few
values the script reads from it.

Modules:

| file | module | content |
|---|---|---|
| wrappers.dfy | `Wrappers` | `Option`, `Result` |
| strings.dfy | `Strings` | `startsWith`, `includes`, `trim` with the ECMAScript white-space set, decimal rendering of numbers |
| settings.dfy | `Settings` | the settings record, stored values, JavaScript's `value \|\| fallback` and `value !== false` |
| http.dfy | `Http` | fetch replies and thrown errors |
| endpoint.dfy | `Endpoint` | `normalizeEndPoint`, `isValidEndPoint` |
| pattern.dfy | `Pattern` | the two capturing regular expressions of the content script |
| background.dfy | `Background` | body building, the pick request and its reply, the message listener |
| popup.dfy | `Popup` | loading, saving and testing the settings |
| content.dfy | `Content` | site type, switches, `init`, de-duplication, buttons, click feedback |
| flows.dfy | `Flows` | properties that cross the three scripts |

Three facts about the code shape the model:

- the extension reaches the room server only through `fetch` POSTs
  (`/music/pick` and `/house/enter`); no script opens a WebSocket, so
  there is no session state in the model;
- a failed pick's reason is read only from the body's `message`
  (`background.js:55`), as in `Background.Interpret`;
- `normalizeEndPoint` exists twice (`background.js:4-10` and
  `popup.js:120-126`), with identical bodies; the model has one
  `Endpoint.Normalize` for both.

## Model

| member | source | states |
|---|---|---|
| Strings.Includes | content.js:68-77 | `includes` holds exactly when the needle occurs at some offset of the text |
| Strings.IncludesFrom | content.js:71-73 | scanning from offset `k` finds the needle exactly when it occurs at some offset at or after `k` |
| Strings.OccursAtIsStartsWith | content.js:71 | the needle occurs at `k` exactly when the text from `k` starts with it |
| Strings.StartsWithAppend | background.js:42 | appending a path to a URL keeps the URL's scheme prefix |
| Strings.Trim | popup.js:59-63 | the trimmed value is a contiguous piece of the input with only white space dropped around it, and it neither starts nor ends with white space |
| Strings.TrimIdempotent | popup.js:59-63 | trimming a trimmed field changes nothing |
| Strings.TrimOfTrimmed | popup.js:59-63 | a value without white space at either end is its own trim |
| Strings.TrimEmptyIffBlank | popup.js:69-72 | a field trims to empty (and so counts as missing) exactly when it holds only white space |
| Strings.TrimStart | popup.js:59 | the result is a suffix and every dropped character is white space |
| Strings.TrimEnd | popup.js:59 | the result is a prefix and every dropped character is white space |
| Strings.DecimalString | background.js:55 | the rendered status is a non-empty string of digits with no leading zero |
| Strings.DecimalRoundTrip | background.js:55 | reading back the rendered status gives the status |
| Strings.DecimalStringInjective | popup.js:187 | two different statuses never render alike |
| Settings.Store | popup.js:80 | writing the settings stores every one of their seven keys |
| Settings.OrElse | background.js:66-73 | `value \|\| fallback` is the value when it is a non-empty string, the fallback otherwise |
| Settings.SwitchEnabled | content.js:19-20 | a switch is on when nothing is stored and otherwise takes the stored value |
| Endpoint.Normalize | background.js:4-10 | the result starts with `http://` or `https://` and ends with the whole address given |
| Endpoint.NormalizeKeepsScheme | background.js:6-9 | an address with an HTTP scheme is returned unchanged |
| Endpoint.NormalizeAddsHttps | background.js:6-8 | any other address, the empty one included, gets exactly `https://` in front |
| Endpoint.NormalizeIdempotent | popup.js:120-126 | normalizing twice is normalizing once |
| Endpoint.HostPrefixLength | popup.js:115-116 | the host run found is the longest prefix of letters, digits, `.` and `-` |
| Endpoint.HostPortScan | popup.js:115-116 | the scanner accepts exactly the strings that split into a non-empty host run and an optional `:digits`, and the split is unique |
| Endpoint.IsValidEndPoint | popup.js:113-118 | an address is valid exactly when what follows its `http://` or `https://`, if any, is a host run with an optional port |
| Endpoint.SchemeIsNotHostPort | popup.js:115-116 | `domainPattern` never accepts a string starting with `http://` or `https://`, and no string starts with both |
| Endpoint.IsValidEndPointSpec | popup.js:113-118 | `isValidEndPoint` holds exactly for an optional `http://`/`https://`, a non-empty host run and an optional port of at least one digit |
| Endpoint.HostPortCharacters | popup.js:115-116 | a matching host and port contain no `/` and end in a host character |
| Endpoint.ValidEndPointRejects | popup.js:113-118 | a valid address is non-empty, has no `/` after its scheme, does not end in `/` or `:`, and has no `/` at all without a scheme |
| Endpoint.NoSlashNoScheme | popup.js:115 | a string with no `/` has no HTTP scheme |
| Endpoint.SlashRejected | popup.js:113-118 | a `/` after the scheme makes the address invalid |
| Endpoint.AcceptsBareHostWithPort | popup.js:116 | `localhost:8080` is accepted |
| Endpoint.AcceptsHttpsUrl | popup.js:115 | `https://room.example.com` is accepted |
| Endpoint.RejectsEmpty | popup.js:113-118 | the empty address is refused |
| Endpoint.RejectsTrailingSlash | popup.js:116 | `example.com/` is refused |
| Endpoint.RejectsBareColon | popup.js:116 | a host followed by `:` and no digit is refused |
| Endpoint.RejectsPath | popup.js:115 | `https://example.com/api` is refused |
| Endpoint.RejectsOtherScheme | popup.js:115-116 | an `ftp://` address is refused |
| Endpoint.ValidEndPointAccepts | popup.js:113-118 | an optional scheme followed by a host run and optional port is accepted |
| Endpoint.NormalizeValid | popup.js:90-93 | a valid address normalizes to the URL form, and a scheme-less one gets exactly `https://` in front |
| Pattern.RunLength | content.js:149 | the run counted is the longest run of the class from the offset (a greedy `+`) |
| Pattern.FindFrom | content.js:149 | the offset found is the first one at or after `k` where the pattern matches, and none is found exactly when none matches |
| Pattern.FirstCapture | content.js:149-150 | no capture exactly when the pattern matches nowhere; otherwise the capture is the group of the leftmost match |
| Pattern.CaptureAt | content.js:149-150 | at the leftmost match offset the matched literal's tail and the whole run after it form the group |
| Pattern.GroupOfMatch | content.js:149-150 | wherever the pattern matches, the literal's last `keep` characters and the whole run after it form a group |
| Pattern.LiteralTail | content.js:149 | the captured group begins with the last `keep` characters of the literal (`BV` for videos) |
| Pattern.GroupAtIntro | content.js:149-150 | bounds, literal tail, run and maximality together make a group |
| Pattern.ExtractBvId | content.js:145-151 | none exactly when no `/video/BV` is followed by a letter or digit; otherwise `BV` plus the whole letter-and-digit run of the leftmost match |
| Pattern.ExtractSongId | content.js:222-228 | none exactly when no `/song?id=` is followed by a digit; otherwise the whole digit run of the leftmost match |
| Pattern.GroupDetermined | content.js:150 | the capture is determined by the match offset |
| Pattern.GroupRun | content.js:149 | a group's run is exactly the maximal run after the literal |
| Pattern.RunLengthUnique | content.js:149 | the greedy run is the only run the next character does not extend |
| Pattern.ExtractBvIdExample | content.js:149 | `/video/BV1x?p` yields `BV1x`: the id stops at `?` |
| Pattern.ExtractSongIdExample | content.js:226 | `/song?id=42&` yields `42`: the id stops at `&` |
| Pattern.ExtractSongIdNeedsDigits | content.js:226-227 | `/song?id=` and `/song?id=x1` yield no id |
| Background.BuildSongRequestBody | background.js:63-75 | each body field is the configured or requested value when that is a non-empty string and its default (`""`, `点歌插件`, `db`) otherwise; the room id is copied |
| Background.BodyNamesSenderAndSource | background.js:68-73 | the body always has a non-empty user name and source |
| Background.Interpret | background.js:49-56 | success exactly for a 2xx reply whose body parses; other statuses fail with the body's `message` or `服务器错误 (<status>)`; an unparsable body or a failed fetch fails with its own error's message |
| Background.ServerError | background.js:55 | the synthesized error text is `服务器错误 (`, then a non-empty run of digits, then `)` |
| Background.ServerErrorNamesStatus | background.js:55 | the digits of the synthesized error text read back as the status |
| Background.HandleSongRequest | background.js:34-60 | a failed storage read fails the call with its error and sends nothing; otherwise nothing is sent exactly when the stored address or room id is missing or empty, and then the call fails with the fixed configuration message; otherwise the body is built, the URL is the normalized address plus `/music/pick`, and the reply decides |
| Background.IncompleteConfigIgnoresServer | background.js:36-39 | with unreadable or incomplete settings the outcome does not depend on the server |
| Background.PickTarget | background.js:41-42 | every pick goes to an `http(s)://` URL ending in `/music/pick` and carries a non-empty room id |
| Background.OnMessage | background.js:16-28 | exactly a `requestSong` message gets a response; it is a failure carrying the error's message exactly when the request failed, and a success with the message and data otherwise |
| Background.SuccessMeansAccepted | background.js:16-28 | a response reports success exactly when the settings were read and are complete and the server answered 2xx with a parsable body; a failed read is answered with its error |
| Popup.LoadConfig | popup.js:29-54 | a failed storage read leaves the form as it was and shows `加载配置失败` as an error; a successful read fills the form and shows nothing |
| Popup.LoadForm | popup.js:29-54 | each input takes the stored value when it is a non-empty string and keeps its blank value otherwise; a switch is on unless `false` was stored |
| Popup.Trimmed | popup.js:58-66 | every text field is trimmed; the switches are kept |
| Popup.SaveConfig | popup.js:56-111 | a missing trimmed address or room id is refused first, then an invalid address, then a rejected write (`保存配置失败`); the save succeeds, with `配置保存成功`, exactly when all three pass; what is written is the trimmed form, with a valid address, a room id and no white space around any field; the active tab is told only after a successful write, with the address normalized |
| Popup.SaveAcceptsExactly | popup.js:69-80 | saving succeeds exactly when the trimmed address and room id are present and the address is valid |
| Popup.SaveWriteFails | popup.js:80-110 | when storage rejects the write of settings that pass every check, nothing is saved, no page is told, and the toast is `保存配置失败`; when it accepts, the save succeeds with `配置保存成功` |
| Popup.WritableIsTrimmed | popup.js:58-63 | trimming settings that a save can write changes nothing |
| Popup.SaveWritable | popup.js:56-80 | saving settings that a save can write writes them unchanged |
| Popup.NotifiedDiffersOnlyInEndPoint | popup.js:88-97 | for saved settings, the settings sent to the page equal the stored ones except for the address, which is normalized and in URL form |
| Popup.SaveReloadSave | popup.js:29-80 | saved settings load back into the popup unchanged and save again to the same settings |
| Popup.LoadStored | popup.js:41-49 | loading saved settings into an empty popup restores them, without a toast |
| Popup.TrimmedIsFixed | popup.js:58-66 | trimming the form twice is trimming it once |
| Popup.ClassifyStatus | popup.js:177-188 | 2xx, 404 and 401 are told apart exactly; any other status becomes `HTTP <status>` with the status readable back |
| Popup.TestRequest | popup.js:159-175 | nothing is sent exactly when the trimmed address or room id is empty; otherwise the request goes to `/house/enter` under the normalized address with the trimmed room id and password |
| Popup.VerdictToast | popup.js:177-195 | a success toast only for a found room, a warning for a missing room or a wrong password, and for any other status the `catch` block's text, never the unreachable-server one |
| Popup.ReplyToast | popup.js:164-195 | a rejected `fetch` goes to the `catch` block; a response is judged by its status alone: success exactly for 2xx, `连接测试失败: HTTP <status>` for statuses other than 2xx, 404 and 401 |
| Popup.CatchToast | popup.js:189-195 | a `TypeError` mentioning `fetch` reads as an unreachable server; any other error shows its message after a fixed prefix |
| Popup.TestConnection | popup.js:146-200 | nothing is sent exactly when the trimmed address or room id is empty (a warning); otherwise `/house/enter` under the normalized address gets the trimmed room id and password, and the toast follows the status or the fetch error |
| Popup.StatusToasts | popup.js:177-195 | each status toast belongs to exactly one kind of status, and other statuses show `连接测试失败: HTTP <status>` |
| Popup.TestSkipsFormatCheck | popup.js:159-166 | any form whose trimmed address has a `/` after its scheme (and whose room id is present) gets a connection-test request but is never saved |
| Content.SiteTypeOf | content.js:68-77 | bilibili exactly when the host contains `bilibili.com`; NetEase exactly when it does not but contains `music.163.com` |
| Content.LoadFlags | content.js:13-25 | after a read, each switch is on exactly when storage does not hold `false`; a failed read leaves the switches as they were |
| Content.Init | content.js:40-57 | the switches are reloaded first; then the card scan starts exactly on bilibili with its switch on, the NetEase handler exactly on NetEase with its switch on, and nothing elsewhere |
| Content.FirstInit | content.js:4-57 | on a fresh page a site's work starts exactly when its stored switch is not `false`, and a failed read leaves both sites on |
| Content.OnConfigUpdated | content.js:28-35 | the message's switches apply at once, then `init` reloads over them, which decides the switches and the work |
| Content.FailedReloadKeepsNotified | content.js:22-34 | when the reload after a `configUpdated` message fails, the message's switches stay and decide the work |
| Content.NeteaseOnLoad | content.js:105-117 | with the switch on, an address containing `/song` is a detail page; other addresses process the playlist only inside a frame |
| Content.CardId | content.js:140-143 | a card is recorded under its video link's resolved `href`, or under its random fallback id when it has no such link |
| Content.CardBvId | content.js:145-151 | a card without a video link has no id; otherwise the id is the pattern's capture from the link's attribute |
| Content.RowId | content.js:217-220 | a row is recorded under its song link's resolved `href`; without one, under its element id when that is non-empty, else under its random fallback id |
| Content.RowSongId | content.js:222-228 | a row without a song link has no id; otherwise the id is the pattern's capture from the link's attribute |
| Content.ProcessVideoCard | content.js:127-138 | a card gets a button exactly when its key is new and its link yields a video id; the button asks for that id with source `db`, and exactly its key is recorded |
| Content.ProcessPlaylistRow | content.js:182-194 | a row gets a button exactly when its key is new, it has a share icon and its link yields a song id; the button asks for that id with source `wy`, and exactly its key is recorded |
| Content.ProcessDetailPage | content.js:196-215 | a detail page gets a button exactly when it has the share button, a non-empty song id and `detail-<id>` is new |
| Content.VisitElement | content.js:127-215 | an element gets a button exactly when it qualifies (a video id; a share icon and a song id; a share button and a non-empty id) and its key is new; then exactly that key is recorded and the button is the element's own: a custom one for a card's video id from `db`, a plain one for a row's or detail page's song id from `wy` |
| Content.ProcessAll | content.js:122-125 | the processed set only grows, by exactly the keys recorded, one button per key; no key is recorded twice or was recorded before; each recorded key is that of a qualifying element of the scan and the button beside it is that element's own; every qualifying element (in particular every one that would get a button from the starting set) ends up recorded |
| Content.OnBilibiliMutation | content.js:79-103 | with the switch off nothing is processed; otherwise every card with a video id ends up recorded, only new keys of such cards are recorded, each once, and the button made with each key is the custom button asking for that card's video id |
| Content.RescanAddsNothing | content.js:122-138 | scanning the same elements again adds no button and records nothing |
| Content.RescanFrom | content.js:129 | elements whose keys were recorded are skipped |
| Content.KeylessOrSkipped | content.js:129 | an element refused under a smaller set is refused under a larger one |
| Content.RequestFeedback | content.js:267-315 | a click succeeds exactly when the response says so; the toast is never empty and carries the service worker's error, or `发送失败`, or the delivery error, or `点歌失败，请重试`; only video buttons get a new tooltip |
| Content.ToMessage | content.js:276-279 | the runtime message has action `requestSong` and the button's id, name and source |
| Flows.Click | content.js:267-295 | a click succeeds exactly when the settings were read and are complete and the server accepted the pick; a storage error, an incomplete configuration, a server's error text and a fetch error reach the toast as they are |
| Flows.FailureTextPreserved | content.js:294-302 | a non-empty error from the service worker is what the toast and tooltip show |
| Flows.VideoButtonPick | content.js:162 | a video button's pick body carries the `BV…` id as name, no id and source `db` |
| Flows.SongButtonPick | content.js:241 | a playlist button's pick body carries the decimal song id as id, no name and source `wy` |
| Flows.DetailButtonPick | content.js:205-214 | a detail page's pick body carries its `data-res-id` as id with source `wy` |
| Flows.SavedSettingsReachServer | popup.js:80 | for saved settings the service worker posts to the saved address in URL form plus `/music/pick`, with the saved room id and password |
| Flows.TestAndPickShareServer | popup.js:165-166 | with saved settings loaded into the popup, the connection test and the picks use the same normalized address |
| Flows.TestUsesSavedAddress | popup.js:165-175 | testing saved settings posts their room id and password to their normalized address plus `/house/enter` |
| Flows.NotifiedFlagsAgree | popup.js:80-97 | the switches sent to the page with the settings are the ones its reload of storage confirms |
| Flows.SwitchOffStopsPage | content.js:44-46 | switching bilibili off in the popup leaves the page idle after the update |

## Left out

- DOM work (creating, inserting and styling buttons, toasts, the button's
  temporary icons and their 2-second reset) is not modelled; a page
  element is the values the script reads from it.
- Timers (the 500 ms delay on NetEase, the toast timeouts) and
  `Math.random` are not modelled; random fallback ids are element fields.
- The chrome APIs are inputs: what `chrome.storage.sync.get` yields (the
  stored values, or a rejection with its error's message), the active
  tab's presence, a failed `chrome.storage.sync.set`, and the server's
  reply. A failed read propagates to the page's response in the service
  worker, shows a toast in the popup, and is only logged in the content
  script, which keeps its switches.
- Stored values other than strings and booleans are not modelled; the
  extension writes only those, and JavaScript truthiness of numbers or
  objects does not arise.
- A failed pick whose body is JSON `null` (reading `message` of null
  throws a `TypeError`) is not modelled: a parsed body is an object.
- A `sendMessage` that resolves with no response (reading `success` of
  `undefined`) is folded into a failed delivery with its error's message.
- The popup's `loadVersion`, `showToast` and the test button's label
  changes are display only.
- Content.OnBilibiliMutation: takes the cards to scan as a list; the
  choice between rescanning the whole page and processing the added node
  itself is DOM work.
- Content.OnConfigUpdated: does not model the observers a repeated `init`
  registers again; `Content.RescanAddsNothing` shows the repeated scans
  add no buttons.
- Flows.Click: assumes the runtime delivers the message; a failed
  delivery is covered by `Content.RequestFeedback`.
