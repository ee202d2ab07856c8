# User-Agent Switcher: a Dafny model

This project models the core of a browser extension that rewrites the
outgoing `User-Agent` request header. It covers three scripts.

- **`background.js`**, the service worker. `setUserAgent` turns a profile into
  a final user-agent string. An "append" profile gives a fixed Chrome baseline,
  a space and the profile's string. Any other mode gives the profile's string
  verbatim. The worker then removes every rule from the browser's dynamic rule
  table and installs either nothing or one header-overwrite rule: id 1,
  priority 1, URL filter `*`, fifteen resource types, a single `set` of the
  `user-agent` request header. `updateBadge` chooses the toolbar badge's text,
  colour and title from the stored list and active id. The three listeners
  (runtime messages, storage changes, installation) call these two.
- **`options.js`**, the options page. It seeds the defaults, adds a profile
  from the form (with validation, trimming and upper-casing of the alias), and
  deletes a profile. A deleted active profile makes the default one active. It
  also checks the hex-colour field and renders the profile cards.
- **`popup.js`**, the popup. It seeds the defaults, renders the list with
  fallbacks, and activates a profile.

The browser is abstract state:

- `chrome.storage.local` is the class `Storage.Store`. Its `userAgents` and
  `activeId` may each be absent.
- The dynamic rule table is the class `Rules.RuleEngine`. Its update removes
  first, then adds, and refuses as a whole when an added id would be taken
  twice.
- The toolbar action is the class `Background.ActionBadge`.

Each handler is one atomic step. Messages between the pages and the worker
are values of `Profiles.Message`: a handler returns the message it sends, and
`Background.OnMessage` consumes it.

Modules: `Wrappers` (Option, Result), `Text` (JavaScript `trim`,
`toUpperCase`, `substring`, the colour regular expression), `Profiles`,
`Rules`, `Storage`, `Background`, `Options`, `Popup`.

Facts of the scripts the model keeps:

- The manual rule has id 1 and priority 1.
- `setUserAgent` removes every installed rule, whatever its id.
- The scripts install no per-domain rules, use no ids from 1000 and compile
  no domain patterns, so the model has none of these.

## Model

| member | source | states |
|---|---|---|
| Text.Trim | options.js:187-190 | `trim`: a slice of the input with only whitespace cut off on each side, neither starting nor ending with whitespace, empty exactly when the input is all whitespace |
| Text.Upper | options.js:187 | `toUpperCase`: same length, each character mapped alone, no lower-case ASCII letter left |
| Text.Prefix | popup.js:78 | `substring(0, n)`: a prefix of the string of length min(n, length) |
| Text.UpperChar | options.js:187 | `toUpperCase` on one character: a lower-case ASCII letter becomes the upper-case letter 32 code points below it; every other character is unchanged |
| Text.IsHexColor | options.js:72 | `/^#[0-9A-F]{6}$/i`: a `#` followed by exactly six hexadecimal digits of either case, and only ASCII characters |
| Text.HexColorIgnoresCase | options.js:72 | a value passes the colour check exactly when its upper-cased form does |
| Profiles.FindById | background.js:118 | `find` by id: absent exactly when no profile has the id, otherwise a member of the list with that id |
| Profiles.FindByIdFirst | popup.js:105 | `find` returns the first match: in `a + b` a match in `a` wins |
| Profiles.WithoutId | options.js:241 | the filter keeps exactly the profiles with another id |
| Profiles.WithoutIdConcat | options.js:241 | the filter keeps order: filtering a concatenation filters each part |
| Profiles.WithoutAbsentId | options.js:241 | filtering an id nobody has leaves the list unchanged |
| Profiles.CountIdWithoutId | options.js:241 | after the filter no profile has the id and every other id keeps its count |
| Profiles.DefaultListWellFormed | options.js:2-30 | the built-in list has exactly one default profile, first, with an empty user-agent |
| Profiles.WellFormedDefault | options.js:2-11 | a list keeping that invariant yields, on lookup of the default id, a profile with an empty user-agent |
| Profiles.AppendKeepsWellFormed | options.js:212 | appending a non-default profile keeps the invariant |
| Profiles.WithoutIdKeepsWellFormed | options.js:241 | filtering a non-default id keeps the invariant and the default profile |
| Profiles.FindByIdAfterFilter | options.js:251 | the filter does not change the lookup of any other id |
| Profiles.TextColorOf | popup.js:81 | badge text colour: never empty, the stored one when present, `#ffffff` otherwise |
| Profiles.BgColorOf | popup.js:82 | badge colour: never empty, the stored one when present, `#1a73e8` otherwise |
| Rules.FinalUserAgent | background.js:43-61 | none exactly for a missing profile, an empty string or the default id; otherwise the profile's string ends the result, and is the whole result exactly when the mode is not "append" |
| Rules.AppendModeValue | background.js:52-57 | append mode gives the baseline, one space and the profile's string |
| Rules.BuildRule | background.js:64-97 | id 1, priority 1, `modifyHeaders`, URL filter `*`, the fixed resource types, one header operation |
| Rules.ResourceTypesDistinct | background.js:79-95 | fifteen distinct resource types |
| Rules.BuildRuleRoundTrip | background.js:67-75 | the built rule is a single `set` of `user-agent` to exactly the string it was built from |
| Rules.DesiredRules | background.js:43-101 | at most one rule; none exactly when there is no final user-agent; each rule has id 1 and sets the final user-agent |
| Rules.DesiredRulesEffect | background.js:67-96 | every request of a listed type leaves with the final user-agent whatever header it had (overwrite, not merge), or its own header when there is none |
| Rules.Ids | background.js:35 | `map(rule => rule.id)`, element by element |
| Rules.WithoutIds | background.js:38-40 | removal keeps exactly the rules whose id is not listed |
| Rules.RemoveAllIds | background.js:34-41 | removing the ids of every installed rule empties the table |
| Rules.RemoveListed | background.js:34-41 | removing a list of ids that names every rule empties the table |
| Rules.WithoutIdsKeepsDistinct | background.js:38-40 | removal keeps rule ids unique |
| Rules.RuleEngine.GetDynamicRules | background.js:34 | returns the installed rules |
| Rules.RuleEngine.UpdateDynamicRules | background.js:38-40 | removes, then adds; refuses as a whole on an id clash; keeps ids unique |
| Storage.ActiveOrDefault | background.js:116 | the stored id when non-empty, the default id otherwise |
| Storage.Seeded | options.js:43-48 | a store without a list gets the built-in list and `default` active; a store with one (even empty) is left as it is; a list is always present afterwards |
| Storage.SeededProperties | popup.js:40-49 | seeding writes only into a store without a list (an empty list counts as present), is idempotent, and leaves a well-formed list with the default profile active |
| Storage.InitializeUserAgents | options.js:40-49 | the store afterwards is the seeded store |
| Background.ChooseBadge | background.js:114-140 | no change when the active profile is missing; otherwise its name in the title, and a blank badge with the colour untouched for the default id, or its alias on its colour |
| Background.ApplyBadge | background.js:123-139 | no choice leaves the badge as it was; a choice sets text and title, and the colour only when it names one |
| Background.ApplyBadgeIdempotent | background.js:120-139 | applying the same badge choice twice equals applying it once |
| Background.ActionBadge.Set | background.js:123-139 | writes text and title, and the colour only when one is chosen |
| Background.UpdateBadge | background.js:112-144 | the badge afterwards is the old badge with the choice applied |
| Background.SetUserAgent | background.js:31-109 | the table afterwards is exactly the desired rules for the profile, whatever it held; no old rule other than that one survives; the engine never refuses; ids unique; badge refreshed |
| Background.SetUserAgentTwice | background.js:34-101 | two calls with the same profile leave the same table |
| Background.OnMessage | background.js:2-6 | a `setUserAgent` message installs the desired rules for its profile and refreshes the badge; any other message changes nothing |
| Background.OnStorageChanged | background.js:9-13 | a change of `activeId` in local storage refreshes the badge; nothing else does |
| Background.InstalledProfile | background.js:21-24 | a profile exactly when a list is stored, the active id is non-empty and the list holds it; then it has that id |
| Background.OnInstalled | background.js:16-28 | badge refreshed; the active profile applied when there is one, otherwise the table is untouched |
| Background.SeededStoreUsesBrowserUserAgent | background.js:43-47 | on a freshly seeded store the badge is blank and no rule is installed |
| Options.NewProfile | options.js:186-197 | refused with the alert exactly when the alias, name or user-agent is blank; otherwise alias trimmed and upper-cased, name and user-agent trimmed, the given id, mode and colours |
| Options.NewProfileClean | options.js:187-190 | a stored profile has no surrounding whitespace in alias, name and user-agent, and no lower-case ASCII in its alias |
| Options.Added | options.js:199-213 | a refused add leaves the store as it was; an accepted one stores the old list (empty when absent) with the new profile appended; `activeId` untouched |
| Options.AddedAppendsOne | options.js:199-213 | a refused add stores nothing; an accepted one appends one profile at the end, earlier entries and `activeId` unchanged |
| Options.AddedKeepsWellFormed | options.js:203 | a timestamp id is never the default id, so adding keeps the list invariant |
| Options.AddUserAgent | options.js:186-213 | returns the validation outcome; the store afterwards is the store with the profile added |
| Options.Deleted | options.js:236-255 | without confirmation nothing changes; otherwise the stored list holds exactly the profiles with another id, and `activeId` becomes `default` exactly when the deleted profile was active |
| Options.DeleteMessage | options.js:245-252 | a message exactly when the confirmed deletion removes the active profile; it is a `setUserAgent` carrying the default profile of the filtered list, if any |
| Options.DeletedEffect | options.js:236-255 | nothing happens without confirmation; otherwise no profile keeps the id, other ids keep their counts, `activeId` falls back to the default exactly when the deleted one was active, and only then is a message sent |
| Options.DeleteMessageClearsRules | options.js:248-252 | the message sent on deleting the active profile makes the worker clear the table |
| Options.DeleteUserAgent | options.js:231-255 | returns the message sent; the store afterwards is the store with the deletion applied |
| Options.CreateCard | options.js:134-158 | tagged default and without delete control exactly for the default id; name and alias; mode text; the whole user-agent or a placeholder; the stored colours or their fallbacks |
| Options.LoadCards | options.js:111-131 | the stored list, or the built-in one when none is stored; the empty state exactly for an empty stored list; otherwise one card per profile, in order |
| Options.LoadCardsOneDefault | options.js:135-158 | when nothing is stored or the stored list keeps the invariant, exactly one card is tagged default and lacks a delete control |
| Options.CardDeletionKeepsDefault | options.js:158 | deleting through any card's control keeps the list invariant and the default profile |
| Options.HexFieldInput | options.js:70-76 | the picker takes the typed value exactly when it is a valid colour, otherwise keeps its value |
| Options.PickerInput | options.js:65-80 | the picker's value upper-cased: same length, no lower-case ASCII letter, a valid colour exactly when the picker's value is |
| Options.PickerStaysValid | options.js:65-89 | a valid picker stays valid whatever is typed, and its upper-cased value is accepted back |
| Popup.LoadViewFallbacks | popup.js:52-55 | an absent list shows the built-in one and an absent active id shows `default`; this agrees with seeding unless an unseeded store holds another active id |
| Popup.Preview | popup.js:78 | placeholder for an empty user-agent; otherwise at most fifty leading characters of it and `...` |
| Popup.PreviewShows | popup.js:78 | short user-agents are shown whole; longer ones by their first fifty characters |
| Popup.ModeLabel | popup.js:77 | non-empty exactly for the append mode, and then ` (agregar)` |
| Popup.LoadView | popup.js:53-55 | the stored list when present, else the built-in one; the stored active id when non-empty, else `default` |
| Popup.CreateItem | popup.js:72-82 | active exactly when the id is the active id; name and mode label; preview; colour fallbacks |
| Popup.Render | popup.js:60-68 | the empty state exactly for an empty list; otherwise one item per profile, in order |
| Popup.BadgeAgreesWithPopup | popup.js:74 | with a stored list the badge names a profile exactly when the popup marks one active; without one the badge is unchanged, and the popup marks the default item when no other id is stored |
| Popup.ActivationMessage | popup.js:104-111 | a message exactly when a list is stored, carrying the first profile with the id or none |
| Popup.Activated | popup.js:101 | `activeId` becomes the id; the stored list is untouched |
| Popup.ActivationEffect | popup.js:100-111 | activating an unknown id makes the worker clear every rule; activating a stored one makes the badge name it |
| Popup.ActivateUserAgent | popup.js:100-115 | `activeId` set to the id, the list untouched; returns the message sent |

## Left out

- The DOM, `innerHTML` templates, notifications, timers, `alert` and the
  reloading of lists are not modelled. `confirm` is a boolean parameter of
  `Options.DeleteUserAgent`.
- `Date.now()` is not modelled. The new id is a parameter of
  `Options.AddUserAgent`; `Options.IsTimestampId` describes such ids.
- `async`/`await` interleaving is not modelled: each handler is one atomic
  step. So the model does not capture that `deleteUserAgent` sends its message
  before it writes the store, nor any race between the worker's badge refresh
  and that write.
- The `try`/`catch` paths (background.js:106-108, 141-143) are not modelled:
  failures of the browser APIs come from outside. The one refusal the engine
  model has, an id clash, is proved never to happen.
- The engine is modelled only as far as the extension uses it. Among several
  matching rules, the choice by priority is not modelled, because the table
  never holds more than one rule. URL filters other than `*` are not
  modelled. Header operations other than `set` and `remove` are not
  modelled.
- The `chrome.action` calls are not modelled, only the state they leave.
  `updateBadgePreview` and the colour of the badge text (which the browser
  chooses) are not modelled either.
- Text.Upper: maps only the ASCII letters; JavaScript's `toUpperCase` also
  maps other letters, some to several characters.
- Text.UpperChar: for the same reason leaves every non-ASCII letter as it is.
- Text.HexColorIgnoresCase and Options.PickerInput: hold for the ASCII-only
  upper-casing. With JavaScript's `toUpperCase` a string can fail the colour
  check while its upper-cased form passes: `"#abcd\u{FB00}"` has six
  characters after `#` and fails, while its upper-cased form `"#ABCDFF"`
  passes. A colour picker's value is always `#rrggbb`, so the pickers never
  meet such a string.
- Text.Prefix: counts Unicode scalar values, while `substring` counts UTF-16
  code units, so a preview can differ for characters outside the Basic
  Multilingual Plane.
- A missing string property of a stored profile is modelled as the empty
  string, and an absent `activeId` as `None`. Where these scripts test such a
  value for truthiness the two agree. They differ where the value is printed:
  a missing name or alias shows `undefined` in the tooltip title
  (background.js:138) and in both lists (popup.js:86, 90; options.js:152,
  154), and a missing alias is passed on as the badge text
  (background.js:126), where the model shows the empty string.
  They also differ in one comparison: `activeId === id` (options.js:245) holds
  when both are absent, while the model never equates `None` with a profile's
  empty id.
- Both `loadUserAgents` functions are modelled as the value they render
  (`Popup.LoadView` with `Popup.Render`, and `Options.LoadCards`), not as
  DOM updates.
- `popup.js` defines its own `DEFAULT_USER_AGENTS` and `initializeUserAgents`
  (popup.js:2-49). They are identical to those in `options.js` and are
  modelled once.
