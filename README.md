# Accessibility controller of the storefront scripts

This project models the accessibility controller that `accessibilitySystem()` returns in the storefront's client script, and the Tab trap of the accessibility panel. The controller does five things:

- It keeps the panel-visibility and speaking flags.
- It keeps an eight-field settings record (`fontSize` and seven toggles) and persists it in local storage under `accessibilitySettings`.
- It dispatches the Alt+A, Alt+S and Alt+F shortcuts and Escape.
- It drives speech synthesis.
- It moves a 400px reading-focus band with the pointer.

The browser is abstracted:

- Local storage is a `Storage` object mapping keys to entries.
- A stored entry is `Blank` (the empty string), `Json(patch)` (a partial record with well-typed values) or `Unparsable`.
- The page elements the controller looks up are a `Page` value fixed at creation: whether `#announcer` and `#reading-focus-window` exist, and the text of `#main-content` if it exists.
- Announcements are appended to a log.
- Calls into the speech engine are logged. The utterance's `onend` and `onerror` callbacks are the methods `OnSpeechEnd` and `OnSpeechError`, which may be called at any time.
- Alpine's two watchers are folded into `SetSetting`, the one way the page changes a setting. Alpine's reactivity fires watchers only when a value changes. So an assignment that changes a value saves the whole record once. A change of `readingFocus` also attaches or detaches the band's handler and announces it. An assignment of the same value does nothing.

Modules:

- `Prefs`: the record, partial records, the merge and the load.
- `Css`: the `"<n>px"` strings and a reader for them.
- `Shortcuts`: which Alt shortcut a key names.
- `ReadingFocus`: the band's offset.
- `TabTrap`: the wrap-around decision.
- `Accessibility`: the `Storage` and `Controller` classes.

## Notes on the code

- A stored entry that `JSON.parse` rejects is not caught (scripts.js:45). `init()` throws inside `loadSettings`, so the keydown listener, the font-size effect, the band's handler and the watchers are never set up (scripts.js:21-40). The model shows this by creating the controller with `initialised` false. `KeyDown` then does nothing, and setting changes are neither saved nor acted on.
- A `readingFocus` of true restored from storage does not attach the band's handler. The watcher fires only on a change, so the constructor ensures `!readingFocusAttached`. The proved invariant `Valid()` is one-way only: the handler is attached only while `readingFocus` is on.
- The handler's own `readingFocus` test can never fail while the handler is attached. `MouseMove` is proved with an ensures that does not mention the test.

## Model

| member | source | states |
|---|---|---|
| `Prefs.Defaults` | main/static/js/scripts.js:10-19 | the initial record has font size 16 and every one of the seven toggles off |
| `Prefs.Set` | main/static/js/scripts.js:10-19 | assigning one key gives it the new value and leaves the other seven unchanged |
| `Prefs.Merge` | main/static/js/scripts.js:45 | after the spread merge, every key present in the stored record has the stored value and every absent key keeps its current value |
| `Prefs.Restore` | main/static/js/scripts.js:42-47 | loading fails exactly when the stored text cannot be parsed; no entry or a blank entry keeps the current record; a parsed entry is merged key by key |
| `Prefs.PartialLoad` | main/static/js/scripts.js:43-46 | a partial stored record over the defaults yields the stored keys and the defaults (16, false) for every other key |
| `Prefs.SaveLoadRoundTrip` | main/static/js/scripts.js:42-51 | the whole record written by saveSettings is read back by loadSettings as the same record, whatever it is merged over |
| `Css.NatToDecimal` | main/static/js/scripts.js:54 | a number is written as a non-empty string of digits with no leading zero |
| `Css.PxRoundTrip` | main/static/js/scripts.js:54 | the written `"<n>px"` value reads back as exactly n |
| `Css.PxInjective` | main/static/js/scripts.js:154 | different sizes or offsets give different style values |
| `Shortcuts.LowerIsLetter` | main/static/js/scripts.js:60 | a key lower-cases to a one-letter name exactly when it is that letter in either case |
| `Shortcuts.ShortcutFor` | main/static/js/scripts.js:59-74 | with Alt and `a`/`A` the panel shortcut, with `s`/`S` speech, with `f`/`F` fullscreen, and no shortcut otherwise (iff in each case) |
| `Shortcuts.EscapeIsNoShortcut` | main/static/js/scripts.js:59-80 | Escape never triggers one of the Alt shortcuts |
| `ReadingFocus.WindowTop` | main/static/js/scripts.js:152-153 | the band's top is such that the 400px band is centred on the pointer (top + 200 = y) |
| `TabTrap.OnKeyDown` | main/static/js/scripts.js:305-322 | focus wraps exactly for Tab with the panel shown and focus on the last element, or Shift+Tab with focus on the first; Shift+Tab goes to the last, Tab to the first; otherwise nothing is prevented |
| `TabTrap.FocusStaysInPanel` | main/static/js/scripts.js:314-320 | with the browser moving focus to the neighbour when not prevented, Tab and Shift+Tab keep focus among the panel's elements |
| `TabTrap.WrapThereAndBack` | main/static/js/scripts.js:314-320 | Tab on the last element goes to the first, and Shift+Tab from there goes back to the last |
| `Accessibility.Storage.GetItem` | main/static/js/scripts.js:43 | the lookup finds an entry exactly when the key is stored, and that entry is the stored one |
| `Accessibility.Storage.SetItem` | main/static/js/scripts.js:50 | the key now maps to the written entry and reading it back gives that entry; every other key reads back as before; one write is counted |
| `Accessibility.Controller.constructor` | main/static/js/scripts.js:6-40 | panel closed, not speaking, handler detached, empty logs; the settings are the stored record merged over the defaults (exactly the defaults when nothing is stored); init completes exactly when loading did not throw; the root font size applied only then |
| `Accessibility.Controller.LoadSettings` | main/static/js/scripts.js:42-47 | the settings become the stored record merged over the current one; on a parse failure it reports failure and nothing changes |
| `Accessibility.Controller.SaveSettings` | main/static/js/scripts.js:49-51 | storage holds the whole current record under `accessibilitySettings` after exactly one write |
| `Accessibility.Controller.ApplyFontSize` | main/static/js/scripts.js:53-55 | the root font size is the record's size followed by "px" and reads back as that size |
| `Accessibility.Controller.Announce` | main/static/js/scripts.js:121-129 | the message is appended to the announcement log exactly when the live region exists |
| `Accessibility.Controller.ToggleSpeech` | main/static/js/scripts.js:84-105 | when speaking: cancels, clears the flag and announces "Speech stopped"; otherwise speaks the main content at rate 0.8 and pitch 1, sets the flag and announces "Reading page content"; no main content: nothing changes |
| `Accessibility.Controller.OnSpeechEnd` | main/static/js/scripts.js:94-96 | the flag is cleared and nothing is announced |
| `Accessibility.Controller.OnSpeechError` | main/static/js/scripts.js:97-100 | the flag is cleared and "Speech error occurred" is announced |
| `Accessibility.Controller.ToggleFullscreen` | main/static/js/scripts.js:107-119 | the call is counted; nothing else changes |
| `Accessibility.Controller.KeyDown` | main/static/js/scripts.js:57-82 | default is prevented exactly for the three Alt shortcuts; Alt+A flips the panel and announces opened/closed to match; Alt+S is toggleSpeech; Alt+F toggleFullscreen; Escape on an open panel closes it and announces "Accessibility panel closed"; every other key, and every key before init completed, changes nothing |
| `Accessibility.Controller.EnableReadingFocus` | main/static/js/scripts.js:139-142 | called after init with reading focus on, it attaches the handler, announces "Reading focus mode enabled" and keeps the attached-only-while-on invariant |
| `Accessibility.Controller.DisableReadingFocus` | main/static/js/scripts.js:144-147 | the handler is detached, "Reading focus mode disabled" is announced, and the invariant holds |
| `Accessibility.Controller.SetSetting` | main/static/js/scripts.js:27-39 | the key takes the value; a change after init saves the whole new record once, and a change of readingFocus attaches or detaches the handler with its announcement; no change (or no init) writes and announces nothing; the attached-only-while-on invariant is kept |
| `Accessibility.Controller.UpdateReadingFocus` | main/static/js/scripts.js:149-156 | when the band exists its top is set to y - 200 px, and reads back as exactly y - 200 |
| `Accessibility.Controller.MouseMove` | main/static/js/scripts.js:131-137 | a pointer move repositions the band only while the handler is attached; with reading focus off nothing changes |
| `Accessibility.ReloadAfterSave` | main/static/js/scripts.js:42-51 | a controller created on storage just saved by another loads the same record, completes init and applies its font size |
| `Accessibility.PanelShortcutTwice` | main/static/js/scripts.js:59-65 | Alt+a then Alt+A restores the panel state and announces the two opposite messages in order |
| `Accessibility.ReadingFocusFollowsPointer` | main/static/js/scripts.js:131-155 | switching reading focus on attaches the handler, and the next move at y places the band's top at exactly y - 200 |

## Left out

- Accessibility.Controller.ToggleFullscreen: only the call is recorded. Two things are not modelled: the `document.fullscreenElement` test, and the announcements made when the browser's promises settle. Their outcome belongs to a browser capability outside this model.
- Accessibility.Controller.ApplyFontSize: only integer font sizes are modelled, written in plain decimal. The code accepts any number: a size stored as a fraction gives a fractional value, and one of magnitude 10^21 or more is written in exponent form.
- Accessibility.Controller.Announce: clearing the live region 1000 ms later with `setTimeout` is not modelled. That is a timer race, not a state change. So announcements form a log, and the race between two announcements is not represented.
- Accessibility.Controller.SetSetting: Alpine runs watchers after the current event, so several assignments in one event can give a single save. The model treats each assignment as its own event.
- Prefs.Restore: stored keys other than the eight are not modelled. In the code they are kept in the record and written back on save, but nothing reads them. Values of the wrong type are not modelled either: an entry is a partial record of correctly typed values. A JSON text that parses to a non-object is covered by a `Json` entry with no keys.
- Accessibility.Controller.ToggleSpeech: the engine's queueing and the point at which it calls `onend` or `onerror` are not modelled. For example, some browsers fire `onerror` after `cancel()`. The callbacks can be called in any state. The `innerText` of the main content is given as a string.
- Accessibility.Controller.MouseMove: the pointer position is an integer. In the browser `e.clientY` is a double, and a fractional position gives a fractional style value such as `"123.5px"` (scripts.js:134, 154).
- Accessibility.Controller.SaveSettings: storage access is taken to succeed. In the browser `localStorage.getItem` and `setItem` can throw, for example when storage is disabled or full (scripts.js:43, 50). Neither the constructor nor `SaveSettings` represents that.
- The mobile menu, resize handling and htmx re-initialisation are left out. They are class and attribute writes with no decision logic (scripts.js:1-4, 160-190, 234-239).
- The cart count fetch and the cart modal are left out. They are network I/O, and the `CART (n)` label is string interpolation (scripts.js:192-232, 258-263, 326-336).
- Modal focus on htmx settle, page-change announcements, `prefers-reduced-motion` detection, active nav-link highlighting and Enter-to-click are left out. They are DOM queries with nothing to state beyond the calls (scripts.js:241-302).
- The global `window.announce` is left out. It is the same live-region write as `Announce` (scripts.js:338-347).
- Keyboard events also carry targets, and the DOM has real elements. Only the fields the handlers read are modelled: the key, Alt, Shift, whether the panel is shown, and the index of the focused element among the panel's focusable elements.
