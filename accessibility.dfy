/**
 * The accessibility controller: panel visibility, speech, the persisted
 * settings record, keyboard shortcuts and the reading-focus band.
 *
 * The browser is abstracted as follows. Local storage is a `Storage` object
 * mapping keys to entries. The page elements the controller looks up are
 * fixed when it is created (`Page`). Announcements are appended to a log.
 * Calls into the speech engine are logged (`spoken`, `speechCancels`), and
 * the engine's completion and error callbacks are the methods `OnSpeechEnd`
 * and `OnSpeechError`. Alpine's watchers on the settings become part of
 * `SetSetting`, the one way the page changes a setting.
 */
module Accessibility {
  import opened Wrappers
  import opened Prefs
  import opened Shortcuts
  import Css
  import ReadingFocus

  /** The storage key of the whole settings record. */
  const SettingsKey := "accessibilitySettings"

  const PanelOpened := "Accessibility panel opened"
  const PanelClosed := "Accessibility panel closed"
  const SpeechStopped := "Speech stopped"
  const ReadingContent := "Reading page content"
  const SpeechFailed := "Speech error occurred"
  const FocusEnabled := "Reading focus mode enabled"
  const FocusDisabled := "Reading focus mode disabled"

  const SpeechRate: real := 0.8
  const SpeechPitch: real := 1.0

  /**
   * The elements the controller finds on the page: the live region
   * (`#announcer`), the band (`#reading-focus-window`), and the rendered
   * text of `#main-content`, None when that element is missing.
   */
  datatype Page = Page(hasAnnouncer: bool, hasFocusWindow: bool, mainContent: Option<string>)

  /** An utterance handed to the speech engine. */
  datatype Utterance = Utterance(text: string, rate: real, pitch: real)

  /** The browser's local storage. It outlives any one controller. */
  class Storage {
    var items: map<string, Entry>
    var writes: nat

    constructor (items: map<string, Entry>)
      ensures this.items == items && writes == 0
    {
      this.items := items;
      writes := 0;
    }

    function GetItem(key: string): (r: Option<Entry>)
      reads this
      ensures r.Some? <==> key in items
      ensures r.Some? ==> r.value == items[key]
    {
      if key in items then Some(items[key]) else None
    }

    method SetItem(key: string, e: Entry)
      modifies this
      ensures items == old(items)[key := e]
      ensures GetItem(key) == Some(e)
      ensures forall k :: k != key ==> GetItem(k) == old(GetItem(k))
      ensures writes == old(writes) + 1
    {
      items := items[key := e];
      writes := writes + 1;
    }
  }

  class Controller {
    const store: Storage
    const page: Page

    var showAccessibilityPanel: bool
    var isSpeaking: bool
    var settings: Settings
    /** init() ran to its end: the keydown listener, the band's handler and the watchers exist. */
    var initialised: bool
    /** The band's mousemove handler is attached to the document. */
    var readingFocusAttached: bool
    /** `document.documentElement.style.fontSize`. */
    var rootFontSize: string
    /** The band's `style.top`. */
    var focusWindowTop: string
    var announcements: seq<string>
    var spoken: seq<Utterance>
    var speechCancels: nat
    var fullscreenToggles: nat

    /** The handler is attached only while reading focus is on and init() completed. */
    ghost predicate Valid()
      reads this
    {
      readingFocusAttached ==> initialised && settings.readingFocus
    }

    /** What an announcement adds to the log: nothing when the page has no live region. */
    function Heard(message: string): seq<string>
    {
      if page.hasAnnouncer then [message] else []
    }

    /**
     * The component's creation followed by init(). If the stored entry cannot
     * be parsed, loadSettings throws and the rest of init() never runs.
     */
    constructor (store: Storage, page: Page)
      ensures this.store == store && this.page == page
      ensures Valid()
      ensures !showAccessibilityPanel && !isSpeaking && !readingFocusAttached
      ensures announcements == [] && spoken == [] && speechCancels == 0 && fullscreenToggles == 0
      ensures focusWindowTop == ""
      ensures Restore(Defaults(), store.GetItem(SettingsKey)).Some? ==>
                initialised && settings == Restore(Defaults(), store.GetItem(SettingsKey)).value
      ensures Restore(Defaults(), store.GetItem(SettingsKey)).None? ==> !initialised && settings == Defaults()
      ensures SettingsKey !in store.items ==> initialised && settings == Defaults()
      ensures rootFontSize == if initialised then Css.Px(settings.fontSize) else ""
    {
      this.store := store;
      this.page := page;
      showAccessibilityPanel := false;
      isSpeaking := false;
      settings := Defaults();
      initialised := false;
      readingFocusAttached := false;
      rootFontSize := "";
      focusWindowTop := "";
      announcements := [];
      spoken := [];
      speechCancels := 0;
      fullscreenToggles := 0;
      new;
      var ok := LoadSettings();
      if ok {
        ApplyFontSize();
        initialised := true;
      }
    }

    /**
     * Reads the stored record and merges it over the current settings;
     * `ok` is false when JSON.parse throws, and then nothing changes.
     * Only init() calls it, before any watcher exists.
     */
    method LoadSettings() returns (ok: bool)
      requires !initialised
      modifies this`settings
      ensures ok == Restore(old(settings), store.GetItem(SettingsKey)).Some?
      ensures settings == if ok then Restore(old(settings), store.GetItem(SettingsKey)).value else old(settings)
    {
      var saved := store.GetItem(SettingsKey);
      var loaded := Restore(settings, saved);
      ok := loaded.Some?;
      if ok {
        settings := loaded.value;
      }
    }

    /** Writes the whole record under the settings key. */
    method SaveSettings()
      modifies store
      ensures store.items == old(store.items)[SettingsKey := Json(Snapshot(settings))]
      ensures store.writes == old(store.writes) + 1
    {
      store.SetItem(SettingsKey, Json(Snapshot(settings)));
    }

    /** Sets the root font size to the record's size in pixels. */
    method ApplyFontSize()
      modifies this`rootFontSize
      ensures rootFontSize == Css.Px(settings.fontSize)
      ensures Css.ParsePx(rootFontSize) == Some(settings.fontSize)
    {
      rootFontSize := Css.Px(settings.fontSize);
      Css.PxRoundTrip(settings.fontSize);
    }

    method Announce(message: string)
      modifies this`announcements
      ensures announcements == old(announcements) + Heard(message)
    {
      if page.hasAnnouncer {
        announcements := announcements + [message];
      }
    }

    /** Alt+A: the panel flips and the new state is announced. */
    twostate predicate PanelToggled()
      reads this
    {
      && showAccessibilityPanel == !old(showAccessibilityPanel)
      && announcements == old(announcements) + Heard(if showAccessibilityPanel then PanelOpened else PanelClosed)
      && unchanged(this`isSpeaking, this`spoken, this`speechCancels, this`fullscreenToggles)
    }

    /** Escape on an open panel: it closes and that is announced. */
    twostate predicate ClosedByEscape()
      reads this
    {
      && old(showAccessibilityPanel) && !showAccessibilityPanel
      && announcements == old(announcements) + Heard(PanelClosed)
      && unchanged(this`isSpeaking, this`spoken, this`speechCancels, this`fullscreenToggles)
    }

    /**
     * toggleSpeech: stop when speaking; otherwise speak the main content at
     * rate 0.8 and pitch 1. With no main content the lookup throws before
     * anything changes.
     */
    twostate predicate SpeechToggled()
      reads this
    {
      if old(isSpeaking) then
        && !isSpeaking
        && speechCancels == old(speechCancels) + 1
        && spoken == old(spoken)
        && announcements == old(announcements) + Heard(SpeechStopped)
      else if page.mainContent.None? then
        unchanged(this`isSpeaking, this`spoken, this`speechCancels, this`announcements)
      else
        && isSpeaking
        && spoken == old(spoken) + [Utterance(page.mainContent.value, SpeechRate, SpeechPitch)]
        && speechCancels == old(speechCancels)
        && announcements == old(announcements) + Heard(ReadingContent)
    }

    method ToggleSpeech()
      modifies this`isSpeaking, this`spoken, this`speechCancels, this`announcements
      ensures SpeechToggled()
    {
      if isSpeaking {
        speechCancels := speechCancels + 1;
        isSpeaking := false;
        Announce(SpeechStopped);
      } else if page.mainContent.Some? {
        spoken := spoken + [Utterance(page.mainContent.value, SpeechRate, SpeechPitch)];
        isSpeaking := true;
        Announce(ReadingContent);
      }
    }

    /** The utterance's onend callback. */
    method OnSpeechEnd()
      modifies this`isSpeaking
      ensures !isSpeaking
    {
      isSpeaking := false;
    }

    /** The utterance's onerror callback. */
    method OnSpeechError()
      modifies this`isSpeaking, this`announcements
      ensures !isSpeaking
      ensures announcements == old(announcements) + Heard(SpeechFailed)
    {
      isSpeaking := false;
      Announce(SpeechFailed);
    }

    /** A call of toggleFullscreen; what the browser then does is not modelled. */
    method ToggleFullscreen()
      modifies this`fullscreenToggles
      ensures fullscreenToggles == old(fullscreenToggles) + 1
    {
      fullscreenToggles := fullscreenToggles + 1;
    }

    /**
     * The document's keydown listener; `prevented` tells whether it called
     * preventDefault. Before init() completes there is no listener.
     */
    method KeyDown(key: string, alt: bool) returns (prevented: bool)
      requires Valid()
      modifies this`showAccessibilityPanel, this`announcements, this`isSpeaking, this`spoken,
               this`speechCancels, this`fullscreenToggles
      ensures Valid()
      ensures prevented <==> initialised && ShortcutFor(key, alt).Some?
      ensures !initialised ==> unchanged(this)
      ensures initialised ==>
                match ShortcutFor(key, alt)
                case Some(Panel) => PanelToggled()
                case Some(Speech) =>
                  SpeechToggled() && unchanged(this`showAccessibilityPanel, this`fullscreenToggles)
                case Some(Fullscreen) =>
                  && fullscreenToggles == old(fullscreenToggles) + 1
                  && unchanged(this`showAccessibilityPanel, this`announcements, this`isSpeaking,
                               this`spoken, this`speechCancels)
                case None =>
                  if key == EscapeKey && old(showAccessibilityPanel) then ClosedByEscape()
                  else unchanged(this)
    {
      prevented := false;
      if !initialised {
        return;
      }
      match ShortcutFor(key, alt) {
        case Some(Panel) =>
          prevented := true;
          showAccessibilityPanel := !showAccessibilityPanel;
          Announce(if showAccessibilityPanel then PanelOpened else PanelClosed);
        case Some(Speech) =>
          prevented := true;
          ToggleSpeech();
        case Some(Fullscreen) =>
          prevented := true;
          ToggleFullscreen();
        case None =>
      }
      // the Escape test follows the switch, whatever it did
      if key == EscapeKey && showAccessibilityPanel {
        showAccessibilityPanel := false;
        Announce(PanelClosed);
      }
    }

    method EnableReadingFocus()
      requires initialised && settings.readingFocus
      modifies this`readingFocusAttached, this`announcements
      ensures Valid()
      ensures readingFocusAttached
      ensures announcements == old(announcements) + Heard(FocusEnabled)
    {
      readingFocusAttached := true;
      Announce(FocusEnabled);
    }

    method DisableReadingFocus()
      modifies this`readingFocusAttached, this`announcements
      ensures Valid()
      ensures !readingFocusAttached
      ensures announcements == old(announcements) + Heard(FocusDisabled)
    {
      readingFocusAttached := false;
      Announce(FocusDisabled);
    }

    /**
     * The page assigns `settings.<f> = v`. Reactivity fires the watchers only
     * when the value changes: the deep watcher saves the record, and the
     * readingFocus watcher attaches or detaches the band's handler.
     */
    method SetSetting(f: Field, v: Value)
      requires Valid() && Fits(f, v)
      modifies this`settings, this`readingFocusAttached, this`announcements, store
      ensures Valid()
      ensures settings == Set(old(settings), f, v)
      ensures Get(old(settings), f) == v || !initialised ==>
                unchanged(store) && unchanged(this`readingFocusAttached, this`announcements)
      ensures Get(old(settings), f) != v && initialised ==>
                && store.items == old(store.items)[SettingsKey := Json(Snapshot(settings))]
                && store.writes == old(store.writes) + 1
      ensures Get(old(settings), f) != v && initialised && f == ReadingFocus ==>
                && readingFocusAttached == v.b
                && announcements == old(announcements) + Heard(if v.b then FocusEnabled else FocusDisabled)
      ensures f != ReadingFocus ==> unchanged(this`readingFocusAttached, this`announcements)
    {
      var changed := Get(settings, f) != v;
      settings := Set(settings, f, v);
      if changed && initialised {
        SaveSettings();
        if f == ReadingFocus {
          if v.b {
            EnableReadingFocus();
          } else {
            DisableReadingFocus();
          }
        }
      }
    }

    /** Moves the band so that it is centred on the pointer. */
    method UpdateReadingFocus(pointerY: int)
      modifies this`focusWindowTop
      ensures focusWindowTop == if page.hasFocusWindow then Css.Px(ReadingFocus.WindowTop(pointerY)) else old(focusWindowTop)
      ensures page.hasFocusWindow ==> Css.ParsePx(focusWindowTop) == Some(pointerY - 200)
    {
      if page.hasFocusWindow {
        focusWindowTop := Css.Px(ReadingFocus.WindowTop(pointerY));
        Css.PxRoundTrip(ReadingFocus.WindowTop(pointerY));
      }
    }

    /**
     * A mousemove on the document. It reaches the band's handler only while
     * that is attached; the handler's own readingFocus test then always passes.
     */
    method MouseMove(pointerY: int)
      requires Valid()
      modifies this`focusWindowTop
      ensures focusWindowTop ==
                if readingFocusAttached && page.hasFocusWindow then Css.Px(ReadingFocus.WindowTop(pointerY))
                else old(focusWindowTop)
      ensures !settings.readingFocus ==> unchanged(this)
    {
      if readingFocusAttached {
        if settings.readingFocus {
          UpdateReadingFocus(pointerY);
        }
      }
    }
  }

  /** A record saved by one controller is the record a later controller on the same storage loads. */
  method ReloadAfterSave(c: Controller) returns (d: Controller)
    modifies c.store
    ensures d.store == c.store && d.page == c.page
    ensures d.initialised && d.settings == c.settings
    ensures d.rootFontSize == Css.Px(c.settings.fontSize)
  {
    c.SaveSettings();
    SaveLoadRoundTrip(c.settings, Defaults());
    d := new Controller(c.store, c.page);
  }

  /** Alt+A twice restores the panel and announces the two opposite messages. */
  method PanelShortcutTwice(c: Controller)
    requires c.Valid() && c.initialised && c.page.hasAnnouncer
    modifies c
    ensures c.showAccessibilityPanel == old(c.showAccessibilityPanel)
    ensures c.announcements == old(c.announcements) +
              if old(c.showAccessibilityPanel) then [PanelClosed, PanelOpened] else [PanelOpened, PanelClosed]
  {
    var p1 := c.KeyDown("a", true);
    var p2 := c.KeyDown("A", true);
  }

  /** Switching reading focus on makes the next pointer move place the band at y - 200. */
  method ReadingFocusFollowsPointer(c: Controller, pointerY: int)
    requires c.Valid() && c.initialised && c.page.hasFocusWindow && !c.settings.readingFocus
    modifies c, c.store
    ensures c.Valid() && c.readingFocusAttached && c.settings.readingFocus
    ensures Css.ParsePx(c.focusWindowTop) == Some(pointerY - 200)
  {
    c.SetSetting(ReadingFocus, Flag(true));
    c.MouseMove(pointerY);
    Css.PxRoundTrip(pointerY - 200);
  }
}
