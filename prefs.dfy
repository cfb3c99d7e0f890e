/**
 * The persisted accessibility settings record: eight fields with fixed
 * defaults, a partial record as read back from storage, and the merge that
 * lets every key present in storage override the current value.
 */
module Prefs {
  import opened Wrappers

  /** The eight keys of the record, in the order the controller declares them. */
  datatype Field =
    | FontSize | HighContrast | LargeCursor | EnhancedFocus
    | ReduceMotion | FocusMode | DyslexiaFont | ReadingFocus

  /** A stored value: the font size is a number, every other key a boolean. */
  datatype Value = Num(n: int) | Flag(b: bool)

  datatype Settings = Settings(
    fontSize: int,
    highContrast: bool,
    largeCursor: bool,
    enhancedFocus: bool,
    reduceMotion: bool,
    focusMode: bool,
    dyslexiaFont: bool,
    readingFocus: bool)

  const AllFields: set<Field> :=
    {FontSize, HighContrast, LargeCursor, EnhancedFocus, ReduceMotion, FocusMode, DyslexiaFont, ReadingFocus}

  /** Whether `v` has the type the record gives to field `f`. */
  predicate Fits(f: Field, v: Value)
  {
    if f == FontSize then v.Num? else v.Flag?
  }

  /** The value of one field, as a JSON reader of the record would see it. */
  function Get(s: Settings, f: Field): (v: Value)
    ensures Fits(f, v)
  {
    match f
    case FontSize => Num(s.fontSize)
    case HighContrast => Flag(s.highContrast)
    case LargeCursor => Flag(s.largeCursor)
    case EnhancedFocus => Flag(s.enhancedFocus)
    case ReduceMotion => Flag(s.reduceMotion)
    case FocusMode => Flag(s.focusMode)
    case DyslexiaFont => Flag(s.dyslexiaFont)
    case ReadingFocus => Flag(s.readingFocus)
  }

  /** The record with field `f` replaced by `v`. */
  function Assign(s: Settings, f: Field, v: Value): Settings
    requires Fits(f, v)
  {
    match f
    case FontSize => s.(fontSize := v.n)
    case HighContrast => s.(highContrast := v.b)
    case LargeCursor => s.(largeCursor := v.b)
    case EnhancedFocus => s.(enhancedFocus := v.b)
    case ReduceMotion => s.(reduceMotion := v.b)
    case FocusMode => s.(focusMode := v.b)
    case DyslexiaFont => s.(dyslexiaFont := v.b)
    case ReadingFocus => s.(readingFocus := v.b)
  }

  /** Replacing `f` leaves one other field `g` as it was. */
  lemma SetFrame(s: Settings, f: Field, v: Value, g: Field)
    requires Fits(f, v)
    ensures g != f ==> Get(Assign(s, f, v), g) == Get(s, g)
  {
  }

  /** Assigning one field of the record (`settings.<key> = v`). */
  function Set(s: Settings, f: Field, v: Value): (r: Settings)
    requires Fits(f, v)
    ensures Get(r, f) == v
    ensures forall g :: g != f ==> Get(r, g) == Get(s, g)
  {
    forall g ensures g != f ==> Get(Assign(s, f, v), g) == Get(s, g) {
      SetFrame(s, f, v, g);
    }
    Assign(s, f, v)
  }

  /** The record the controller starts from: 16px and every toggle off. */
  function Defaults(): (d: Settings)
    ensures Get(d, FontSize) == Num(16)
    ensures forall f :: f != FontSize ==> Get(d, f) == Flag(false)
  {
    Settings(16, false, false, false, false, false, false, false)
  }

  /** A partial record: some of the eight keys, each with a value of its type. */
  type Patch = p: map<Field, Value> | forall f :: f in p ==> Fits(f, p[f])

  /** The record built field by field from `p` where present and `s` elsewhere. */
  function Spread(s: Settings, p: Patch): Settings
  {
    Settings(
      if FontSize in p then p[FontSize].n else s.fontSize,
      if HighContrast in p then p[HighContrast].b else s.highContrast,
      if LargeCursor in p then p[LargeCursor].b else s.largeCursor,
      if EnhancedFocus in p then p[EnhancedFocus].b else s.enhancedFocus,
      if ReduceMotion in p then p[ReduceMotion].b else s.reduceMotion,
      if FocusMode in p then p[FocusMode].b else s.focusMode,
      if DyslexiaFont in p then p[DyslexiaFont].b else s.dyslexiaFont,
      if ReadingFocus in p then p[ReadingFocus].b else s.readingFocus)
  }

  /** One field of the spread comes from `p` if present there, from `s` otherwise. */
  lemma SpreadField(s: Settings, p: Patch, f: Field)
    ensures Get(Spread(s, p), f) == if f in p then p[f] else Get(s, f)
  {
  }

  /** The object spread `{ ...s, ...p }`: keys present in `p` win, the rest keep `s`. */
  function Merge(s: Settings, p: Patch): (r: Settings)
    ensures forall f :: Get(r, f) == if f in p then p[f] else Get(s, f)
  {
    forall f ensures Get(Spread(s, p), f) == if f in p then p[f] else Get(s, f) {
      SpreadField(s, p, f);
    }
    Spread(s, p)
  }

  /** The whole record as a patch: what `JSON.stringify` of the record denotes. */
  function Snapshot(s: Settings): Patch
  {
    map f | f in AllFields :: Get(s, f)
  }

  /** The stored string, as the loader distinguishes it. */
  datatype Entry =
    | Blank            // the empty string, which is falsy and so skipped
    | Json(patch: Patch) // text that parses to an object with some of the keys
    | Unparsable       // text on which JSON.parse throws

  /**
   * Loading: nothing stored or a blank entry keeps `current`; a parsed entry
   * is merged over `current`; an unparsable entry makes the load throw (None).
   */
  function Restore(current: Settings, saved: Option<Entry>): (r: Option<Settings>)
    ensures r.None? <==> saved == Some(Unparsable)
    ensures saved.None? || saved == Some(Blank) ==> r == Some(current)
    ensures saved.Some? && saved.value.Json? ==>
              r.Some? &&
              forall f :: Get(r.value, f) == if f in saved.value.patch then saved.value.patch[f] else Get(current, f)
  {
    match saved
    case None => Some(current)
    case Some(Blank) => Some(current)
    case Some(Json(p)) => Some(Merge(current, p))
    case Some(Unparsable) => None
  }

  /** Writing the whole record and reading it back yields that record, whatever it is merged over. */
  lemma SaveLoadRoundTrip(saved: Settings, current: Settings)
    ensures Restore(current, Some(Json(Snapshot(saved)))) == Some(saved)
  {
  }

  /** A stored record with only some keys: those keys are read, the others are the defaults. */
  lemma PartialLoad(p: Patch)
    ensures Restore(Defaults(), Some(Json(p))).Some?
    ensures forall f :: f in p ==> Get(Restore(Defaults(), Some(Json(p))).value, f) == p[f]
    ensures forall f :: f !in p && f != FontSize ==> Get(Restore(Defaults(), Some(Json(p))).value, f) == Flag(false)
    ensures FontSize !in p ==> Restore(Defaults(), Some(Json(p))).value.fontSize == 16
  {
  }
}
