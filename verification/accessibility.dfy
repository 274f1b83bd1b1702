/**
 * The accessibility context of src/contexts/AccessibilityContext.tsx: the settings
 * store with its load / ambient-override / persist lifecycle, the shallow-merge update,
 * the projection of three flags onto classes of the document root, and the `speak`
 * gate that every surface calls.
 *
 * Host effects are explicit values: the saved blob is an `Option<Settings>`, each
 * ambient media query is a boolean, the presence of speech synthesis is a boolean,
 * and what reaches the synthesizer is a sequence of `Utterance`s.
 */
module Accessibility {
  import opened Wrappers
  import opened Types

  /** The single local-storage key the settings live under. */
  const StorageKey: string := "accessibility-settings"

  /** The settings the provider starts from before anything is loaded. */
  const Defaults: Settings := Settings(false, false, false, false)

  /** `Partial<AccessibilitySettings>`: None is a field absent from the object. */
  datatype Patch = Patch(
    highContrast: Option<bool>,
    largeFonts: Option<bool>,
    reduceMotion: Option<bool>,
    screenReader: Option<bool>)

  const NoChange: Patch := Patch(None, None, None, None)

  /** `{ ...prev, ...patch }`: every field present in the patch wins, every absent one is kept. */
  function Merge(s: Settings, p: Patch): (r: Settings)
    ensures p.highContrast.Some? ==> r.highContrast == p.highContrast.value
    ensures p.largeFonts.Some? ==> r.largeFonts == p.largeFonts.value
    ensures p.reduceMotion.Some? ==> r.reduceMotion == p.reduceMotion.value
    ensures p.screenReader.Some? ==> r.screenReader == p.screenReader.value
    ensures p.highContrast.None? ==> r.highContrast == s.highContrast
    ensures p.largeFonts.None? ==> r.largeFonts == s.largeFonts
    ensures p.reduceMotion.None? ==> r.reduceMotion == s.reduceMotion
    ensures p.screenReader.None? ==> r.screenReader == s.screenReader
  {
    Settings(
      p.highContrast.GetOr(s.highContrast),
      p.largeFonts.GetOr(s.largeFonts),
      p.reduceMotion.GetOr(s.reduceMotion),
      p.screenReader.GetOr(s.screenReader))
  }

  /** The patch that applies `q` after `p`: a field of `q` overrides the same field of `p`. */
  function Then(p: Patch, q: Patch): Patch {
    Patch(
      if q.highContrast.Some? then q.highContrast else p.highContrast,
      if q.largeFonts.Some? then q.largeFonts else p.largeFonts,
      if q.reduceMotion.Some? then q.reduceMotion else p.reduceMotion,
      if q.screenReader.Some? then q.screenReader else p.screenReader)
  }

  /** Applying the same patch twice is applying it once. */
  lemma MergeIdempotent(s: Settings, p: Patch)
    ensures Merge(Merge(s, p), p) == Merge(s, p)
  {
  }

  /** The empty patch changes nothing. */
  lemma MergeNoChange(s: Settings)
    ensures Merge(s, NoChange) == s
  {
  }

  /** Two updates in a row are one update with the later fields winning (last write wins). */
  lemma MergeThen(s: Settings, p: Patch, q: Patch)
    ensures Merge(Merge(s, p), q) == Merge(s, Then(p, q))
  {
  }

  /** `if (saved) setSettings(JSON.parse(saved))`: a saved blob replaces the defaults wholesale. */
  function Loaded(saved: Option<Settings>): (r: Settings)
    ensures saved.None? ==> r == Defaults
    ensures saved.Some? ==> r == saved.value
  {
    saved.GetOr(Defaults)
  }

  /**
   * The two `matchMedia` checks after the load: each signal that matches forces its
   * flag to true. A signal never turns a flag off and never touches another field.
   */
  function ApplyAmbient(s: Settings, prefersContrast: bool, prefersReducedMotion: bool): (r: Settings)
    ensures r.highContrast <==> s.highContrast || prefersContrast
    ensures r.reduceMotion <==> s.reduceMotion || prefersReducedMotion
    ensures r.largeFonts == s.largeFonts && r.screenReader == s.screenReader
  {
    var c := if prefersContrast then s.(highContrast := true) else s;
    if prefersReducedMotion then c.(reduceMotion := true) else c
  }

  /** The settings the mount effect leaves: load, then the ambient overrides. */
  function Startup(saved: Option<Settings>, prefersContrast: bool, prefersReducedMotion: bool): Settings {
    ApplyAmbient(Loaded(saved), prefersContrast, prefersReducedMotion)
  }

  /** With no ambient signal and nothing saved, the provider keeps the all-false defaults. */
  lemma StartupDefaults()
    ensures Startup(None, false, false) == Defaults
    ensures !Defaults.highContrast && !Defaults.largeFonts && !Defaults.reduceMotion && !Defaults.screenReader
  {
  }

  /** Ambient signals only raise flags: whatever was loaded stays true. */
  lemma StartupKeepsLoaded(saved: Option<Settings>, c: bool, m: bool)
    ensures var r := Startup(saved, c, m);
      && (Loaded(saved).highContrast ==> r.highContrast)
      && (Loaded(saved).reduceMotion ==> r.reduceMotion)
      && r.largeFonts == Loaded(saved).largeFonts
      && r.screenReader == Loaded(saved).screenReader
  {
  }

  /**
   * The provider's state: the live settings, the disability type the dashboard sets,
   * and what local storage holds under `StorageKey`.
   */
  datatype Context = Context(settings: Settings, disabilityType: Option<string>, saved: Option<Settings>)

  /** Every change of the settings is written back under `StorageKey`. */
  ghost predicate Persisted(ctx: Context) {
    ctx.saved == Some(ctx.settings)
  }

  /** Mount: the load + ambient step, then the persist effect writes the result. */
  function Boot(saved: Option<Settings>, prefersContrast: bool, prefersReducedMotion: bool): (ctx: Context)
    ensures Persisted(ctx)
    ensures ctx.disabilityType.None?
    ensures ctx.settings == Startup(saved, prefersContrast, prefersReducedMotion)
  {
    var s := Startup(saved, prefersContrast, prefersReducedMotion);
    Context(s, None, Some(s))
  }

  /** `updateSettings(patch)`: a shallow merge, then the persist effect. */
  function UpdateSettings(ctx: Context, p: Patch): (r: Context)
    ensures Persisted(r)
    ensures r.settings == Merge(ctx.settings, p)
    ensures r.disabilityType == ctx.disabilityType
  {
    var s := Merge(ctx.settings, p);
    Context(s, ctx.disabilityType, Some(s))
  }

  /** `setDisabilityType(t)`: the settings do not change, so nothing is written. */
  function SetDisabilityType(ctx: Context, t: Option<string>): (r: Context)
    ensures r.disabilityType == t
    ensures r.settings == ctx.settings && r.saved == ctx.saved
  {
    ctx.(disabilityType := t)
  }

  /** Every operation of the context keeps storage equal to the live settings. */
  lemma OperationsKeepPersisted(ctx: Context, p: Patch, t: Option<string>)
    requires Persisted(ctx)
    ensures Persisted(UpdateSettings(ctx, p))
    ensures Persisted(SetDisabilityType(ctx, t))
  {
  }

  /**
   * Round trip through storage: a fresh process with no ambient signal loads exactly
   * the settings last written; with signals it loads them with those flags raised.
   */
  lemma ReloadAfterUpdate(ctx: Context, p: Patch, c: bool, m: bool)
    ensures Startup(UpdateSettings(ctx, p).saved, false, false) == Merge(ctx.settings, p)
    ensures Startup(UpdateSettings(ctx, p).saved, c, m) == ApplyAmbient(Merge(ctx.settings, p), c, m)
  {
  }

  /** The three classes toggled on `document.documentElement`. */
  const HighContrastClass: string := "high-contrast"
  const LargeFontsClass: string := "large-fonts"
  const ReduceMotionClass: string := "reduce-motion"

  /**
   * `root.classList.toggle(name, flag)` for the three flags: each class is present iff
   * its flag is set, `screenReader` has no class, and the root's other classes stay.
   */
  function ApplyRootClasses(existing: set<string>, s: Settings): (r: set<string>)
    ensures HighContrastClass in r <==> s.highContrast
    ensures LargeFontsClass in r <==> s.largeFonts
    ensures ReduceMotionClass in r <==> s.reduceMotion
    ensures forall c :: c in existing && c !in {HighContrastClass, LargeFontsClass, ReduceMotionClass} ==> c in r
    ensures forall c :: c in r && c !in {HighContrastClass, LargeFontsClass, ReduceMotionClass} ==> c in existing
  {
    (existing - {HighContrastClass, LargeFontsClass, ReduceMotionClass})
      + (if s.highContrast then {HighContrastClass} else {})
      + (if s.largeFonts then {LargeFontsClass} else {})
      + (if s.reduceMotion then {ReduceMotionClass} else {})
  }

  /** Re-applying settings replaces the earlier projection: the last settings applied decide. */
  lemma RootClassesLastWins(existing: set<string>, s: Settings, t: Settings)
    ensures ApplyRootClasses(ApplyRootClasses(existing, s), t) == ApplyRootClasses(existing, t)
  {
  }

  /** Flipping only `screenReader` leaves the root classes as they were. */
  lemma ScreenReaderHasNoClass(existing: set<string>, s: Settings)
    ensures ApplyRootClasses(existing, s.(screenReader := !s.screenReader)) == ApplyRootClasses(existing, s)
  {
  }

  /** A `SpeechSynthesisUtterance` as handed to `speechSynthesis.speak`. */
  datatype Utterance = Utterance(text: string, rate: real, pitch: real)

  const Rate: real := 0.8
  const Pitch: real := 1.0

  /** Narration is audible only with the screen-reader flag on and a synthesizer present. */
  predicate Audible(s: Settings, synthesis: bool) {
    s.screenReader && synthesis
  }

  /** `speak(text)`: one utterance at rate 0.8 and pitch 1 when audible, nothing otherwise. */
  function Speak(s: Settings, synthesis: bool, text: string): (out: seq<Utterance>)
    ensures |out| == 1 <==> Audible(s, synthesis)
    ensures |out| <= 1
    ensures forall u :: u in out ==> u == Utterance(text, Rate, Pitch)
  {
    if Audible(s, synthesis) then [Utterance(text, Rate, Pitch)] else []
  }

  /**
   * What the synthesizer receives for the texts a transition hands to `speak`, in call
   * order. Nothing is ever cancelled: every text becomes its own utterance, or none does.
   */
  function Voice(s: Settings, synthesis: bool, said: seq<string>): (out: seq<Utterance>)
    ensures Audible(s, synthesis) ==> |out| == |said|
    ensures Audible(s, synthesis) ==> forall i :: 0 <= i < |said| ==> out[i] == Utterance(said[i], Rate, Pitch)
    ensures !Audible(s, synthesis) ==> out == []
  {
    if said == [] then [] else Speak(s, synthesis, said[0]) + Voice(s, synthesis, said[1..])
  }

  /** Later speech only appends: what was queued earlier is never withdrawn. */
  lemma VoiceAppends(s: Settings, synthesis: bool, a: seq<string>, b: seq<string>)
    ensures Voice(s, synthesis, a + b) == Voice(s, synthesis, a) + Voice(s, synthesis, b)
  {
  }

  /** A transition's new state and the texts it hands to `speak`, in call order. */
  datatype Step<S> = Step(state: S, said: seq<string>)
}
