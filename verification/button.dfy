/**
 * src/components/ui/AccessibleButton.tsx: the prop defaults, the size classes that
 * depend on the disability type held by the accessibility context, and the click
 * handler that speaks before it calls `onClick`.
 *
 * Class lists are kept as sequences of tokens; the source writes each as one
 * space-separated string.
 */
module Button {
  import opened Wrappers

  datatype Variant = Primary | Secondary | Danger
  datatype Size = Sm | Md | Lg

  /** The props this model reads; `hasOnClick` is whether an `onClick` was passed. */
  datatype Props = Props(variant: Option<Variant>, size: Option<Size>, speakText: Option<string>, hasOnClick: bool)

  /** `variant = 'primary'`, `size = 'md'`. */
  function VariantOf(p: Props): (v: Variant)
    ensures p.variant.None? ==> v == Primary
    ensures p.variant.Some? ==> v == p.variant.value
  {
    p.variant.GetOr(Primary)
  }

  function SizeOf(p: Props): (z: Size)
    ensures p.size.None? ==> z == Md
    ensures p.size.Some? ==> z == p.size.value
  {
    p.size.GetOr(Md)
  }

  /** The profile that enlarges hit targets: `disabilityType === 'physical'`. */
  predicate Enlarged(ctxType: Option<string>) {
    ctxType == Some("physical")
  }

  /** `sizeClasses[size]`, chosen by whether the context's profile is physical. */
  function SizeTokens(size: Size, ctxType: Option<string>): seq<string> {
    if Enlarged(ctxType) then
      match size
      case Sm => ["px-4", "py-3", "text-sm", "min-h-[48px]"]
      case Md => ["px-6", "py-4", "text-base", "min-h-[56px]"]
      case Lg => ["px-8", "py-6", "text-lg", "min-h-[64px]"]
    else
      match size
      case Sm => ["px-3", "py-2", "text-sm"]
      case Md => ["px-4", "py-2", "text-base"]
      case Lg => ["px-6", "py-3", "text-lg"]
  }

  /** The minimum height, in pixels, that a size guarantees on the physical profile. */
  function MinHeightPx(size: Size): nat {
    match size
    case Sm => 48
    case Md => 56
    case Lg => 64
  }

  function MinHeightToken(px: nat): string {
    if px == 48 then "min-h-[48px]" else if px == 56 then "min-h-[56px]" else "min-h-[64px]"
  }

  /**
   * Only the physical profile adds a min-height class, and it is the one for the
   * button's own size (48/56/64px for sm/md/lg); no other profile gets any of them.
   */
  lemma MinHeightOnlyWhenPhysical(size: Size, ctxType: Option<string>)
    ensures forall z: Size :: MinHeightToken(MinHeightPx(z)) in SizeTokens(size, ctxType) <==> Enlarged(ctxType) && z == size
  {
  }

  /** What one click does, in order: a call of `speak`, a call of the `onClick` prop. */
  datatype ClickEvent = SpeakCall(text: string) | HandlerCall

  /**
   * `handleClick`: speaks a non-empty `speakText` (an empty string is falsy), then
   * calls `onClick` if one was given. The speak call always comes first.
   */
  function Click(p: Props): (events: seq<ClickEvent>)
    ensures HandlerCall in events <==> p.hasOnClick
    ensures forall t :: SpeakCall(t) in events <==> p.speakText == Some(t) && t != ""
    ensures forall i, j :: 0 <= i < |events| && 0 <= j < |events| && events[i].SpeakCall? && events[j].HandlerCall? ==> i < j
    ensures |events| == (if p.speakText.Some? && p.speakText.value != "" then 1 else 0) + (if p.hasOnClick then 1 else 0)
  {
    (if p.speakText.Some? && p.speakText.value != "" then [SpeakCall(p.speakText.value)] else [])
      + (if p.hasOnClick then [HandlerCall] else [])
  }

  /**
   * The texts one click hands to `speak`, when the `onClick` it runs itself hands
   * `handlerSaid` to `speak`: the button's own text first, then the handler's.
   */
  function ClickSaid(p: Props, handlerSaid: seq<string>): (said: seq<string>)
    ensures p.hasOnClick && p.speakText.Some? && p.speakText.value != "" ==> said == [p.speakText.value] + handlerSaid
    ensures p.hasOnClick && (p.speakText.None? || p.speakText.value == "") ==> said == handlerSaid
    ensures !p.hasOnClick ==> forall t :: t in said <==> SpeakCall(t) in Click(p)
    ensures !p.hasOnClick ==> |said| <= 1
  {
    var events := Click(p);
    if events == [] then []
    else if |events| == 1 then (if events[0].SpeakCall? then [events[0].text] else handlerSaid)
    else [events[0].text] + handlerSaid
  }
}
