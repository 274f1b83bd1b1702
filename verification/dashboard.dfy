/**
 * src/components/dashboards/UserDashboard.tsx: which surface the end user sees for the
 * stored disability type, the layout profile, the subtitle, and the effect that copies
 * the type into the accessibility context.
 *
 * `user?.disability_type` is falsy for a missing user, a missing type and the empty
 * string; all three take the "not set" branches.
 */
module Dashboard {
  import opened Wrappers
  import opened Types
  import opened Accessibility

  /** The stored type when it is truthy. */
  function ProfileText(user: Option<User>): (t: Option<string>)
    ensures t.Some? ==> t.value != ""
    ensures t.Some? <==> user.Some? && user.value.disabilityType.Some? && user.value.disabilityType.value != ""
  {
    if user.Some? && user.value.disabilityType.Some? && user.value.disabilityType.value != "" then user.value.disabilityType
    else None
  }

  /** What `renderInterface` returns. */
  datatype Content = Placeholder | Surface(kind: DisabilityType) | NotConfigured

  /**
   * `renderInterface`: the "please update your profile" placeholder when no type is set,
   * the matching interface for the four known types, and "Interface not configured" for
   * any other stored text.
   */
  function RenderInterface(user: Option<User>): (c: Content)
    ensures c == Placeholder <==> ProfileText(user).None?
    ensures c.Surface? ==> ProfileText(user) == Some(DisabilityName(c.kind))
    ensures c == NotConfigured <==> ProfileText(user).Some? && ParseDisability(ProfileText(user).value).None?
  {
    match ProfileText(user)
    case None => Placeholder
    case Some(t) =>
      match ParseDisability(t)
      case Some(d) => Surface(d)
      case None => NotConfigured
  }

  /** Each of the four types gets its own surface, and no two types share one. */
  lemma SurfacePerType(u: User, d: DisabilityType, e: DisabilityType)
    ensures RenderInterface(Some(u.(disabilityType := Some(DisabilityName(d))))) == Surface(d)
    ensures d != e ==>
      RenderInterface(Some(u.(disabilityType := Some(DisabilityName(d)))))
        != RenderInterface(Some(u.(disabilityType := Some(DisabilityName(e)))))
  {
  }

  /** Without a type the placeholder shows, never one of the four surfaces. */
  lemma NoTypeNoSurface(user: Option<User>)
    requires user.None? || user.value.disabilityType.None?
    ensures RenderInterface(user) == Placeholder
  {
  }

  /** `user?.disability_type || 'cognitive'`: the profile `DisabilityLayout` is given. */
  function LayoutProfile(user: Option<User>): (p: string)
    ensures ProfileText(user).None? ==> p == DisabilityName(Cognitive)
    ensures ProfileText(user).Some? ==> p == ProfileText(user).value
  {
    ProfileText(user).GetOr("cognitive")
  }

  /** The layout falls back to cognitive exactly where the content is the placeholder. */
  lemma PlaceholderUsesCognitiveLayout(user: Option<User>)
    requires RenderInterface(user) == Placeholder
    ensures LayoutProfile(user) == "cognitive"
  {
  }

  /** The layout always matches the surface shown. */
  lemma SurfaceLayoutAgree(user: Option<User>)
    requires RenderInterface(user).Surface?
    ensures LayoutProfile(user) == DisabilityName(RenderInterface(user).kind)
  {
  }

  /**
   * The effect: the context's type becomes the user's type when that is set; otherwise
   * the context keeps what it had, so the effect never clears it.
   */
  function SyncDisabilityType(ctx: Context, user: Option<User>): (r: Context)
    ensures ProfileText(user).Some? ==> r.disabilityType == ProfileText(user)
    ensures ProfileText(user).None? ==> r == ctx
    ensures r.settings == ctx.settings && r.saved == ctx.saved
  {
    match ProfileText(user)
    case Some(t) => SetDisabilityType(ctx, Some(t))
    case None => ctx
  }

  /** Running the effect again changes nothing. */
  lemma SyncIdempotent(ctx: Context, user: Option<User>)
    ensures SyncDisabilityType(SyncDisabilityType(ctx, user), user) == SyncDisabilityType(ctx, user)
  {
  }

  function UpperAscii(c: char): char {
    if 'a' <= c <= 'z' then (c as int - 'a' as int + 'A' as int) as char else c
  }

  /** `s.charAt(0).toUpperCase() + s.slice(1)`, for ASCII letters. */
  function Capitalize(s: string): (r: string)
    ensures |r| == |s|
    ensures |s| > 0 ==> r[1..] == s[1..] && r[0] == UpperAscii(s[0])
  {
    if s == "" then s else [UpperAscii(s[0])] + s[1..]
  }

  /** The subtitle: the type capitalised and " Interface" when a type is set, nothing otherwise. */
  function Subtitle(user: Option<User>): (t: string)
    ensures ProfileText(user).None? <==> t == ""
    ensures ProfileText(user).Some? ==> t == Capitalize(ProfileText(user).value) + " Interface"
  {
    match ProfileText(user)
    case None => ""
    case Some(p) => Capitalize(p) + " Interface"
  }

  /** The heading each type is shown under. */
  function DisplayName(d: DisabilityType): string {
    match d
    case Cognitive => "Cognitive"
    case Visual => "Visual"
    case Hearing => "Hearing"
    case Physical => "Physical"
  }

  /** For the four known types the subtitle is the display name followed by " Interface". */
  lemma SubtitleOfKnownType(u: User, d: DisabilityType)
    ensures Subtitle(Some(u.(disabilityType := Some(DisabilityName(d))))) == DisplayName(d) + " Interface"
  {
  }
}
