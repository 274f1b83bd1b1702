/**
 * The shared records of src/types/index.ts.
 *
 * A `User` comes from the signed-in user record (the auth context is not modelled), and
 * nothing checks at run time that its `role` and `disability_type` lie inside the TypeScript unions. The model
 * therefore keeps the stored text and decodes it with `ParseRole` and
 * `ParseDisability`; the decoders are what make the source's `default:` branches
 * reachable.
 */
module Types {
  import opened Wrappers

  /** `UserRole`: 'user' | 'caregiver' | 'therapist'. */
  datatype UserRole = EndUser | Caregiver | Therapist

  /** `DisabilityType`: 'cognitive' | 'visual' | 'hearing' | 'physical'. */
  datatype DisabilityType = Cognitive | Visual | Hearing | Physical

  /** `AccessibilitySettings`: four independent flags. */
  datatype Settings = Settings(highContrast: bool, largeFonts: bool, reduceMotion: bool, screenReader: bool)

  /** `User`; `role` and `disabilityType` hold the stored text (see the module comment). */
  datatype User = User(
    id: string,
    name: string,
    email: string,
    role: string,
    disabilityType: Option<string>,
    createdAt: string)

  function RoleName(r: UserRole): string {
    match r
    case EndUser => "user"
    case Caregiver => "caregiver"
    case Therapist => "therapist"
  }

  function DisabilityName(d: DisabilityType): string {
    match d
    case Cognitive => "cognitive"
    case Visual => "visual"
    case Hearing => "hearing"
    case Physical => "physical"
  }

  /** Decodes a stored role: exactly the three role names decode, each to its own role. */
  function ParseRole(s: string): (r: Option<UserRole>)
    ensures r.Some? ==> RoleName(r.value) == s
    ensures r.None? ==> forall role: UserRole :: RoleName(role) != s
  {
    if s == "user" then Some(EndUser)
    else if s == "caregiver" then Some(Caregiver)
    else if s == "therapist" then Some(Therapist)
    else None
  }

  /** Decodes a stored disability type: exactly the four names decode, each to its own type. */
  function ParseDisability(s: string): (r: Option<DisabilityType>)
    ensures r.Some? ==> DisabilityName(r.value) == s
    ensures r.None? ==> forall d: DisabilityType :: DisabilityName(d) != s
  {
    if s == "cognitive" then Some(Cognitive)
    else if s == "visual" then Some(Visual)
    else if s == "hearing" then Some(Hearing)
    else if s == "physical" then Some(Physical)
    else None
  }

  lemma RoleRoundTrip(r: UserRole)
    ensures ParseRole(RoleName(r)) == Some(r)
  {
  }

  lemma DisabilityRoundTrip(d: DisabilityType)
    ensures ParseDisability(DisabilityName(d)) == Some(d)
  {
  }
}
