# Accessibility state machines of the AbleLink dashboard

This project models, in Dafny, the logic inside the AbleLink React front end: the
accessibility settings store and its speech gate, and the small state machines of
the four disability-specific interfaces. It also models the routing by role and by
disability profile, and the click semantics of the accessible button. Everything is
an immutable datatype with transition functions, total on the states the components
can reach. Host effects are plain values:

- local storage is an `Option<Settings>`;
- each `matchMedia` query is a boolean;
- the presence of `speechSynthesis` is a boolean;
- a `setTimeout` callback is a `TimerFired` event.

Each transition of the Cognitive and Visual interfaces returns a `Step(state, said)`.
Here `said` lists the texts the transition hands to `speak`, in call order. The Hearing
and Physical interfaces never call `speak`, so their transitions return the state alone. `Accessibility.Voice` turns those texts
into the utterances the synthesizer receives.

Modules, one per source file:

- `Types`: src/types/index.ts
- `Accessibility`: src/contexts/AccessibilityContext.tsx
- `Button`: src/components/ui/AccessibleButton.tsx
- `Cognitive`, `Visual`, `Hearing`, `Physical`: src/components/disabilities/
- `Dashboard`: src/components/dashboards/UserDashboard.tsx
- `Routes`: src/App.tsx

`Wrappers` holds `Option`.

A user's `role` and `disability_type` come from the signed-in user record (the auth
context is not modelled), and nothing checks them against the TypeScript unions at run time. The model keeps the stored text
and decodes it with `ParseRole` and `ParseDisability`. This is what makes the source's
`default:` branches reachable.

Three facts about the code shape the model:

- An ambient high-contrast or reduced-motion signal forces its flag on after loading,
  even over a saved `false`.
- `speak` never cancels earlier utterances. Each call hands at most one utterance to the host: one when
  `screenReader` is on and synthesis is present, none otherwise.
- The caregiver and therapist figures are literals, so there is nothing to aggregate.

## Model

| member | source | states |
|---|---|---|
| Types.ParseRole | src/types/index.ts:1 | exactly the three role names decode, each to the role it names |
| Types.ParseDisability | src/types/index.ts:3 | exactly the four disability names decode, each to the type it names |
| Accessibility.Merge | src/contexts/AccessibilityContext.tsx:58-60 | shallow merge: a field present in the partial takes its value, an absent field keeps the old one |
| Accessibility.MergeIdempotent | src/contexts/AccessibilityContext.tsx:58-60 | applying the same partial twice equals applying it once |
| Accessibility.MergeNoChange | src/contexts/AccessibilityContext.tsx:58-60 | the empty partial leaves the settings unchanged |
| Accessibility.MergeThen | src/contexts/AccessibilityContext.tsx:58-60 | two updates equal one update in which the later fields win |
| Accessibility.Loaded | src/contexts/AccessibilityContext.tsx:33-36 | a saved blob replaces the settings wholesale; an absent one leaves the defaults |
| Accessibility.ApplyAmbient | src/contexts/AccessibilityContext.tsx:38-44 | each matching media query forces its flag to true; it never clears a flag or touches another field |
| Accessibility.StartupDefaults | src/contexts/AccessibilityContext.tsx:23-28 | the initial settings are four false flags, and startup without a blob or signal keeps them |
| Accessibility.Startup | src/contexts/AccessibilityContext.tsx:31-45 | the provider's settings after mount: the loaded settings raised by the ambient signals; specified by `StartupDefaults` and `StartupKeepsLoaded` |
| Accessibility.StartupKeepsLoaded | src/contexts/AccessibilityContext.tsx:31-45 | the ambient step only raises flags over what was loaded; large fonts and screen reader stay as loaded |
| Accessibility.Boot | src/contexts/AccessibilityContext.tsx:31-56 | after mount, storage holds exactly the live settings, and no disability type is set |
| Accessibility.UpdateSettings | src/contexts/AccessibilityContext.tsx:47-60 | an update merges, then writes the full settings to storage; the disability type is untouched |
| Accessibility.SetDisabilityType | src/contexts/AccessibilityContext.tsx:29 | setting the disability type changes neither the settings nor storage |
| Accessibility.OperationsKeepPersisted | src/contexts/AccessibilityContext.tsx:47-56 | every operation keeps storage equal to the live settings |
| Accessibility.ReloadAfterUpdate | src/contexts/AccessibilityContext.tsx:31-56 | a fresh load after an update returns the settings last written, raised by any ambient signals |
| Accessibility.ApplyRootClasses | src/contexts/AccessibilityContext.tsx:49-52 | high-contrast, large-fonts and reduce-motion are on the root iff their flag is set; the other root classes stay |
| Accessibility.RootClassesLastWins | src/contexts/AccessibilityContext.tsx:47-52 | re-running the projection leaves the classes of the last settings applied |
| Accessibility.ScreenReaderHasNoClass | src/contexts/AccessibilityContext.tsx:49-52 | the screen-reader flag has no effect on the root classes |
| Accessibility.Speak | src/contexts/AccessibilityContext.tsx:62-69 | one utterance with rate 0.8 and pitch 1 iff screen reader is on and synthesis exists; otherwise none |
| Accessibility.Voice | src/contexts/AccessibilityContext.tsx:62-69 | each text handed to speak becomes its own utterance, in order, when audible; nothing is said otherwise |
| Accessibility.VoiceAppends | src/contexts/AccessibilityContext.tsx:62-69 | speaking more only appends utterances: earlier ones are never cancelled |
| Button.VariantOf | src/components/ui/AccessibleButton.tsx:13 | the variant defaults to primary |
| Button.SizeOf | src/components/ui/AccessibleButton.tsx:14 | the size defaults to md |
| Button.SizeTokens | src/components/ui/AccessibleButton.tsx:17-35 | the size classes of a button; specified by `MinHeightOnlyWhenPhysical` (a min-height class iff the profile is physical, 48/56/64px) |
| Button.MinHeightOnlyWhenPhysical | src/components/ui/AccessibleButton.tsx:31-35 | a min-height class appears iff the profile is physical, and it is 48/56/64px for sm/md/lg |
| Button.Click | src/components/ui/AccessibleButton.tsx:37-42 | a non-empty speakText is spoken exactly once, onClick runs exactly once iff given, and the speak call comes first |
| Button.ClickSaid | src/components/ui/AccessibleButton.tsx:37-42 | the button's own text is spoken before everything its handler speaks; without a handler, at most the button's text |
| Cognitive.ToggleMatching | src/components/disabilities/CognitiveInterface.tsx:30-32 | completed flips exactly on tasks with the id; length, order and all other fields are kept |
| Cognitive.ToggleMatchingTwice | src/components/disabilities/CognitiveInterface.tsx:30-32 | toggling the same id twice restores the list of tasks |
| Cognitive.Toggle | src/components/disabilities/CognitiveInterface.tsx:29-34 | the announcement is "Task completed" iff the current task was open before the toggle, else "Task unmarked" |
| Cognitive.ToggleCurrentAnnouncesNewState | src/components/disabilities/CognitiveInterface.tsx:33 | toggling the focused task, the announcement matches its new state |
| Cognitive.ToggleTwice | src/components/disabilities/CognitiveInterface.tsx:29-34 | toggle is an involution on the whole component state |
| Cognitive.Next | src/components/disabilities/CognitiveInterface.tsx:36-41 | moves forward only when a later task exists, announcing the new task's description; else a no-op |
| Cognitive.Prev | src/components/disabilities/CognitiveInterface.tsx:43-48 | moves back only from a positive index, announcing the new task's description; else a no-op |
| Cognitive.NextPrevInverse | src/components/disabilities/CognitiveInterface.tsx:36-48 | a move that happened is undone by the opposite move |
| Cognitive.Press | src/components/disabilities/CognitiveInterface.tsx:73-113 | a disabled button does nothing; an enabled one speaks its text, then runs its handler |
| Cognitive.SpeakTask | src/components/disabilities/CognitiveInterface.tsx:50-52 | the focused task's description and time; specified by `ReadAloudKeepsState` |
| Cognitive.ReadAloudKeepsState | src/components/disabilities/CognitiveInterface.tsx:50-52 | reading aloud keeps the state and speaks the focused task's description and time |
| Cognitive.EnabledNextMoves | src/components/disabilities/CognitiveInterface.tsx:105-113 | an enabled Next button always advances and announces the next task |
| Cognitive.RunKeepsBounds | src/components/disabilities/CognitiveInterface.tsx:23-48 | under any presses the index stays in [0, tasks-1]; the list keeps its length and ids |
| Cognitive.InitialValid | src/components/disabilities/CognitiveInterface.tsx:15-24 | the component starts at index 0 on four tasks with distinct ids |
| Cognitive.DotAt | src/components/disabilities/CognitiveInterface.tsx:124-128 | a dot is completed if its task is, else current at the focused index, else pending |
| Cognitive.CurrentDot | src/components/disabilities/CognitiveInterface.tsx:121-129 | at most one dot is current, and one is iff the focused task is open |
| Visual.Mount | src/components/disabilities/VisualInterface.tsx:11-15 | the effect speaks the welcome text and leaves the log as exactly the "ready" entry |
| Visual.MountShowsReady | src/components/disabilities/VisualInterface.tsx:9-15 | the live region is empty before the effect and shows the "ready" entry after it |
| Visual.QuickAction | src/components/disabilities/VisualInterface.tsx:23-26 | appends exactly "Activated: a" to the log, keeps earlier entries, and speaks "Navigating to a" |
| Visual.LiveRegion | src/components/disabilities/VisualInterface.tsx:118 | the live region shows the last log entry, and nothing for an empty log |
| Visual.LiveRegionShowsLastAction | src/components/disabilities/VisualInterface.tsx:112-119 | right after a quick action the live region announces it |
| Visual.ToggleHighContrast | src/components/disabilities/VisualInterface.tsx:28-32 | negates highContrast only, persists, and speaks the new value |
| Visual.ToggleLargeFonts | src/components/disabilities/VisualInterface.tsx:34-38 | negates largeFonts only, persists, and speaks the new value |
| Visual.ToggleTwiceRestores | src/components/disabilities/VisualInterface.tsx:28-38 | toggling twice restores the settings |
| Visual.TogglesCommute | src/components/disabilities/VisualInterface.tsx:28-38 | the two toggles commute |
| Visual.Press | src/components/disabilities/VisualInterface.tsx:59-104 | a click speaks the button's text, then runs the handler: a toggle says the old value, then the new one; a quick action says its name and description, then "Navigating to" it |
| Visual.PressAsWritten | src/components/disabilities/VisualInterface.tsx:11-15 | as written, a toggle click re-runs the effect: the welcome follows the click's speech and the log is reset to the "ready" entry |
| Visual.ToggleHighContrastAsWritten | src/components/disabilities/VisualInterface.tsx:11-15 | as written, a high-contrast click speaks old value, new value, then the welcome, and resets the log to the "ready" entry |
| Visual.HealthLogAfterMount | src/components/disabilities/VisualInterface.tsx:11-27 | mounting and then choosing "Health Log" leaves the "ready" entry followed by "Activated: Health Log" |
| Visual.ToggleDropsLogAsWritten | src/components/disabilities/VisualInterface.tsx:11-15 | from that log, the as-written toggle resets the log to the "ready" entry, so the live region loses the quick action the mount-only click keeps |
| Hearing.Without | src/components/disabilities/HearingInterface.tsx:16 | exactly the notifications with another id survive |
| Hearing.WithoutKeepsCopies | src/components/disabilities/HearingInterface.tsx:16 | every copy of a surviving notification is kept: each count equals the input's, and 0 for the dismissed id |
| Hearing.WithoutKeepsOrder | src/components/disabilities/HearingInterface.tsx:16 | the survivors keep their original relative order |
| Hearing.WithoutAbsent | src/components/disabilities/HearingInterface.tsx:16 | dismissing an absent id changes nothing |
| Hearing.WithoutIdempotent | src/components/disabilities/HearingInterface.tsx:16 | dismissing the same id twice equals dismissing it once |
| Hearing.WithoutCommutes | src/components/disabilities/HearingInterface.tsx:16 | two dismissals commute |
| Hearing.Dismiss | src/components/disabilities/HearingInterface.tsx:15-19 | dismissal filters by id, sets "Notification dismissed", and starts one clear timer |
| Hearing.TimerFired | src/components/disabilities/HearingInterface.tsx:18 | a firing timer clears the message to "" and leaves the list |
| Hearing.Banner | src/components/disabilities/HearingInterface.tsx:44-51 | the feedback banner shows iff the message is non-empty |
| Hearing.FirstTimerClearsLaterMessage | src/components/disabilities/HearingInterface.tsx:15-19 | after two dismissals the first timer hides the banner while the second is still pending |
| Hearing.IconFor | src/components/disabilities/HearingInterface.tsx:21-28 | medicine, meal and appointment get their own icons; every other type gets the bell |
| Hearing.Render | src/components/disabilities/HearingInterface.tsx:60-106 | "All caught up!" iff the list is empty; else one card per notification, in order, with its icon, message and time, and URGENT iff urgent |
| Hearing.RenderAfterDismiss | src/components/disabilities/HearingInterface.tsx:60-76 | after any dismissal the panel is "All caught up!" iff every notification had that id; each remaining card shows a surviving notification's icon |
| Hearing.DismissAllCaughtUp | src/components/disabilities/HearingInterface.tsx:7-11 | dismissing the three initial notifications reaches "All caught up!" |
| Physical.Select | src/components/disabilities/PhysicalInterface.tsx:16-18 | selecting an action makes its id the selection |
| Physical.Back | src/components/disabilities/PhysicalInterface.tsx:121 | the back button resets the selection to null |
| Physical.FindName | src/components/disabilities/PhysicalInterface.tsx:114 | the heading lookup finds a name iff some action has the id, and it is the name of the first such action |
| Physical.DetailPanel | src/components/disabilities/PhysicalInterface.tsx:111-115 | the panel shows iff the selection is a non-empty id, headed by the matching action's name |
| Physical.MainActionsWellFormed | src/components/disabilities/PhysicalInterface.tsx:9-14 | the four action ids are distinct and non-empty |
| Physical.Highlighted | src/components/disabilities/PhysicalInterface.tsx:33-35 | a card carries the ring iff its id is the selection; specified by `AtMostOneHighlighted` and `SelectShowsCard` |
| Physical.AtMostOneHighlighted | src/components/disabilities/PhysicalInterface.tsx:33-35 | with distinct ids at most one card is highlighted |
| Physical.SelectShowsCard | src/components/disabilities/PhysicalInterface.tsx:29-44 | selecting a card highlights it alone and opens the panel headed with its name |
| Physical.BackHidesPanel | src/components/disabilities/PhysicalInterface.tsx:119-127 | back closes the panel and clears every highlight |
| Physical.SelectBackRestores | src/components/disabilities/PhysicalInterface.tsx:16-18 | selecting then going back returns the selection to null |
| Physical.CardClickAsWritten | src/components/disabilities/PhysicalInterface.tsx:30-38 | as written, a card click leaves the state unchanged, because the card drops its onClick |
| Physical.PanelNeverOpensAsWritten | src/components/disabilities/PhysicalInterface.tsx:30-38 | as written, no sequence of card clicks ever opens the detail panel |
| Physical.CardClick | src/components/disabilities/PhysicalInterface.tsx:36 | the intended card click selects that card's id |
| Physical.CardClickOpensPanel | src/components/disabilities/PhysicalInterface.tsx:36 | with the intended click, one click opens the card's panel |
| Dashboard.ProfileText | src/components/dashboards/UserDashboard.tsx:23 | the type counts as set iff a user exists and its type is a non-empty string |
| Dashboard.RenderInterface | src/components/dashboards/UserDashboard.tsx:22-49 | placeholder iff no type is set; a known type gets its surface; any other text gets "not configured" |
| Dashboard.SurfacePerType | src/components/dashboards/UserDashboard.tsx:37-45 | each of the four types maps to its own surface, and no two share one |
| Dashboard.NoTypeNoSurface | src/components/dashboards/UserDashboard.tsx:23-35 | with no disability type the placeholder is rendered |
| Dashboard.LayoutProfile | src/components/dashboards/UserDashboard.tsx:52 | the layout profile is the set type, else "cognitive" |
| Dashboard.PlaceholderUsesCognitiveLayout | src/components/dashboards/UserDashboard.tsx:52 | the placeholder is laid out with the cognitive profile |
| Dashboard.SurfaceLayoutAgree | src/components/dashboards/UserDashboard.tsx:52 | a shown surface is laid out with its own profile |
| Dashboard.SyncDisabilityType | src/components/dashboards/UserDashboard.tsx:16-20 | the context's type becomes the user's type when it is set; otherwise nothing changes |
| Dashboard.SyncIdempotent | src/components/dashboards/UserDashboard.tsx:16-20 | re-running the effect changes nothing |
| Dashboard.Capitalize | src/components/dashboards/UserDashboard.tsx:57 | the first character is upper-cased and the rest kept |
| Dashboard.Subtitle | src/components/dashboards/UserDashboard.tsx:56-58 | the capitalised type plus " Interface" when a type is set, else empty |
| Dashboard.SubtitleOfKnownType | src/components/dashboards/UserDashboard.tsx:57 | each known type's subtitle is its display name plus " Interface" |
| Routes.BoardFor | src/App.tsx:29-35 | user, caregiver and therapist map to their own dashboards |
| Routes.GetDashboardAsWritten | src/App.tsx:28-39 | a known role gets its dashboard; any other stored role navigates to /auth |
| Routes.RouteAsWritten | src/App.tsx:10-47 | spinner while loading; auth page without a user; "/" dispatches on role; every other path navigates to "/" |
| Routes.UnknownRoleLoopsAsWritten | src/App.tsx:36-44 | as written, a signed-in user with an unknown role is redirected for ever |
| Routes.GetDashboard | src/App.tsx:28-39 | the intended dispatch: a known role gets its dashboard, any other role the auth page |
| Routes.Route | src/App.tsx:10-47 | the same gate and routes with the intended dispatch |
| Routes.RedirectsOnlyToRoot | src/App.tsx:41-46 | every redirect goes to "/", and "/" never redirects |
| Routes.RouteSettles | src/App.tsx:41-46 | with the intended dispatch, every path settles after at most one redirect, on the role's dashboard for known roles |
| Routes.KnownRolesUnchanged | src/App.tsx:28-39 | the intended and the written routing agree for every role in the union |

## Findings

| source | as written | input that shows it | evidently intended | confidence | as-written member | corrected member |
|---|---|---|---|---|---|---|
| src/App.tsx:36-44 | an unknown role navigates to "/auth", but no route renders a page at "/auth" for a signed-in user; "*" navigates back to "/" | a signed-in user whose stored role is, for example, "admin" | show the auth page for a role outside the union | high; not executed | Routes.UnknownRoleLoopsAsWritten | Routes.RouteSettles |
| src/components/disabilities/PhysicalInterface.tsx:30-38 | each card passes `onClick` to `AccessibleCard`, which neither declares nor forwards it (src/components/ui/AccessibleCard.tsx:12-18) | a click on any of the four cards | the click calls `handleActionSelect(action.id)` | high; not executed | Physical.PanelNeverOpensAsWritten | Physical.CardClickOpensPanel |
| src/components/disabilities/VisualInterface.tsx:11-15 | the mount effect depends on `speak`, a new function on every provider render, so every settings toggle re-runs it | mount, choose "Health Log", then toggle high contrast | the welcome runs once on mount and the log survives settings changes | medium; not executed | Visual.ToggleDropsLogAsWritten | Visual.Press |

## Left out

- Progress aggregation, mood averaging, composite scores and population totals: none of this exists in the code. The caregiver and therapist dashboards show literals.
- Sequential or cancellable narration: the code only hands single utterances to `speechSynthesis.speak`.
- The auth forms and auth page (LoginForm, SignUpForm, AuthPage). They wrap `signIn` / `signUp` of an AuthContext that is not part of this model. `signOut` is left out for the same reason.
- React scheduling: startup is one load-and-ambient step followed by one persist. The transient write of the defaults before the loaded settings land is not modelled.
- The welcome may be spoken twice around mount, when the dashboard's `setDisabilityType` re-renders the provider. Each mount is modelled as one run of the effect.
- Accessibility.Loaded: the saved blob is an `Option<Settings>`. An empty string (falsy, so ignored) and a malformed blob (on which `JSON.parse` throws) are not modelled, because the provider only ever writes full settings.
- Accessibility.Merge: a partial whose field is present with the value `undefined` would copy `undefined` in; patches carry only booleans.
- Dashboard.Capitalize: upper-cases ASCII letters only, because JavaScript's full Unicode case mapping is not modelled.
- Hearing.TimerFired: the 3000 ms delay is not modelled; a timer is an event that can fire once it was started.
- `useAccessibility` throwing outside a provider is not modelled: every component here sits inside the provider.
- Styling-only mappings are not modelled: variant colours, the class strings of AccessibleCard and DisabilityLayout, icons beyond the notification icon choice, and date/time formatting.
- The quick-action buttons of the hearing and physical interfaces and the placeholder's "Update Profile" button have no `onClick`, so clicking them has no effect to model.
