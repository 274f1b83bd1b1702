/**
 * src/components/disabilities/VisualInterface.tsx: the two settings toggles, the quick
 * actions, and the announcement log whose last entry fills the polite live region.
 *
 * The component reads and writes the settings of the accessibility context, so its
 * state carries the whole `Context`; persistence comes with `UpdateSettings`.
 */
module Visual {
  import opened Wrappers
  import opened Accessibility
  import Button

  const Welcome: string := "Welcome to your dashboard. Use tab to navigate between elements."
  const Ready: string := "Page loaded. Dashboard ready."

  /** One quick-action button: its name and the description read out with it. */
  datatype QuickActionItem = QuickActionItem(name: string, description: string)

  const QuickActions: seq<QuickActionItem> := [
    QuickActionItem("Daily Schedule", "View and manage your daily tasks"),
    QuickActionItem("Health Log", "Record mood, medications, and meals"),
    QuickActionItem("Accessibility Settings", "Adjust interface preferences")
  ]

  datatype State = State(ctx: Context, log: seq<string>)

  /** The first render: `useState<string[]>([])`. */
  function Initial(ctx: Context): State {
    State(ctx, [])
  }

  /** The `[speak]` effect: speaks the welcome text and resets the log to the one "ready" entry. */
  function Mount(s: State): (r: Step<State>)
    ensures r.state.log == [Ready] && r.said == [Welcome] && r.state.ctx == s.ctx
  {
    Step(s.(log := [Ready]), [Welcome])
  }

  /** `handleQuickAction(a)`: one new entry at the end of the log; earlier entries stay. */
  function QuickAction(s: State, action: string): (r: Step<State>)
    ensures |r.state.log| == |s.log| + 1
    ensures r.state.log[..|s.log|] == s.log
    ensures r.state.log[|s.log|] == "Activated: " + action
    ensures r.said == ["Navigating to " + action]
    ensures r.state.ctx == s.ctx
  {
    Step(s.(log := s.log + ["Activated: " + action]), ["Navigating to " + action])
  }

  /** The live region renders `announcements[announcements.length - 1]`: nothing for an empty log. */
  function LiveRegion(s: State): (shown: Option<string>)
    ensures shown.None? <==> s.log == []
    ensures shown.Some? ==> shown.value == s.log[|s.log| - 1]
  {
    if s.log == [] then None else Some(s.log[|s.log| - 1])
  }

  /** Right after a quick action, the live region shows that action. */
  lemma LiveRegionShowsLastAction(s: State, action: string)
    ensures LiveRegion(QuickAction(s, action).state) == Some("Activated: " + action)
  {
  }

  /** Mounting leaves exactly the "ready" entry in the live region. */
  lemma MountShowsReady(ctx: Context)
    ensures LiveRegion(Mount(Initial(ctx)).state) == Some(Ready)
    ensures LiveRegion(Initial(ctx)) == None
  {
  }

  /**
   * `toggleHighContrast`: negates `highContrast`, keeps the other three flags, persists,
   * and says the new value. This is the mount-only reading of the `[speak]` effect, under
   * which the log survives the toggle.
   */
  function ToggleHighContrast(s: State): (r: Step<State>)
    ensures r.state.ctx.settings.highContrast == !s.ctx.settings.highContrast
    ensures r.state.ctx.settings.(highContrast := s.ctx.settings.highContrast) == s.ctx.settings
    ensures Persisted(r.state.ctx) && r.state.ctx.disabilityType == s.ctx.disabilityType
    ensures r.said == [if r.state.ctx.settings.highContrast then "High contrast mode enabled" else "High contrast mode disabled"]
    ensures r.state.log == s.log
  {
    var on := !s.ctx.settings.highContrast;
    Step(s.(ctx := UpdateSettings(s.ctx, NoChange.(highContrast := Some(on)))),
         [if on then "High contrast mode enabled" else "High contrast mode disabled"])
  }

  /** `toggleLargeFonts`: the same shape for `largeFonts`. */
  function ToggleLargeFonts(s: State): (r: Step<State>)
    ensures r.state.ctx.settings.largeFonts == !s.ctx.settings.largeFonts
    ensures r.state.ctx.settings.(largeFonts := s.ctx.settings.largeFonts) == s.ctx.settings
    ensures Persisted(r.state.ctx) && r.state.ctx.disabilityType == s.ctx.disabilityType
    ensures r.said == [if r.state.ctx.settings.largeFonts then "Large fonts enabled" else "Large fonts disabled"]
    ensures r.state.log == s.log
  {
    var on := !s.ctx.settings.largeFonts;
    Step(s.(ctx := UpdateSettings(s.ctx, NoChange.(largeFonts := Some(on)))),
         [if on then "Large fonts enabled" else "Large fonts disabled"])
  }

  /** Toggling twice restores the settings (storage then holds them again too). */
  lemma ToggleTwiceRestores(s: State)
    ensures ToggleHighContrast(ToggleHighContrast(s).state).state.ctx.settings == s.ctx.settings
    ensures ToggleLargeFonts(ToggleLargeFonts(s).state).state.ctx.settings == s.ctx.settings
  {
  }

  /** The two toggles touch different flags, so their order does not matter. */
  lemma TogglesCommute(s: State)
    ensures ToggleHighContrast(ToggleLargeFonts(s).state).state.ctx.settings
         == ToggleLargeFonts(ToggleHighContrast(s).state).state.ctx.settings
  {
  }

  /** The buttons of the page: the two toggles and quick action `k`. */
  datatype Control = HighContrastButton | LargeFontsButton | QuickActionButton(k: nat)

  /** Only the three quick actions exist. */
  predicate Rendered(c: Control) {
    c.QuickActionButton? ==> c.k < |QuickActions|
  }

  /**
   * The props each button is rendered with. A toggle's spoken text describes the
   * setting as it is before the click.
   */
  function ButtonProps(s: State, c: Control): Button.Props
    requires Rendered(c)
  {
    match c
    case HighContrastButton =>
      var on := s.ctx.settings.highContrast;
      Button.Props(Some(if on then Button.Primary else Button.Secondary), Some(Button.Lg),
                   Some(if on then "High contrast mode is on" else "High contrast mode is off"), true)
    case LargeFontsButton =>
      var on := s.ctx.settings.largeFonts;
      Button.Props(Some(if on then Button.Primary else Button.Secondary), Some(Button.Lg),
                   Some(if on then "Large fonts are on" else "Large fonts are off"), true)
    case QuickActionButton(k) =>
      Button.Props(Some(Button.Secondary), Some(Button.Lg),
                   Some(QuickActions[k].name + ". " + QuickActions[k].description), true)
  }

  /** The `onClick` of each button. */
  function Handler(s: State, c: Control): Step<State>
    requires Rendered(c)
  {
    match c
    case HighContrastButton => ToggleHighContrast(s)
    case LargeFontsButton => ToggleLargeFonts(s)
    case QuickActionButton(k) => QuickAction(s, QuickActions[k].name)
  }

  /**
   * One click on a button of the page (the mount-only reading of the effect): the
   * button speaks its own text, then its handler runs and speaks. A toggle click thus
   * says the old value first and the new value second.
   */
  function Press(s: State, c: Control): (r: Step<State>)
    requires Rendered(c)
    ensures r.state == Handler(s, c).state
    ensures c == HighContrastButton ==> r.said == [
      if s.ctx.settings.highContrast then "High contrast mode is on" else "High contrast mode is off",
      if s.ctx.settings.highContrast then "High contrast mode disabled" else "High contrast mode enabled"]
    ensures c == LargeFontsButton ==> r.said == [
      if s.ctx.settings.largeFonts then "Large fonts are on" else "Large fonts are off",
      if s.ctx.settings.largeFonts then "Large fonts disabled" else "Large fonts enabled"]
    ensures c.QuickActionButton? ==> r.said == [
      QuickActions[c.k].name + ". " + QuickActions[c.k].description,
      "Navigating to " + QuickActions[c.k].name]
  {
    var h := Handler(s, c);
    Step(h.state, Button.ClickSaid(ButtonProps(s, c), h.said))
  }

  /**
   * A click as written. The effect's dependency `speak` is a new function on every
   * render of the provider, and every settings change re-renders the provider; so after
   * each toggle click the effect runs again: the welcome is spoken once more and the
   * log is reset. A quick action changes no settings and behaves as in `Press`.
   */
  function PressAsWritten(s: State, c: Control): (r: Step<State>)
    requires Rendered(c)
    ensures r.state.ctx == Press(s, c).state.ctx
    ensures c.QuickActionButton? ==> r == Press(s, c)
    ensures !c.QuickActionButton? ==> r.state.log == [Ready] && r.said == Press(s, c).said + [Welcome]
  {
    var p := Press(s, c);
    if c.QuickActionButton? then p
    else
      var m := Mount(p.state);
      Step(m.state, p.said + m.said)
  }

  /** A click on the high-contrast toggle as written. */
  function ToggleHighContrastAsWritten(s: State): (r: Step<State>)
    ensures r.state.ctx == ToggleHighContrast(s).state.ctx
    ensures r.state.log == [Ready]
    ensures r.said == Press(s, HighContrastButton).said + [Welcome]
  {
    PressAsWritten(s, HighContrastButton)
  }

  /** Mounting and then clicking "Health Log" leaves the "ready" entry followed by the action. */
  lemma HealthLogAfterMount(ctx: Context)
    ensures Press(Mount(Initial(ctx)).state, QuickActionButton(1)).state.log
      == [Ready, "Activated: Health Log"]
  {
    var m := Mount(Initial(ctx)).state;
    assert QuickActions[1].name == "Health Log";
    assert "Activated: " + "Health Log" == "Activated: Health Log";
    assert Press(m, QuickActionButton(1)).state.log == [Ready] + ["Activated: Health Log"];
  }

  /**
   * The discrepancy: in the state `HealthLogAfterMount` reaches, a click on the
   * high-contrast toggle as written makes the live region fall back to the "ready"
   * entry and drops the action from the log; the mount-only click keeps it.
   */
  lemma ToggleDropsLogAsWritten(s: State)
    requires s.log == [Ready, "Activated: Health Log"]
    ensures ToggleHighContrastAsWritten(s).state.log == [Ready]
    ensures LiveRegion(ToggleHighContrastAsWritten(s).state) == Some(Ready)
    ensures LiveRegion(Press(s, HighContrastButton).state) == Some("Activated: Health Log")
  {
  }
}
