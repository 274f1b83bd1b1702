/**
 * src/components/disabilities/CognitiveInterface.tsx: one task in focus, bounds-guarded
 * stepping through the list, a completion toggle, and the progress dots.
 */
module Cognitive {
  import opened Wrappers
  import opened Accessibility
  import Button

  /** The component's own `Task` (not the one of src/types/index.ts). */
  datatype Task = Task(id: string, description: string, time: string, icon: string, completed: bool)

  datatype State = State(tasks: seq<Task>, current: nat)

  const MockTasks: seq<Task> := [
    Task("1", "Take morning medication", "9:00 AM", "\U{1F48A}", false),
    Task("2", "Eat breakfast", "9:30 AM", "\U{1F373}", false),
    Task("3", "Brush teeth", "10:00 AM", "\U{1F9B7}", false),
    Task("4", "Exercise for 15 minutes", "2:00 PM", "\U{1F3C3}", false)
  ]

  /** `useState(mockTasks)` and `useState(0)`. */
  const Initial: State := State(MockTasks, 0)

  /**
   * `currentTask = tasks[currentTaskIndex]` is rendered unguarded, so the component
   * relies on a non-empty list and an index inside it.
   */
  ghost predicate Valid(s: State) {
    0 < |s.tasks| && s.current < |s.tasks|
  }

  /** `a` and `b` agree on every field except, possibly, `completed`. */
  ghost predicate SameExceptCompletion(a: Task, b: Task) {
    a.(completed := b.completed) == b
  }

  function Flip(t: Task, id: string): Task {
    if t.id == id then t.(completed := !t.completed) else t
  }

  /**
   * The `prev.map(...)` of `toggleTask`: flips `completed` on exactly those tasks whose id
   * matches; length, order and every other field are kept.
   */
  function ToggleMatching(ts: seq<Task>, id: string): (r: seq<Task>)
    ensures |r| == |ts|
    ensures forall i :: 0 <= i < |ts| ==> SameExceptCompletion(r[i], ts[i])
    ensures forall i :: 0 <= i < |ts| ==> (r[i].completed != ts[i].completed <==> ts[i].id == id)
  {
    if ts == [] then [] else [Flip(ts[0], id)] + ToggleMatching(ts[1..], id)
  }

  /** Toggling the same id twice restores the list. */
  lemma ToggleMatchingTwice(ts: seq<Task>, id: string)
    ensures ToggleMatching(ToggleMatching(ts, id), id) == ts
  {
  }

  /**
   * `toggleTask(id)`. The announcement is computed from the current task as it was
   * before the toggle: "Task completed" when it was open, "Task unmarked" when done.
   */
  function Toggle(s: State, id: string): (r: Step<State>)
    requires Valid(s)
    ensures Valid(r.state) && r.state.current == s.current
    ensures r.state.tasks == ToggleMatching(s.tasks, id)
    ensures |r.said| == 1
    ensures r.said[0] == "Task completed" <==> !s.tasks[s.current].completed
    ensures r.said[0] == "Task unmarked" <==> s.tasks[s.current].completed
  {
    var status := if s.tasks[s.current].completed then "unmarked" else "completed";
    Step(State(ToggleMatching(s.tasks, id), s.current), ["Task " + status])
  }

  /** Toggling the focused task, the announcement agrees with its new state. */
  lemma ToggleCurrentAnnouncesNewState(s: State)
    requires Valid(s)
    ensures var r := Toggle(s, s.tasks[s.current].id);
      r.said[0] == "Task completed" <==> r.state.tasks[s.current].completed
  {
  }

  /** Toggle is an involution on the whole state. */
  lemma ToggleTwice(s: State, id: string)
    requires Valid(s)
    ensures Toggle(Toggle(s, id).state, id).state == s
  {
  }

  /**
   * `nextTask`: moves one forward only when a later task exists, announcing the newly
   * focused entry; otherwise nothing happens and nothing is said.
   */
  function Next(s: State): (r: Step<State>)
    ensures r.state.tasks == s.tasks
    ensures s.current + 1 < |s.tasks| ==> r.state.current == s.current + 1
    ensures s.current + 1 < |s.tasks| ==> r.said == ["Next task: " + r.state.tasks[r.state.current].description]
    ensures s.current + 1 >= |s.tasks| ==> r == Step(s, [])
    ensures Valid(s) ==> Valid(r.state)
  {
    if s.current < |s.tasks| - 1 then
      Step(s.(current := s.current + 1), ["Next task: " + s.tasks[s.current + 1].description])
    else
      Step(s, [])
  }

  /**
   * `prevTask`: moves one back only when the index is positive, announcing the newly
   * focused entry; otherwise nothing happens and nothing is said.
   */
  function Prev(s: State): (r: Step<State>)
    requires Valid(s)
    ensures r.state.tasks == s.tasks
    ensures s.current > 0 ==> r.state.current == s.current - 1
    ensures s.current > 0 ==> r.said == ["Previous task: " + r.state.tasks[r.state.current].description]
    ensures s.current == 0 ==> r == Step(s, [])
    ensures Valid(r.state)
  {
    if s.current > 0 then
      Step(s.(current := s.current - 1), ["Previous task: " + s.tasks[s.current - 1].description])
    else
      Step(s, [])
  }

  /** A step forward that moved is undone by a step back, and the other way round. */
  lemma NextPrevInverse(s: State)
    requires Valid(s)
    ensures s.current + 1 < |s.tasks| ==> Prev(Next(s).state).state == s
    ensures s.current > 0 ==> Next(Prev(s).state).state == s
  {
  }

  /** `speakTask`: the focused task's description and time. */
  function SpeakTask(s: State): seq<string>
    requires Valid(s)
  {
    ["Current task: " + s.tasks[s.current].description + " at " + s.tasks[s.current].time]
  }

  /** The four buttons of the focus card. */
  datatype Move = ReadAloud | ToggleCurrent | PrevMove | NextMove

  /** The props each button is rendered with; the toggle's spoken text follows the focused task. */
  function ButtonProps(s: State, m: Move): Button.Props
    requires Valid(s)
  {
    match m
    case ReadAloud => Button.Props(Some(Button.Secondary), Some(Button.Lg), Some("Reading task aloud"), true)
    case ToggleCurrent =>
      var done := s.tasks[s.current].completed;
      Button.Props(Some(if done then Button.Secondary else Button.Primary), Some(Button.Lg),
                   Some(if done then "Mark as incomplete" else "Mark as complete"), true)
    case PrevMove => Button.Props(Some(Button.Secondary), Some(Button.Lg), Some("Previous task"), true)
    case NextMove => Button.Props(Some(Button.Secondary), Some(Button.Lg), Some("Next task"), true)
  }

  /** "Previous" is disabled on the first task and "Next" on the last; a disabled button ignores clicks. */
  predicate Disabled(s: State, m: Move) {
    match m
    case PrevMove => s.current == 0
    case NextMove => s.current == |s.tasks| - 1
    case _ => false
  }

  /** The `onClick` of each button. */
  function Handler(s: State, m: Move): Step<State>
    requires Valid(s)
  {
    match m
    case ReadAloud => Step(s, SpeakTask(s))
    case ToggleCurrent => Toggle(s, s.tasks[s.current].id)
    case PrevMove => Prev(s)
    case NextMove => Next(s)
  }

  /**
   * One click on a button of the card: nothing when it is disabled; otherwise the
   * button speaks its own text, then its handler runs and speaks.
   */
  function Press(s: State, m: Move): (r: Step<State>)
    requires Valid(s)
    ensures Valid(r.state) && |r.state.tasks| == |s.tasks|
    ensures Disabled(s, m) ==> r == Step(s, [])
    ensures !Disabled(s, m) ==> r.state == Handler(s, m).state
    ensures !Disabled(s, m) ==> r.said == [ButtonProps(s, m).speakText.value] + Handler(s, m).said
  {
    if Disabled(s, m) then Step(s, [])
    else
      var h := Handler(s, m);
      Step(h.state, Button.ClickSaid(ButtonProps(s, m), h.said))
  }

  /**
   * Reading aloud keeps the state and says two things: the button's text, then the
   * focused task's description and time.
   */
  lemma ReadAloudKeepsState(s: State)
    requires Valid(s)
    ensures Press(s, ReadAloud).state == s
    ensures Press(s, ReadAloud).said
      == ["Reading task aloud", "Current task: " + s.tasks[s.current].description + " at " + s.tasks[s.current].time]
  {
  }

  /** A click on "Next" that is not disabled always moves, so the guard inside `nextTask` never refuses it. */
  lemma EnabledNextMoves(s: State)
    requires Valid(s) && !Disabled(s, NextMove)
    ensures Press(s, NextMove).state.current == s.current + 1
    ensures Press(s, NextMove).said == ["Next task", "Next task: " + s.tasks[s.current + 1].description]
  {
  }

  /** The state after a sequence of presses. */
  function Run(s: State, moves: seq<Move>): State
    requires Valid(s)
    decreases |moves|
  {
    if moves == [] then s else Run(Press(s, moves[0]).state, moves[1..])
  }

  /**
   * From mount on, whatever is pressed, the index stays in [0, |tasks| - 1], there are
   * still four tasks, and their ids never change.
   */
  lemma {:induction false} RunKeepsBounds(s: State, moves: seq<Move>)
    requires Valid(s)
    ensures Valid(Run(s, moves))
    ensures |Run(s, moves).tasks| == |s.tasks|
    ensures forall i :: 0 <= i < |s.tasks| ==> Run(s, moves).tasks[i].id == s.tasks[i].id
    decreases |moves|
  {
    if moves != [] {
      var t := Press(s, moves[0]).state;
      assert forall i :: 0 <= i < |s.tasks| ==> t.tasks[i].id == s.tasks[i].id by {
        forall i | 0 <= i < |s.tasks|
          ensures t.tasks[i].id == s.tasks[i].id
        {
          if moves[0].ToggleCurrent? {
            assert SameExceptCompletion(t.tasks[i], s.tasks[i]);
          }
        }
      }
      RunKeepsBounds(t, moves[1..]);
    }
  }

  lemma InitialValid()
    ensures Valid(Initial) && Initial.current == 0 && |Initial.tasks| == 4
    ensures forall i, j :: 0 <= i < j < |Initial.tasks| ==> Initial.tasks[i].id != Initial.tasks[j].id
  {
  }

  /** The colour and label of one progress dot. */
  datatype Dot = DotCompleted | DotCurrent | DotPending

  /** Completed wins over current; a dot is current only at the focused index. */
  function DotAt(s: State, i: nat): (d: Dot)
    requires i < |s.tasks|
    ensures d == DotCompleted <==> s.tasks[i].completed
    ensures d == DotCurrent <==> !s.tasks[i].completed && i == s.current
    ensures d == DotPending <==> !s.tasks[i].completed && i != s.current
  {
    if s.tasks[i].completed then DotCompleted
    else if i == s.current then DotCurrent
    else DotPending
  }

  /** Exactly one dot is "current" when the focused task is open, and none otherwise. */
  lemma CurrentDot(s: State)
    requires Valid(s)
    ensures forall i, j :: 0 <= i < |s.tasks| && 0 <= j < |s.tasks| && DotAt(s, i) == DotCurrent && DotAt(s, j) == DotCurrent ==> i == j
    ensures (exists i :: 0 <= i < |s.tasks| && DotAt(s, i) == DotCurrent) <==> !s.tasks[s.current].completed
  {
    if !s.tasks[s.current].completed {
      assert DotAt(s, s.current) == DotCurrent;
    }
  }
}
