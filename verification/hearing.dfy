/**
 * src/components/disabilities/HearingInterface.tsx: the notification list with
 * dismissal by id, the transient feedback banner, the type-to-icon mapping, and what
 * the notification panel renders.
 *
 * `setTimeout(..., 3000)` becomes a count of pending clear timers and a `TimerFired`
 * event; the delay itself is not modelled.
 */
module Hearing {
  import opened Wrappers

  datatype Notification = Notification(id: string, kind: string, message: string, time: string, urgent: bool)

  datatype State = State(notifications: seq<Notification>, feedback: string, pendingClears: nat)

  const Initial: State := State([
    Notification("1", "medicine", "Time for morning medication", "9:00 AM", true),
    Notification("2", "meal", "Breakfast scheduled", "9:30 AM", false),
    Notification("3", "appointment", "Therapy session today", "2:00 PM", false)
  ], "", 0)

  const Dismissed: string := "Notification dismissed"

  /** `a` is `b` with some elements left out, the rest in their original relative order. */
  ghost predicate Subsequence<T>(a: seq<T>, b: seq<T>)
    decreases |b|
  {
    if b == [] then a == []
    else (a != [] && a[0] == b[0] && Subsequence(a[1..], b[1..])) || Subsequence(a, b[1..])
  }

  /** `prev.filter(n => n.id !== id)`: exactly the notifications with another id are kept. */
  function Without(ns: seq<Notification>, id: string): (r: seq<Notification>)
    ensures forall n :: n in r <==> n in ns && n.id != id
    ensures |r| <= |ns|
  {
    if ns == [] then []
    else if ns[0].id == id then Without(ns[1..], id)
    else [ns[0]] + Without(ns[1..], id)
  }

  /** The filter keeps every copy of a survivor: each count is the input's, or 0 for the id. */
  lemma {:induction false} WithoutKeepsCopies(ns: seq<Notification>, id: string)
    ensures forall n :: multiset(Without(ns, id))[n] == if n.id == id then 0 else multiset(ns)[n]
  {
    if ns != [] {
      WithoutKeepsCopies(ns[1..], id);
      assert ns == [ns[0]] + ns[1..];
      assert multiset(ns) == multiset{ns[0]} + multiset(ns[1..]);
      if ns[0].id != id {
        assert Without(ns, id) == [ns[0]] + Without(ns[1..], id);
        assert multiset(Without(ns, id)) == multiset{ns[0]} + multiset(Without(ns[1..], id));
      }
    }
  }

  /** The filter keeps the survivors in their original order. */
  lemma {:induction false} WithoutKeepsOrder(ns: seq<Notification>, id: string)
    ensures Subsequence(Without(ns, id), ns)
  {
    if ns != [] {
      WithoutKeepsOrder(ns[1..], id);
      var r := Without(ns, id);
      if ns[0].id != id {
        assert r[0] == ns[0] && r[1..] == Without(ns[1..], id);
      }
    }
  }

  /** Dismissing an id nobody has leaves the list as it was. */
  lemma {:induction false} WithoutAbsent(ns: seq<Notification>, id: string)
    requires forall n :: n in ns ==> n.id != id
    ensures Without(ns, id) == ns
  {
    if ns != [] {
      WithoutAbsent(ns[1..], id);
    }
  }

  /** Dismissing the same id twice is dismissing it once. */
  lemma WithoutIdempotent(ns: seq<Notification>, id: string)
    ensures Without(Without(ns, id), id) == Without(ns, id)
  {
  }

  /** The order of two dismissals does not matter. */
  lemma {:induction false} WithoutCommutes(ns: seq<Notification>, a: string, b: string)
    ensures Without(Without(ns, a), b) == Without(Without(ns, b), a)
  {
    if ns != [] {
      WithoutCommutes(ns[1..], a, b);
    }
  }

  /**
   * `dismissNotification(id)`: removes every notification with that id, shows the
   * feedback message, and starts one more clear timer.
   */
  function Dismiss(s: State, id: string): (r: State)
    ensures r.notifications == Without(s.notifications, id)
    ensures r.feedback == Dismissed
    ensures r.pendingClears == s.pendingClears + 1
  {
    State(Without(s.notifications, id), Dismissed, s.pendingClears + 1)
  }

  /**
   * A clear timer fires: the message becomes "" whatever dismissal happened since it
   * was started. Only started timers fire.
   */
  function TimerFired(s: State): (r: State)
    requires s.pendingClears > 0
    ensures r.feedback == "" && r.notifications == s.notifications
    ensures r.pendingClears == s.pendingClears - 1
  {
    s.(feedback := "", pendingClears := s.pendingClears - 1)
  }

  /** The banner `{feedbackMessage && ...}`: shown iff the message is non-empty. */
  function Banner(s: State): (shown: Option<string>)
    ensures shown.Some? <==> s.feedback != ""
    ensures shown.Some? ==> shown.value == s.feedback
  {
    if s.feedback == "" then None else Some(s.feedback)
  }

  /**
   * After two quick dismissals the first timer already hides the banner, although the
   * second dismissal's timer has not fired yet.
   */
  lemma FirstTimerClearsLaterMessage(s: State, a: string, b: string)
    ensures var t := TimerFired(Dismiss(Dismiss(s, a), b));
      Banner(Dismiss(Dismiss(s, a), b)) == Some(Dismissed) && Banner(t) == None && t.pendingClears > s.pendingClears
  {
  }

  datatype Icon = HeartIcon | UtensilsIcon | CalendarIcon | BellIcon

  /** `getNotificationIcon`: three known types have their own icon; every other type gets the bell. */
  function IconFor(kind: string): (icon: Icon)
    ensures kind == "medicine" <==> icon == HeartIcon
    ensures kind == "meal" <==> icon == UtensilsIcon
    ensures kind == "appointment" <==> icon == CalendarIcon
    ensures icon == BellIcon <==> kind !in {"medicine", "meal", "appointment"}
  {
    if kind == "medicine" then HeartIcon
    else if kind == "meal" then UtensilsIcon
    else if kind == "appointment" then CalendarIcon
    else BellIcon
  }

  /** One rendered notification: icon, text, time, whether the URGENT badge shows. */
  datatype Card = Card(icon: Icon, message: string, time: string, urgentBadge: bool)

  /** The notification panel: "All caught up!" or one card per notification, in list order. */
  datatype Panel = AllCaughtUp | Cards(cards: seq<Card>)

  function Render(s: State): (p: Panel)
    ensures p.AllCaughtUp? <==> |s.notifications| == 0
    ensures p.Cards? ==> |p.cards| == |s.notifications|
    ensures p.Cards? ==> forall i :: 0 <= i < |p.cards| ==>
      && p.cards[i].urgentBadge == s.notifications[i].urgent
      && p.cards[i].icon == IconFor(s.notifications[i].kind)
      && p.cards[i].message == s.notifications[i].message
      && p.cards[i].time == s.notifications[i].time
  {
    var ns := s.notifications;
    if |ns| == 0 then AllCaughtUp
    else Cards(seq(|ns|, i requires 0 <= i < |ns| => Card(IconFor(ns[i].kind), ns[i].message, ns[i].time, ns[i].urgent)))
  }

  /**
   * After any dismissal the panel shows "All caught up!" exactly when every
   * notification had the dismissed id; otherwise each remaining card keeps the icon
   * its type maps to.
   */
  lemma RenderAfterDismiss(s: State, id: string)
    ensures Render(Dismiss(s, id)).AllCaughtUp? <==> forall n :: n in s.notifications ==> n.id == id
    ensures Render(Dismiss(s, id)).Cards? ==>
      forall i :: 0 <= i < |Render(Dismiss(s, id)).cards| ==>
        exists n :: n in s.notifications && n.id != id && Render(Dismiss(s, id)).cards[i].icon == IconFor(n.kind)
  {
    var r := Dismiss(s, id).notifications;
    if r != [] {
      assert r[0] in r;
    }
    var p := Render(Dismiss(s, id));
    if p.Cards? {
      forall i | 0 <= i < |p.cards|
        ensures exists n :: n in s.notifications && n.id != id && p.cards[i].icon == IconFor(n.kind)
      {
        assert r[i] in r;
      }
    }
  }

  /** Dismissing all three starting notifications, in any order, reaches "All caught up!". */
  lemma DismissAllCaughtUp()
    ensures Render(Dismiss(Dismiss(Dismiss(Initial, "1"), "2"), "3")).AllCaughtUp?
    ensures Render(Initial).Cards?
  {
  }
}
