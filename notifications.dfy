/** The toast notifications of the frontend: the list the provider keeps
    (frontend/src/context/NotificationContext.tsx) and the helpers that add one notification of
    a fixed kind (frontend/src/hooks/useNotification.ts). */
module Notifications {
  import W = Wrappers

  /** The `type` tag of a notification. */
  datatype NotificationType =
    | System | User | Agent | Typing | Progress | AuthSuccess | Error
    | ConversationStarted | Success | Warning | Info

  /** A notification in the list. An absent `duration` or `persistent` is None. */
  datatype Notification = Notification(
    id: string, ntype: NotificationType, message: string,
    duration: W.Option<int>, persistent: W.Option<bool>)

  /** What a caller passes to addNotification: a notification without its id. */
  datatype NotificationInput = NotificationInput(
    ntype: NotificationType, message: string,
    duration: W.Option<int>, persistent: W.Option<bool>)

  /** Milliseconds a notification stays when no duration is given. */
  const DefaultDuration: int := 5000

  /** A pending setTimeout that will remove the notification `id` after `delay` ms. */
  datatype Timer = Timer(id: string, delay: int)

  /** The stored notification: the input, its id, and `duration ?? 5000`, which replaces
      only an absent duration. */
  function Added(n: NotificationInput, id: string): (r: Notification)
    ensures r.id == id && r.ntype == n.ntype && r.message == n.message && r.persistent == n.persistent
    ensures r.duration.Some?
    ensures n.duration.Some? ==> r.duration == n.duration
    ensures n.duration.None? ==> r.duration == W.Some(DefaultDuration)
  {
    Notification(id, n.ntype, n.message, W.Some(n.duration.GetOr(DefaultDuration)), n.persistent)
  }

  /** `!notification.persistent`: absent or false persistence means automatic removal. */
  predicate AutoDismissed(n: NotificationInput) {
    n.persistent != W.Some(true)
  }

  /** `prev.filter(n => n.id !== id)`. */
  function WithoutId(ns: seq<Notification>, id: string): (r: seq<Notification>)
    ensures |r| <= |ns|
    ensures forall x :: x in r <==> x in ns && x.id != id
  {
    if ns == [] then []
    else WithoutId(ns[..|ns| - 1], id) + (if ns[|ns| - 1].id != id then [ns[|ns| - 1]] else [])
  }

  lemma WithoutIdSnoc(ns: seq<Notification>, x: Notification, id: string)
    ensures WithoutId(ns + [x], id) == WithoutId(ns, id) + (if x.id != id then [x] else [])
  {
    assert (ns + [x])[..|ns|] == ns;
  }

  /** Removing an id nobody has changes nothing. */
  lemma {:induction false} WithoutUnknownId(ns: seq<Notification>, id: string)
    requires forall k :: 0 <= k < |ns| ==> ns[k].id != id
    ensures WithoutId(ns, id) == ns
  {
    if ns != [] {
      WithoutUnknownId(ns[..|ns| - 1], id);
      assert ns == ns[..|ns| - 1] + [ns[|ns| - 1]];
    }
  }

  /** Removal distributes over concatenation, so what remains keeps its order. */
  lemma {:induction false} WithoutIdConcat(a: seq<Notification>, b: seq<Notification>, id: string)
    ensures WithoutId(a + b, id) == WithoutId(a, id) + WithoutId(b, id)
  {
    if b == [] {
      assert a + b == a;
    } else {
      var init := b[..|b| - 1];
      var x := b[|b| - 1];
      assert a + b == (a + init) + [x];
      assert b == init + [x];
      WithoutIdConcat(a, init, id);
      WithoutIdSnoc(a + init, x, id);
      WithoutIdSnoc(init, x, id);
    }
  }

  /** A notification with a fresh id, removed again, leaves the list as it was: the
      automatic removal undoes the addition. */
  lemma AddThenRemove(ns: seq<Notification>, n: NotificationInput, id: string)
    requires forall k :: 0 <= k < |ns| ==> ns[k].id != id
    ensures WithoutId(ns + [Added(n, id)], id) == ns
  {
    WithoutIdSnoc(ns, Added(n, id), id);
    WithoutUnknownId(ns, id);
  }

  /** The provider's state: the notification list and the removals still scheduled. */
  class NotificationCenter {
    var notifications: seq<Notification>
    var timers: seq<Timer>

    constructor ()
      ensures notifications == [] && timers == []
    {
      notifications := [];
      timers := [];
    }

    /** addNotification. The id comes from Math.random and is passed in. */
    method AddNotification(n: NotificationInput, randomId: string) returns (id: string)
      modifies this
      ensures id == randomId
      ensures notifications == old(notifications) + [Added(n, id)]
      ensures AutoDismissed(n) ==> timers == old(timers) + [Timer(id, Added(n, id).duration.value)]
      ensures !AutoDismissed(n) ==> timers == old(timers)
    {
      id := randomId;
      var newNotification := Added(n, id);
      notifications := notifications + [newNotification];
      if AutoDismissed(n) {
        timers := timers + [Timer(id, newNotification.duration.value)];
      }
    }

    /** removeNotification. */
    method RemoveNotification(id: string)
      modifies this
      ensures notifications == WithoutId(old(notifications), id)
      ensures timers == old(timers)
    {
      notifications := WithoutId(notifications, id);
    }

    /** clearAllNotifications. Scheduled removals stay scheduled. */
    method ClearAllNotifications()
      modifies this
      ensures notifications == [] && timers == old(timers)
    {
      notifications := [];
    }

    /** The k-th scheduled removal fires. */
    method FireTimer(k: nat)
      requires k < |timers|
      modifies this
      ensures notifications == WithoutId(old(notifications), old(timers)[k].id)
      ensures timers == old(timers)[..k] + old(timers)[k + 1..]
    {
      var t := timers[k];
      timers := timers[..k] + timers[k + 1..];
      RemoveNotification(t.id);
    }
  }

  // The useNotification helpers: each builds the argument of one addNotification call.

  function ShowSuccess(message: string, duration: W.Option<int>): NotificationInput {
    NotificationInput(Success, message, duration, W.None)
  }

  function ShowError(message: string, duration: W.Option<int>): NotificationInput {
    NotificationInput(Error, message, duration, W.None)
  }

  function ShowWarning(message: string, duration: W.Option<int>): NotificationInput {
    NotificationInput(Warning, message, duration, W.None)
  }

  function ShowInfo(message: string, duration: W.Option<int>): NotificationInput {
    NotificationInput(Info, message, duration, W.None)
  }

  function ShowAgentNotification(message: string, duration: W.Option<int>): NotificationInput {
    NotificationInput(Agent, message, duration, W.None)
  }

  const AuthSuccessMessage: string := "Successfully authenticated!"

  /** The message parameter defaults when the caller leaves it out. */
  function ShowAuthSuccess(message: W.Option<string>, duration: W.Option<int>): NotificationInput {
    NotificationInput(AuthSuccess, message.GetOr(AuthSuccessMessage), duration, W.None)
  }

  /** Progress lasts 10000 ms unless persistent, when the duration is left undefined. */
  const ProgressDuration: int := 10000

  function ShowProgress(message: string, persistent: W.Option<bool>): NotificationInput {
    var p := persistent.GetOr(false);
    NotificationInput(Progress, message, if p then W.None else W.Some(ProgressDuration), W.Some(p))
  }

  /** The four kinds showPersistent accepts. */
  datatype PersistentKind = PSuccess | PError | PWarning | PInfo

  function KindType(k: PersistentKind): NotificationType {
    match k
    case PSuccess => Success
    case PError => Error
    case PWarning => Warning
    case PInfo => Info
  }

  function ShowPersistent(k: PersistentKind, message: string): NotificationInput {
    NotificationInput(KindType(k), message, W.None, W.Some(true))
  }

  /** Each helper adds one notification carrying its own tag and the caller's message; those
      with a duration parameter keep the given duration and otherwise get 5000 ms and an
      automatic removal. */
  lemma HelpersTagTheirKind(message: string, duration: W.Option<int>, id: string)
    ensures Added(ShowSuccess(message, duration), id).ntype == Success
    ensures Added(ShowError(message, duration), id).ntype == Error
    ensures Added(ShowWarning(message, duration), id).ntype == Warning
    ensures Added(ShowInfo(message, duration), id).ntype == Info
    ensures Added(ShowAgentNotification(message, duration), id).ntype == Agent
    ensures Added(ShowAuthSuccess(W.Some(message), duration), id).ntype == AuthSuccess
    ensures Added(ShowAuthSuccess(W.Some(message), duration), id).message == message
    ensures Added(ShowSuccess(message, duration), id).duration == W.Some(duration.GetOr(DefaultDuration))
    ensures AutoDismissed(ShowSuccess(message, duration)) && AutoDismissed(ShowError(message, duration))
  {
  }

  /** Without a message, the authentication toast says "Successfully authenticated!". */
  lemma AuthSuccessDefault(duration: W.Option<int>, id: string)
    ensures Added(ShowAuthSuccess(W.None, duration), id).message == AuthSuccessMessage
  {
  }

  /** A non-persistent progress toast goes away after 10000 ms; a persistent one is never
      scheduled for removal, although its stored duration falls back to 5000. */
  lemma ProgressDurations(message: string, id: string)
    ensures AutoDismissed(ShowProgress(message, W.None))
    ensures Added(ShowProgress(message, W.None), id).duration == W.Some(ProgressDuration)
    ensures !AutoDismissed(ShowProgress(message, W.Some(true)))
    ensures Added(ShowProgress(message, W.Some(true)), id).duration == W.Some(DefaultDuration)
  {
  }

  /** showPersistent's toasts are never removed automatically. */
  lemma PersistentNeverScheduled(k: PersistentKind, message: string)
    ensures !AutoDismissed(ShowPersistent(k, message))
    ensures ShowPersistent(k, message).persistent == W.Some(true)
  {
  }
}
