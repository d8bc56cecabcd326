/**
 * The authorization gate: the component's `state` (`isAuthorized`,
 * `isAuthorizationChecked`) and its `_isMounted` flag, the status derived from
 * them, and the choice `render` makes between the live camera and the two
 * placeholder views.
 */
module Authorization {

  /** `CameraStatus`. */
  datatype Status = Ready | PendingAuthorization | NotAuthorized

  /** What `render` returns: the native camera view, or one of the two views the configuration supplies. */
  datatype Screen = LiveCamera | PendingAuthorizationView | NotAuthorizedView

  /**
   * `getStatus`: pending until the permission request has been answered, then
   * ready or not authorized according to the answer.
   */
  function GetStatus(isAuthorized: bool, isAuthorizationChecked: bool): (s: Status)
    ensures s == PendingAuthorization <==> !isAuthorizationChecked
    ensures s == Ready <==> isAuthorizationChecked && isAuthorized
    ensures s == NotAuthorized <==> isAuthorizationChecked && !isAuthorized
  {
    if !isAuthorizationChecked then PendingAuthorization
    else if isAuthorized then Ready
    else NotAuthorized
  }

  /**
   * The branch `render` takes: the camera when authorized or when a function is
   * given as child, otherwise the pending view until the request is answered,
   * and the not-authorized view after.
   */
  function RenderChoice(isAuthorized: bool, isAuthorizationChecked: bool, hasFaCC: bool): (v: Screen)
    ensures v == LiveCamera <==> isAuthorized || hasFaCC
    ensures v == PendingAuthorizationView <==> !isAuthorized && !hasFaCC && !isAuthorizationChecked
    ensures v == NotAuthorizedView <==> !isAuthorized && !hasFaCC && isAuthorizationChecked
  {
    if isAuthorized || hasFaCC then LiveCamera
    else if !isAuthorizationChecked then PendingAuthorizationView
    else NotAuthorizedView
  }

  /** The three fields the gate is made of. */
  datatype Gate = Gate(isAuthorized: bool, isAuthorizationChecked: bool, isMounted: bool)

  /** The gate as the constructor leaves it. */
  const Initial := Gate(false, false, true)

  /**
   * What can happen to a mounted component: the permission request started by
   * `componentDidMount` resolves, or `componentWillUnmount` runs.
   */
  datatype LifecycleEvent = PermissionResolved(granted: bool) | Unmount

  /**
   * The gate after one lifecycle event: an answer is stored only while mounted,
   * and then marks the request answered. No step grants access unanswered,
   * clears `isAuthorizationChecked`, or remounts.
   */
  function Step(g: Gate, ev: LifecycleEvent): (r: Gate)
    ensures Consistent(g) ==> Consistent(r)
    ensures g.isAuthorizationChecked ==> r.isAuthorizationChecked
    ensures !g.isMounted ==> r == g
    ensures r.isMounted ==> g.isMounted
    ensures ev.PermissionResolved? && g.isMounted ==> r.isAuthorizationChecked && r.isAuthorized == ev.granted
  {
    match ev
    case Unmount => g.(isMounted := false)
    case PermissionResolved(granted) =>
      if !g.isMounted then g
      else g.(isAuthorized := granted, isAuthorizationChecked := true)
  }

  /** The gate after a sequence of lifecycle events, in order. */
  function Replay(g: Gate, evs: seq<LifecycleEvent>): Gate
    decreases |evs|
  {
    if evs == [] then g else Replay(Step(g, evs[0]), evs[1..])
  }

  /** The gate never reports access granted before the request has been answered. */
  predicate Consistent(g: Gate) {
    g.isAuthorized ==> g.isAuthorizationChecked
  }

  function StatusOf(g: Gate): Status {
    GetStatus(g.isAuthorized, g.isAuthorizationChecked)
  }

  /**
   * Without a function as child, the view rendered is the one the status names:
   * the camera when ready, the pending view while pending, the not-authorized
   * view when refused.
   */
  lemma RenderFollowsStatus(g: Gate)
    requires Consistent(g)
    ensures RenderChoice(g.isAuthorized, g.isAuthorizationChecked, false) == LiveCamera <==> StatusOf(g) == Ready
    ensures RenderChoice(g.isAuthorized, g.isAuthorizationChecked, false) == PendingAuthorizationView
            <==> StatusOf(g) == PendingAuthorization
    ensures RenderChoice(g.isAuthorized, g.isAuthorizationChecked, false) == NotAuthorizedView
            <==> StatusOf(g) == NotAuthorized
  {
  }

  /** An answer that arrives while mounted decides the status; one that arrives after unmounting is dropped. */
  lemma ResolveDecidesStatus(g: Gate, granted: bool)
    ensures g.isMounted ==> StatusOf(Step(g, PermissionResolved(granted))) == (if granted then Ready else NotAuthorized)
    ensures !g.isMounted ==> Step(g, PermissionResolved(granted)) == g
  {
  }

  /** Every lifecycle keeps the gate consistent. */
  lemma {:induction false} ReplayKeepsConsistent(g: Gate, evs: seq<LifecycleEvent>)
    requires Consistent(g)
    ensures Consistent(Replay(g, evs))
    decreases |evs|
  {
    if evs != [] {
      ReplayKeepsConsistent(Step(g, evs[0]), evs[1..]);
    }
  }

  /** `isAuthorizationChecked` is only ever set, never cleared: once answered, the status is never pending again. */
  lemma {:induction false} CheckedNeverReverts(g: Gate, evs: seq<LifecycleEvent>)
    requires g.isAuthorizationChecked
    ensures Replay(g, evs).isAuthorizationChecked
    ensures StatusOf(Replay(g, evs)) != PendingAuthorization
    decreases |evs|
  {
    if evs != [] {
      CheckedNeverReverts(Step(g, evs[0]), evs[1..]);
    }
  }

  /** After unmounting, no answer changes the state. */
  lemma {:induction false} UnmountedStateIsFrozen(g: Gate, evs: seq<LifecycleEvent>)
    requires !g.isMounted
    ensures Replay(g, evs) == g
    decreases |evs|
  {
    if evs != [] {
      assert Step(g, evs[0]) == g;
      UnmountedStateIsFrozen(g, evs[1..]);
    }
  }

  /**
   * A component unmounted before its request resolves keeps the initial state
   * (not authorized, not checked) whatever the answer.
   */
  lemma UnmountBeforeResolveKeepsInitialState(evs: seq<LifecycleEvent>)
    ensures var g := Replay(Initial, [Unmount] + evs);
      !g.isAuthorized && !g.isAuthorizationChecked && StatusOf(g) == PendingAuthorization
  {
    var unmounted := Step(Initial, Unmount);
    assert ([Unmount] + evs)[1..] == evs;
    UnmountedStateIsFrozen(unmounted, evs);
  }
}
