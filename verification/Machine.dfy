/** The client as a state machine on values. Each operation has two sides: the
    state it leaves (`After`) and the calls it makes to the outside (`Calls`).
    Class EchoClient is proved to follow both. */
module Machine {
  import opened EchoTypes
  import opened Labels
  import opened Positions

  const USER_STATE_CHANGE := "user_state_change"
  const ECHO_DEVICE_ID := "echo_device_id"
  const DEVICE_ID_RESET := "device_id_reset"
  const HEARTBEAT := "echo_hb"

  // ---- labels ------------------------------------------------------------------

  function AddLabelCall(k: Setup, key: string, v: string): Call {
    Call.AddLabels(Sanitise(k.cleanser, map[key := v]))
  }

  function RemovalCalls(k: Setup, removed: seq<string>): seq<Call> {
    var keys := CleanKeys(k.cleanser, removed);
    if keys == [] then [] else [Call.RemoveLabels(keys)]
  }

  /** One removal after another. */
  function Removals(k: Setup, keys: seq<string>): seq<Call> {
    if keys == [] then [] else Removals(k, keys[..|keys| - 1]) + RemovalCalls(k, [keys[|keys| - 1]])
  }

  /** The labels that belong to one media, in the order they are removed. */
  function EssKeys(k: Setup): seq<string> {
    [k.keys.mediaTimestamp, k.keys.essEnabled, k.keys.essSuccess, k.keys.essError, k.keys.essStatusCode, k.keys.essEnriched]
  }

  function EssRemovals(k: Setup): seq<Call> { Removals(k, EssKeys(k)) }

  // ---- media and broker ----------------------------------------------------------

  function StopBroker(a: Av): Av {
    if a.broker.None? then a else a.(broker := Some(a.broker.value.(running := false)))
  }

  function DropBroker(a: Av): Av {
    if a.broker.None? then a else
      a.(broker := None, droppedBrokers := a.droppedBrokers + [a.broker.value])
  }

  predicate MakesLiveBroker(k: Setup, media: MediaInfo) { k.essUrl.Some? && media.IsLive() }

  /** What the factory makes takes the place of the current broker, which is not stopped here. */
  function InitBroker(k: Setup, a: Av, made: bool): Av {
    if !a.hasPlayer || a.media.None? then a
    else if !made then DropBroker(a)
    else DropBroker(a).(broker := Some(BrokerInfo(MakesLiveBroker(k, a.media.value), false, 0)))
  }

  function InitBrokerCalls(k: Setup, a: Av, made: bool): seq<Call> {
    if !a.hasPlayer || a.media.None? || !made then [] else [Call.SetBroker(MakesLiveBroker(k, a.media.value))]
  }

  function CloseMedia(a: Av): Av { DropBroker(StopBroker(a.(media := None))) }

  function CloseCalls(k: Setup): seq<Call> { EssRemovals(k) + [Call.ClearMedia] }

  function OpenMedia(k: Setup, a: Av, media: MediaInfo, made: bool): Av {
    InitBroker(k, CloseMedia(a).(media := Some(media)), made)
  }

  function BoolText(b: bool): string { if b then "true" else "false" }

  function OpenCalls(k: Setup, a: Av, media: MediaInfo, made: bool): seq<Call> {
    CloseCalls(k) + [AddLabelCall(k, k.keys.essEnabled, BoolText(k.essEnabled))]
    + InitBrokerCalls(k, a.(media := Some(media)), made) + [Call.SetMedia(media)]
  }

  predicate TakesLength(a: Av) { a.media.Some? && !a.media.value.IsLive() }

  function SetLength(a: Av, length: UInt64): Av {
    if TakesLength(a) then a.(media := Some(a.media.value.(length := length))) else a
  }

  // ---- playback -------------------------------------------------------------------

  predicate Reports(s: State) { s.echoEnabled && s.av.media.Some? }

  predicate LiveEnriched(a: Av) {
    a.media.Some? && a.media.value.IsLive() && a.media.value.isEnriched
  }

  predicate PlayRefused(a: Av, position: UInt64) {
    a.media.Some? && a.broker.Some? && !a.media.value.IsLive() && Exceeds(a.media.value.length, position)
  }

  predicate PlayAccepted(s: State, position: UInt64) { Reports(s) && !PlayRefused(s.av, position) }

  /** Live media is always reported at the broker's position. */
  function PlayPosition(a: Av, position: UInt64): UInt64 {
    if a.broker.Some? && a.media.Some? && a.media.value.IsLive() then a.broker.value.position else position
  }

  function StartBroker(a: Av, position: UInt64): Av {
    if a.broker.None? then a else a.(broker := Some(a.broker.value.(position := position, running := true)))
  }

  /** A play that would have to wait for the schedule of live enriched media. */
  predicate Holds(a: Av) { LiveEnriched(a) && a.suppressing }

  function PlayMedia(k: Setup, a: Av, position: UInt64, labels: Option<Dict>): Av {
    var started := StartBroker(a, PlayPosition(a, position));
    if Holds(a) then started.(suppressedLabels := SanitiseOptional(k.cleanser, labels))
    else if a.media.None? then a
    else started.(media := Some(a.media.value.(isPlaying := true, isBuffering := false)), active := true)
  }

  function PlayCall(k: Setup, a: Av, position: UInt64, labels: Option<Dict>): Call {
    Call.AvPlay(PlayPosition(a, position), SanitiseOptional(k.cleanser, labels))
  }

  function AfterPlay(k: Setup, s: State, position: UInt64, labels: Option<Dict>): State {
    if PlayAccepted(s, position) then s.(av := PlayMedia(k, s.av, position, labels)) else s
  }

  function PlayCalls(k: Setup, s: State, position: UInt64, labels: Option<Dict>): seq<Call> {
    if PlayAccepted(s, position) && !Holds(s.av) then [PlayCall(k, s.av, position, labels)] else []
  }

  function ReportedPosition(a: Av, position: UInt64): UInt64 {
    if a.media.None? || a.broker.None? then position
    else if a.media.value.IsLive() then a.broker.value.position
    else Clamp(a.media.value.length, position)
  }

  /** Every navigation stops the broker and, on live enriched media, starts suppressing plays. */
  function Navigated(a: Av): Av {
    if a.media.None? then a else StopBroker(a).(suppressing := a.suppressing || LiveEnriched(a))
  }

  /** Pausing and buffering leave marks on the media; ending removes it. */
  function Mark(kind: Navigation, a: Av): Av {
    if a.media.None? then a else
      match kind
      case Pause => a.(media := Some(a.media.value.(isPlaying := false)))
      case Buffer => a.(media := Some(a.media.value.(isPlaying := false, isBuffering := true)))
      case End => a.(media := None, active := false)
      case _ => a
  }

  function NavigationCall(kind: Navigation, at: UInt64, labels: Option<Dict>): Call {
    match kind
    case Pause => Call.AvPause(at, labels)
    case Buffer => Call.AvBuffer(at, labels)
    case End => Call.AvEnd(at, labels)
    case Rewind(rate) => Call.AvRewind(at, rate, labels)
    case FastForward(rate) => Call.AvFastForward(at, rate, labels)
    case Seek => Call.AvSeek(at, labels)
  }

  function NavigateCalls(k: Setup, s: State, kind: Navigation, position: UInt64, labels: Option<Dict>): seq<Call> {
    if !Reports(s) then [] else
      [NavigationCall(kind, ReportedPosition(s.av, position), SanitiseOptional(k.cleanser, labels))]
  }

  function AvUserActionCalls(k: Setup, s: State, actionType: string, actionName: string,
                             position: UInt64, labels: Option<Dict>): seq<Call> {
    if !Reports(s) then [] else
      [Call.AvUserAction(actionType, actionName, ReportedPosition(s.av, position), SanitiseOptional(k.cleanser, labels))]
  }

  predicate Releases(s: State) { s.echoEnabled && s.av.broker.Some? && s.av.suppressing }

  /** The state in which a released play is replayed. */
  function Released(s: State): State { s.(av := s.av.(suppressing := false)) }

  function AfterRelease(k: Setup, s: State): State {
    if !Releases(s) then s else
      AfterPlay(k, Released(s), s.av.broker.value.position, s.av.suppressedLabels)
  }

  function ReleaseCalls(k: Setup, s: State): seq<Call> {
    if !Releases(s) then [] else
      PlayCalls(k, Released(s), s.av.broker.value.position, s.av.suppressedLabels)
  }

  function EssErrorText(k: Setup, error: EssError): string {
    match error case StatusCode => k.essErrorText case OtherEssError(text) => text
  }

  function EssErrorCalls(k: Setup, error: EssError, code: string): seq<Call> {
    [AddLabelCall(k, k.keys.essError, EssErrorText(k, error))]
    + (if error == StatusCode then [AddLabelCall(k, k.keys.essStatusCode, code)] else [])
    + [Call.LiveEnrichmentFailed]
  }

  /** Decimal text of a number. */
  function Decimal(n: nat): string {
    var digit := [('0' as int + n % 10) as char];
    if n < 10 then digit else Decimal(n / 10) + digit
  }

  /** The number a decimal text stands for. */
  function Number(text: string): int {
    if text == "" then 0 else Number(text[..|text| - 1]) * 10 + (text[|text| - 1] as int - '0' as int)
  }

  /** A timestamp label reads back as the timestamp, and has no leading zero to drop. */
  lemma {:induction false} DecimalReadsBack(n: nat)
    ensures Number(Decimal(n)) == n && Decimal(n) != ""
    ensures Decimal(n)[0] == '0' <==> n == 0
  {
    if n >= 10 {
      DecimalReadsBack(n / 10);
      assert Decimal(n)[..|Decimal(n)| - 1] == Decimal(n / 10);
    } else {
      assert Decimal(n)[..0] == "";
    }
  }

  // ---- users -------------------------------------------------------------------------

  predicate EventsOn(s: State) { s.echoEnabled && s.hasStarted }

  function Invalidated(t: Option<TimerInfo>): Option<TimerInfo> {
    if t.None? then None else Some(t.value.(valid := false))
  }

  function Schedule(u: Users, user: User, timeUntilExpiry: real): Users {
    var u1 := u.(timer := Invalidated(u.timer), forTimer := Some(user));
    if timeUntilExpiry <= 0.0 then u1 else
      u1.(timer := Some(TimerInfo(user, true)),
          oldTimers := if u1.timer.None? then u1.oldTimers else u1.oldTimers + [u1.timer.value])
  }

  function ResetUserData(u: Users, user: User, e: UserEnv): Users {
    if e.token == Valid then
      if user.tokenRefreshTimestamp.Some? then Schedule(u, user, e.timeUntilExpiry) else u
    else if e.token == Expired && e.previousToken != Expired then
      u.(timer := Invalidated(u.timer))
    else u
  }

  function ResetUserDataCalls(e: UserEnv): seq<Call> {
    if e.token == Valid && e.reason.Some? then [Call.ClearCache] else []
  }

  /** The delegates' data is reset and the report has to wait for the next start. */
  predicate TakesResetPath(k: Setup, e: UserEnv) {
    k.resetOnUserStateChange && e.reason == Some(UserStateChanged)
  }

  predicate ReportsUser(e: UserEnv) { e.transition != NoTransition || e.reason.Some? }

  /** The device id, rather than the user's state, is what the report is about. */
  predicate ReportsDeviceId(e: UserEnv) {
    e.reason.Some? && (e.transition == NoTransition || e.reason.value == FirstInstall || e.reason.value == EchoUpgrade)
  }

  function ReportLabels(k: Setup, e: UserEnv, postponed: bool): Dict {
    var reset := postponed || (e.reason.Some? && e.reason.value != FirstInstall);
    (if reset then map[DEVICE_ID_RESET := "1"] else map[])[k.keys.isBackground := "true"]
  }

  function UserReportCall(k: Setup, e: UserEnv, postponed: bool): Call {
    Call.UserAction(
      UserReport(postponed),
      if ReportsDeviceId(e) then ECHO_DEVICE_ID else USER_STATE_CHANGE,
      if ReportsDeviceId(e) then OfReason(e.reason.value) else OfTransition(e.transition),
      Some(ReportLabels(k, e, postponed)))
  }

  function UserReportCalls(k: Setup, e: UserEnv, postponed: bool): seq<Call> {
    [UserReportCall(k, e, postponed)] + (if postponed then [Call.ClearTransition] else [])
  }

  /** The store and, when asked for, the user's data are brought up to date first. */
  function Registered(k: Setup, u: Users, user: User, e: UserEnv): Users {
    var u1 := u.(stored := user, previous := Some(if u.previous.Some? then u.previous.value else u.stored));
    if k.resetOnUserStateChange then ResetUserData(u1, user, e) else u1
  }

  function RegisterCalls(k: Setup, user: User, e: UserEnv): seq<Call> {
    [Call.StoreUser(user)]
    + (if e.deviceId.Some? then [Call.UpdateDeviceID(e.deviceId.value)] else [])
    + (if k.resetOnUserStateChange then ResetUserDataCalls(e) else [])
  }

  /** A user handed over while events are on and the user feature is on. */
  function ApplyUser(k: Setup, u: Users, user: User, e: UserEnv): Users {
    var registered := Registered(k, u, user, e);
    if TakesResetPath(k, e) then registered.(postponed := Some(e.transition)) else
      registered.(previous := Some(user), pending := None, postponed := if ReportsUser(e) then None else u.postponed)
  }

  function ApplyUserCalls(k: Setup, u: Users, user: User, e: UserEnv): seq<Call> {
    RegisterCalls(k, user, e)
    + (if TakesResetPath(k, e) then [Call.UserStateChange, Call.StoreTransition(e.transition)]
       else [Call.UpdateBBCUserLabels(user)]
            + (if ReportsUser(e) then UserReportCalls(k, e, u.postponed.Some?) else []))
  }

  function SetUser(k: Setup, on: bool, u: Users, user: User, e: UserEnv): Users {
    if !on then u.(pending := Some(user))
    else if !k.idv5Enabled then u.(previous := Some(user))
    else ApplyUser(k, u, user, e)
  }

  function SetUserCalls(k: Setup, on: bool, u: Users, user: User, e: UserEnv): seq<Call> {
    if on && k.idv5Enabled then ApplyUserCalls(k, u, user, e) else []
  }

  /** Events have come on: the waiting user, if any, is set again. */
  function SetPending(k: Setup, u: Users, e: UserEnv): Users {
    if u.pending.Some? then SetUser(k, true, u, u.pending.value, e) else u
  }

  function PendingCalls(k: Setup, u: Users, e: UserEnv): seq<Call> {
    if u.pending.Some? then SetUserCalls(k, true, u, u.pending.value, e) else []
  }

  predicate Starts(s: State) { s.echoEnabled && !s.hasStarted }

  function AfterStart(k: Setup, s: State, e: UserEnv): State {
    if Starts(s) then s.(hasStarted := true, users := SetPending(k, s.users, e)) else s
  }

  function StartCalls(k: Setup, s: State, e: UserEnv): seq<Call> {
    if Starts(s) then [Call.Start] + PendingCalls(k, s.users, e) else []
  }

  /** Enabling a started client also sets the waiting user; otherwise it may start the client. */
  function AfterEnable(k: Setup, s: State, e: UserEnv): State {
    if s.echoEnabled then s
    else if s.hasStarted then s.(echoEnabled := true, users := SetPending(k, s.users, e).(pending := None))
    else if k.autoStart then AfterStart(k, s.(echoEnabled := true), e)
    else s.(echoEnabled := true)
  }

  function EnableCalls(k: Setup, s: State, e: UserEnv): seq<Call> {
    if s.echoEnabled then []
    else if s.hasStarted then [Call.Enable] + PendingCalls(k, s.users, e)
    else if k.autoStart then [Call.Enable] + StartCalls(k, s.(echoEnabled := true), e)
    else [Call.Enable]
  }

  // ---- token timer ---------------------------------------------------------------------

  /** The timer numbered `which` in order of creation, if there is one. */
  function TimerAt(u: Users, which: nat): Option<TimerInfo> {
    if which < |u.oldTimers| then Some(u.oldTimers[which])
    else if which == |u.oldTimers| then u.timer
    else None
  }

  predicate CanFire(u: Users, which: nat) {
    TimerAt(u, which).Some? && TimerAt(u, which).value.valid
  }

  /** A one-shot timer is spent by firing, and the user kept for it is forgotten. */
  function Fired(u: Users, which: nat): Users {
    if !CanFire(u, which) then u
    else if which < |u.oldTimers|
    then u.(oldTimers := u.oldTimers[which := u.oldTimers[which].(valid := false)], forTimer := None)
    else u.(timer := Invalidated(u.timer), forTimer := None)
  }

  function FiredCalls(u: Users, which: nat): seq<Call> {
    if CanFire(u, which) && u.forTimer.Some? then [Call.UpdateBBCUserLabels(u.forTimer.value)] else []
  }

  // ---- steps and runs --------------------------------------------------------------------

  function After(k: Setup, s: State, op: Op): State {
    match op
    case SetPlayerDelegate => s.(av := s.av.(hasPlayer := true))
    case SetMedia(media, made) => if s.echoEnabled then s.(av := OpenMedia(k, s.av, media, made)) else s
    case SetMediaLength(length) => s.(av := SetLength(s.av, length))
    case Play(position, labels) => AfterPlay(k, s, position, labels)
    case Navigate(kind, _, _) => if Reports(s) then s.(av := Mark(kind, Navigated(s.av))) else s
    case SetCacheMode(mode) => if s.av.active then s else s.(cacheMode := mode)
    case SetCounterName(_) => s.(counterNameSet := true)
    case ViewEvent(_, _) => if s.echoEnabled then s.(counterNameSet := true) else s
    case SetBBCUser(user, env) => s.(users := SetUser(k, EventsOn(s), s.users, user, env))
    case Enable(env) => AfterEnable(k, s, env)
    case Disable => if s.echoEnabled then s.(echoEnabled := false, av := CloseMedia(s.av)) else s
    case Start(env) => AfterStart(k, s, env)
    case LiveMediaUpdate(media, _, _) => s.(av := s.av.(suppressing := false, media := Some(media)))
    case ReleaseSuppressedPlay => AfterRelease(k, s)
    case PlayheadMoves(position) =>
      if s.av.broker.Some? then s.(av := s.av.(broker := Some(s.av.broker.value.(position := position)))) else s
    case TimerFires(which) => s.(users := Fired(s.users, which))
    case _ => s
  }

  function Calls(k: Setup, s: State, op: Op): seq<Call> {
    match op
    case SetPlayerDelegate => []
    case SetMedia(media, made) => if s.echoEnabled then OpenCalls(k, s.av, media, made) else []
    case SetMediaLength(length) => if TakesLength(s.av) && length > 0 then [Call.SetMediaLength(length)] else []
    case Play(position, labels) => PlayCalls(k, s, position, labels)
    case Navigate(kind, position, labels) => NavigateCalls(k, s, kind, position, labels)
    case AvUserAction(actionType, actionName, position, labels) =>
      AvUserActionCalls(k, s, actionType, actionName, position, labels)
    case SetCacheMode(mode) => if s.av.active then [] else [Call.SetCacheMode(mode)]
    case FlushCache => if s.echoEnabled then [Call.FlushCache] else []
    case ClearCache => [Call.ClearCache]
    case SetCounterName(counter) => [Call.SetCounterName(k.cleanser.cleanCounter(counter))]
    case SetBBCUser(user, env) => SetUserCalls(k, EventsOn(s), s.users, user, env)
    case AddLabels(added) => [Call.AddLabels(Sanitise(k.cleanser, added))]
    case RemoveLabels(removed) => RemovalCalls(k, removed)
    case ViewEvent(counter, labels) =>
      if !s.echoEnabled then [] else
        [Call.ViewEvent(k.cleanser.cleanCounter(counter), SanitiseOptional(k.cleanser, labels))]
    case UserAction(actionType, actionName, labels) =>
      if !s.echoEnabled || !s.counterNameSet then [] else
        [Call.UserAction(Caller, actionType, Named(actionName), SanitiseOptional(k.cleanser, labels))]
    case ErrorEvent(error, labels) =>
      if s.echoEnabled then [Call.ErrorEvent(error, SanitiseOptional(k.cleanser, labels))] else []
    case Enable(env) => EnableCalls(k, s, env)
    case Disable => if s.echoEnabled then CloseCalls(k) + [Call.Disable] else []
    case Start(env) => StartCalls(k, s, env)
    case GetComScoreDeviceID => [Call.ClearMedia]
    case Setting(what) => [Call.Setting(what)]
    case LiveMediaUpdate(media, newPosition, oldPosition) => [Call.LiveMediaUpdate(media, newPosition, oldPosition)]
    case LiveTimestampUpdate(millis) => [AddLabelCall(k, k.keys.mediaTimestamp, Decimal(millis as int))]
    case SetEssError(error, code) => EssErrorCalls(k, error, code)
    case SetEssSuccess(success) => [AddLabelCall(k, k.keys.essSuccess, BoolText(success))]
    case ReleaseSuppressedPlay => ReleaseCalls(k, s)
    case SendHeartbeat(name, position) => AvUserActionCalls(k, s, HEARTBEAT, name, position, None)
    case PlayheadMoves(_) => []
    case TimerFires(which) => FiredCalls(s.users, which)
  }

  function Run(k: Setup, s: State, ops: seq<Op>): State {
    if ops == [] then s else After(k, Run(k, s, ops[..|ops| - 1]), ops[|ops| - 1])
  }

  /** All the calls of a run, in order. */
  function Log(k: Setup, s: State, ops: seq<Op>): seq<Call> {
    if ops == [] then [] else
      Log(k, s, ops[..|ops| - 1]) + Calls(k, Run(k, s, ops[..|ops| - 1]), ops[|ops| - 1])
  }

  /** A client just built: the user it was given waits to be applied. */
  function Fresh(enabled: bool, mode: CacheMode, user: User, stored: User, postponed: Option<Transition>): State {
    State(enabled, false, false, mode,
          Av(false, None, false, false, None, None, []),
          Users(None, Some(user), None, None, [], stored, postponed))
  }

  predicate IsFresh(s: State) {
    s.users.pending.Some?
    && s == Fresh(s.echoEnabled, s.cacheMode, s.users.pending.value, s.users.stored, s.users.postponed)
  }
}
