/** The values the Echo client works with: media, users, brokers, timers, the
    calls a delegate receives and the operations that drive the client. */
module EchoTypes {

  datatype Option<+T> = None | Some(value: T)

  /** Swift's UInt64: subtraction below zero traps, so it must be proved absent. */
  newtype UInt64 = n: int | 0 <= n < 0x1_0000_0000_0000_0000

  type Dict = map<string, string>

  /** Every key of `d`, each exactly once: an order in which Swift may walk a dictionary. */
  ghost predicate Enumerates(keys: seq<string>, d: Dict) {
    && (forall i, j :: 0 <= i < j < |keys| ==> keys[i] != keys[j])
    && (forall key :: key in keys <==> key in d)
  }

  ghost function SomeOrder(keys: set<string>): (order: seq<string>)
    ensures forall i, j :: 0 <= i < j < |order| ==> order[i] != order[j]
    ensures forall key :: key in order <==> key in keys
  {
    if keys == {} then [] else var key :| key in keys; [key] + SomeOrder(keys - {key})
  }

  type Enumeration = order: Dict -> seq<string> | forall d :: Enumerates(order(d), d)
    ghost witness (d: Dict) => SomeOrder(d.Keys)

  // ---- media -----------------------------------------------------------------

  datatype ConsumptionMode = Live | OnDemand | Download

  /** `details` stands for the descriptive fields the client only passes on. */
  datatype MediaInfo = MediaInfo(
    mode: ConsumptionMode, length: UInt64, isPlaying: bool, isBuffering: bool,
    isEnriched: bool, details: string)
  {
    predicate IsLive() { mode.Live? }
  }

  datatype BrokerInfo = BrokerInfo(live: bool, running: bool, position: UInt64)

  datatype CacheMode = Offline | All

  // ---- users -----------------------------------------------------------------

  datatype User = User(signedIn: bool, hashedId: Option<string>, tokenRefreshTimestamp: Option<int>)

  datatype TokenState = Valid | ValidNoTimestamp | Expired

  datatype Transition =
    NoTransition | SignIn | SignOut | EnablePersonalisation | DisablePersonalisation

  datatype ResetReason = FirstInstall | EchoUpgrade | UserStateChanged | OtherReason(name: string)

  /** What the clock and the device answer while one user is being set. */
  datatype UserEnv = UserEnv(
    reason: Option<ResetReason>, transition: Transition, deviceId: Option<string>,
    token: TokenState, previousToken: TokenState, timeUntilExpiry: real)

  datatype TimerInfo = TimerInfo(user: User, valid: bool)

  // ---- what the client tells the outside ---------------------------------------

  /** Who asked for a user action: the application, or the client reporting a user change. */
  datatype Origin = Caller | UserReport(postponed: bool)

  datatype ActionName = Named(name: string) | OfTransition(t: Transition) | OfReason(r: ResetReason)

  datatype EssError = StatusCode | OtherEssError(rawValue: string)

  datatype Call =
    | Enable | Disable | Start
    | SetBroker(live: bool)
    | ClearMedia
    | SetMedia(media: MediaInfo)
    | SetMediaLength(length: UInt64)
    | LiveMediaUpdate(media: MediaInfo, newPosition: UInt64, oldPosition: UInt64)
    | LiveEnrichmentFailed
    | AvPlay(position: UInt64, labels: Option<Dict>)
    | AvPause(position: UInt64, labels: Option<Dict>)
    | AvBuffer(position: UInt64, labels: Option<Dict>)
    | AvEnd(position: UInt64, labels: Option<Dict>)
    | AvRewind(position: UInt64, rate: UInt64, labels: Option<Dict>)
    | AvFastForward(position: UInt64, rate: UInt64, labels: Option<Dict>)
    | AvSeek(position: UInt64, labels: Option<Dict>)
    | AvUserAction(actionType: string, actionName: string, position: UInt64, labels: Option<Dict>)
    | SetCacheMode(mode: CacheMode)
    | FlushCache | ClearCache
    | SetCounterName(counter: string)
    | AddLabels(added: Dict)
    | RemoveLabels(removed: seq<string>)
    | UpdateDeviceID(deviceId: string)
    | UpdateBBCUserLabels(user: User)
    | UserStateChange
    | ViewEvent(counter: string, labels: Option<Dict>)
    | UserAction(origin: Origin, actionType: string, name: ActionName, labels: Option<Dict>)
    | ErrorEvent(error: string, labels: Option<Dict>)
    | Setting(what: string)
    // to the user store, not to the delegates
    | StoreUser(user: User)
    | StoreTransition(transition: Transition)
    | ClearTransition
  {
    predicate ToStore() { StoreUser? || StoreTransition? || ClearTransition? }

    /** A playback event: it makes sense only for a media the delegate knows of. */
    predicate IsAvEvent() {
      AvPlay? || AvPause? || AvBuffer? || AvEnd? || AvRewind? || AvFastForward? || AvSeek? || AvUserAction?
    }

    /** An event that is reported, and so must not happen while Echo is off. */
    predicate IsEvent() { IsAvEvent() || ViewEvent? || UserAction? || ErrorEvent? }
  }

  // ---- what drives the client ------------------------------------------------

  datatype Navigation = Pause | Buffer | End | Rewind(rate: UInt64) | FastForward(rate: UInt64) | Seek

  datatype Op =
    // public calls
    | SetPlayerDelegate
    | SetMedia(media: MediaInfo, brokerMade: bool)  // whether the factory made a broker, if asked
    | SetMediaLength(length: UInt64)
    | Play(position: UInt64, labels: Option<Dict>)
    | Navigate(kind: Navigation, position: UInt64, labels: Option<Dict>)
    | AvUserAction(actionType: string, actionName: string, position: UInt64, labels: Option<Dict>)
    | SetCacheMode(mode: CacheMode)
    | FlushCache
    | ClearCache
    | SetCounterName(counter: string)
    | SetBBCUser(user: User, env: UserEnv)
    | AddLabels(added: Dict)
    | RemoveLabels(removed: seq<string>)
    | ViewEvent(counter: string, labels: Option<Dict>)
    | UserAction(actionType: string, actionName: string, labels: Option<Dict>)
    | ErrorEvent(error: string, labels: Option<Dict>)
    | Enable(env: UserEnv)
    | Disable
    | Start(env: UserEnv)
    | GetComScoreDeviceID
    | Setting(what: string)  // destination, producer, volume, foreground, ...: passed on unchanged
    // callbacks of a broker
    | LiveMediaUpdate(media: MediaInfo, newPosition: UInt64, oldPosition: UInt64)
    | LiveTimestampUpdate(millis: UInt64)
    | SetEssError(essError: EssError, code: string)
    | SetEssSuccess(success: bool)
    | ReleaseSuppressedPlay
    | SendHeartbeat(name: string, position: UInt64)
    // steps of the environment
    | PlayheadMoves(position: UInt64)
    | TimerFires(which: nat)

  // ---- what stays fixed after construction -------------------------------------

  /** The label keys the client itself uses; their spelling is not part of this model. */
  datatype LabelKeys = LabelKeys(
    mediaTimestamp: string, essEnabled: string, essSuccess: string,
    essError: string, essStatusCode: string, essEnriched: string, isBackground: string)

  /** The label cleanser, and the order in which dictionaries are walked. */
  datatype Cleanser = Cleanser(
    cleanKey: string -> string,
    cleanValue: (string, string) -> string,
    cleanCounter: string -> string,
    order: Enumeration)

  datatype Setup = Setup(
    autoStart: bool, idv5Enabled: bool, resetOnUserStateChange: bool,
    essEnabled: bool, essUrl: Option<string>, keys: LabelKeys, cleanser: Cleanser,
    essErrorText: string)  // raw value of the status-code error

  // ---- the client's state --------------------------------------------------------

  /** The playback session. */
  datatype Av = Av(
    hasPlayer: bool, media: Option<MediaInfo>, active: bool,
    suppressing: bool, suppressedLabels: Option<Dict>,
    broker: Option<BrokerInfo>, droppedBrokers: seq<BrokerInfo>)

  /** The user, the token timer and what the user store holds: its user and at
      most one postponed transition. */
  datatype Users = Users(
    previous: Option<User>, pending: Option<User>,
    forTimer: Option<User>, timer: Option<TimerInfo>, oldTimers: seq<TimerInfo>,
    stored: User, postponed: Option<Transition>)

  datatype State = State(
    echoEnabled: bool, hasStarted: bool, counterNameSet: bool, cacheMode: CacheMode,
    av: Av, users: Users)
}
