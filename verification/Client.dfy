/** The client as it is: an object whose methods update its fields, change media
    and brokers in place, and call every delegate in turn. Each method is proved to
    do what the machine of module Machine does. */
module Client {
  import opened EchoTypes
  import opened Config
  import opened Labels
  import opened Positions
  import opened Machine
  import opened Folds

  class Delegate {
    const comScoreDeviceId: Option<string>  // answered by the ComScore delegate only
    var heard: seq<Call>

    constructor (comScoreDeviceId: Option<string>)
      ensures this.comScoreDeviceId == comScoreDeviceId && heard == []
    {
      this.comScoreDeviceId, heard := comScoreDeviceId, [];
    }

    method Receive(c: Call)
      modifies this
      ensures heard == old(heard) + [c]
    {
      heard := heard + [c];
    }
  }

  /** `delegates` are different objects. */
  ghost predicate Distinct(delegates: seq<Delegate>) {
    forall i, j :: 0 <= i < j < |delegates| ==> delegates[i] != delegates[j]
  }

  /** Every delegate has heard exactly `calls`. */
  ghost predicate AllHeard(delegates: seq<Delegate>, calls: seq<Call>)
    reads delegates
  {
    forall i :: 0 <= i < |delegates| ==> delegates[i].heard == calls
  }

  /** The id is that of the last delegate that knows one. */
  ghost predicate LastAnswer(delegates: seq<Delegate>, deviceId: Option<string>) {
    && (deviceId.None? ==> forall d :: d in delegates ==> d.comScoreDeviceId.None?)
    && (deviceId.Some? ==>
          exists n :: 0 <= n < |delegates| && delegates[n].comScoreDeviceId == deviceId
                      && (forall j :: n < j < |delegates| ==> delegates[j].comScoreDeviceId.None?))
  }

  lemma NobodyAnswered()
    ensures LastAnswer([], None)
  {}

  lemma LastAnswerGrows(delegates: seq<Delegate>, deviceId: Option<string>, d: Delegate)
    requires LastAnswer(delegates, deviceId)
    ensures LastAnswer(delegates + [d], if d.comScoreDeviceId.Some? then d.comScoreDeviceId else deviceId)
  {
    if d.comScoreDeviceId.Some? {
      assert (delegates + [d])[|delegates|] == d;
    } else if deviceId.Some? {
      var n :| 0 <= n < |delegates| && delegates[n].comScoreDeviceId == deviceId
        && (forall j :: n < j < |delegates| ==> delegates[j].comScoreDeviceId.None?);
      assert (delegates + [d])[n] == delegates[n];
    }
  }

  /** One call to each delegate in turn. */
  method TellAll(delegates: seq<Delegate>, c: Call)
    requires Distinct(delegates)
    modifies delegates
    ensures forall i :: 0 <= i < |delegates| ==> delegates[i].heard == old(delegates[i].heard) + [c]
  {
    for i := 0 to |delegates|
      invariant forall j :: 0 <= j < i ==> delegates[j].heard == old(delegates[j].heard) + [c]
      invariant forall j :: i <= j < |delegates| ==> delegates[j].heard == old(delegates[j].heard)
    {
      delegates[i].Receive(c);
    }
  }

  class Media {
    var mode: ConsumptionMode
    var length: UInt64
    var isPlaying: bool
    var isBuffering: bool
    var isEnrichedWithEssData: bool
    var details: string

    function Info(): MediaInfo
      reads this
    {
      MediaInfo(mode, length, isPlaying, isBuffering, isEnrichedWithEssData, details)
    }

    constructor (info: MediaInfo)
      ensures Info() == info
    {
      mode, length, isPlaying, isBuffering, isEnrichedWithEssData, details :=
        info.mode, info.length, info.isPlaying, info.isBuffering, info.isEnriched, info.details;
    }

    method GetClone() returns (clone: Media)
      ensures fresh(clone) && clone.Info() == Info()
    {
      clone := new Media(Info());
    }
  }

  class Broker {
    const live: bool
    var running: bool
    var position: UInt64

    function Info(): BrokerInfo
      reads this
    {
      BrokerInfo(live, running, position)
    }

    constructor (live: bool)
      ensures Info() == BrokerInfo(live, false, 0)
    {
      this.live := live;
      running, position := false, 0;
    }

    method Start()
      modifies this
      ensures Info() == old(Info()).(running := true)
    {
      running := true;
    }

    method Stop()
      modifies this
      ensures Info() == old(Info()).(running := false)
    {
      running := false;
    }

    method SetPosition(position: UInt64)
      modifies this
      ensures Info() == old(Info()).(position := position)
    {
      this.position := position;
    }
  }

  class Timer {
    ghost const user: User
    var valid: bool

    ghost function Info(): TimerInfo
      reads this
    {
      TimerInfo(user, valid)
    }

    constructor (ghost user: User)
      ensures Info() == TimerInfo(user, true)
    {
      this.user := user;
      valid := true;
    }

    method Invalidate()
      modifies this
      ensures Info() == old(Info()).(valid := false)
    {
      valid := false;
    }
  }

  class UserStore {
    var user: User
    var postponed: Option<Transition>
    var told: seq<Call>

    constructor (user: User, postponed: Option<Transition>)
      ensures this.user == user && this.postponed == postponed && told == []
    {
      this.user, this.postponed, told := user, postponed, [];
    }

    /** Stores the user and says whether a transition has been waiting. */
    method SetBBCUser(user: User) returns (isPostponed: bool)
      modifies this
      ensures this.user == user && postponed == old(postponed) && told == old(told) + [Call.StoreUser(user)]
      ensures isPostponed == postponed.Some?
    {
      this.user, told := user, told + [Call.StoreUser(user)];
      isPostponed := postponed.Some?;
    }

    method SetPostponedUserStateTransition(t: Transition)
      modifies this
      ensures user == old(user) && postponed == Some(t) && told == old(told) + [Call.StoreTransition(t)]
    {
      postponed, told := Some(t), told + [Call.StoreTransition(t)];
    }

    method ClearPostponedUserStateTransition()
      modifies this
      ensures user == old(user) && postponed == None && told == old(told) + [Call.ClearTransition]
    {
      postponed, told := None, told + [Call.ClearTransition];
    }
  }

  ghost function BrokerInfos(brokers: seq<Broker>): seq<BrokerInfo>
    reads brokers
  {
    if brokers == [] then [] else BrokerInfos(brokers[..|brokers| - 1]) + [brokers[|brokers| - 1].Info()]
  }

  ghost function TimerInfos(timers: seq<Timer>): seq<TimerInfo>
    reads timers
  {
    if timers == [] then [] else TimerInfos(timers[..|timers| - 1]) + [timers[|timers| - 1].Info()]
  }

  lemma BrokerInfosAppend(brokers: seq<Broker>, broker: Broker)
    ensures BrokerInfos(brokers + [broker]) == BrokerInfos(brokers) + [broker.Info()]
  {
    assert (brokers + [broker])[..|brokers|] == brokers;
  }

  lemma TimerInfosAppend(timers: seq<Timer>, timer: Timer)
    ensures TimerInfos(timers + [timer]) == TimerInfos(timers) + [timer.Info()]
  {
    assert (timers + [timer])[..|timers|] == timers;
  }

  lemma {:induction false} BrokerInfosAt(brokers: seq<Broker>, i: nat)
    ensures |BrokerInfos(brokers)| == |brokers|
    ensures i < |brokers| ==> BrokerInfos(brokers)[i] == brokers[i].Info()
  {
    if brokers != [] { BrokerInfosAt(brokers[..|brokers| - 1], i); }
  }

  lemma {:induction false} TimerInfosAt(timers: seq<Timer>, i: nat)
    ensures |TimerInfos(timers)| == |timers|
    ensures i < |timers| ==> TimerInfos(timers)[i] == timers[i].Info()
  {
    if timers != [] { TimerInfosAt(timers[..|timers| - 1], i); }
  }

  /** `infos` holds of the timers but for the one that has been spent since. */
  lemma InfosWithout(timers: seq<Timer>, infos: seq<TimerInfo>, which: nat)
    requires which < |timers| == |infos| && timers[which].Info() == infos[which].(valid := false)
    requires forall i :: 0 <= i < |timers| && i != which ==> timers[i].Info() == infos[i]
    ensures TimerInfos(timers) == infos[which := infos[which].(valid := false)]
  {
    hide TimerInfos;
    TimerInfosAt(timers, 0);
    forall i | 0 <= i < |timers| ensures TimerInfos(timers)[i] == timers[i].Info() { TimerInfosAt(timers, i); }
  }

  lemma Navigating(k: Setup, s: State, kind: Navigation, position: UInt64, labels: Option<Dict>)
    ensures var op := Op.Navigate(kind, position, labels);
            if Reports(s) then
              && After(k, s, op) == s.(av := Mark(kind, Navigated(s.av)))
              && Calls(k, s, op) ==
                 [NavigationCall(kind, ReportedPosition(s.av, position), SanitiseOptional(k.cleanser, labels))]
            else After(k, s, op) == s && Calls(k, s, op) == []
  {}

  lemma Playing(k: Setup, s: State, position: UInt64, labels: Option<Dict>)
    ensures var op := Op.Play(position, labels);
            if Reports(s) && !PlayRefused(s.av, position) then
              && After(k, s, op) == s.(av := PlayMedia(k, s.av, position, labels))
              && Calls(k, s, op) == if Holds(s.av) then [] else [PlayCall(k, s.av, position, labels)]
            else After(k, s, op) == s && Calls(k, s, op) == []
  {}

  lemma FiredForgets(u: Users, which: nat)
    requires CanFire(u, which)
    ensures Fired(u, which).forTimer == None
  {}

  lemma Enabling(k: Setup, s: State, e: UserEnv)
    ensures After(k, s, Op.Enable(e)) == AfterEnable(k, s, e) && Calls(k, s, Op.Enable(e)) == EnableCalls(k, s, e)
  {}

  lemma RunOne(k: Setup, s: State, op: Op)
    ensures Run(k, s, [op]) == After(k, s, op) && Log(k, s, [op]) == Calls(k, s, op)
  {
    hide After, Calls;
    assert [op][..0] == [];
  }

  class EchoClient {
    const setup: Setup
    const delegates: seq<Delegate>
    const userStore: UserStore

    var echoEnabled: bool
    var hasStarted: bool
    var counterNameSet: bool
    var cacheMode: CacheMode

    var hasPlayerDelegate: bool
    var media: Media?
    var mediaActive: bool
    var suppressingPlayEvent: bool
    var suppressedPlayEventLabels: Option<Dict>
    var broker: Broker?

    var previousUser: Option<User>
    var bbcUserSetWhileDisabled: Option<User>
    var userForTimer: Option<User>
    var timer: Timer?

    ghost var log: seq<Call>              // every call made so far
    ghost var droppedBrokers: seq<Broker>
    ghost var oldTimers: seq<Timer>
    ghost var submitted: set<Media>       // the objects callers passed to SetMedia

    // ---- abstraction -----------------------------------------------------------------

    ghost function AvView(): Av
      reads `hasPlayerDelegate, `media, `mediaActive, `suppressingPlayEvent, `suppressedPlayEventLabels
      reads `broker, `droppedBrokers, media, broker, droppedBrokers
    {
      Av(hasPlayerDelegate, if media == null then None else Some(media.Info()), mediaActive,
         suppressingPlayEvent, suppressedPlayEventLabels,
         if broker == null then None else Some(broker.Info()), BrokerInfos(droppedBrokers))
    }

    ghost function UsersView(): Users
      reads `previousUser, `bbcUserSetWhileDisabled, `userForTimer, `timer, `oldTimers
      reads timer, oldTimers, userStore
    {
      Users(previousUser, bbcUserSetWhileDisabled, userForTimer,
            if timer == null then None else Some(timer.Info()), TimerInfos(oldTimers),
            userStore.user, userStore.postponed)
    }

    ghost function View(): State
      reads `echoEnabled, `hasStarted, `counterNameSet, `cacheMode
      reads `hasPlayerDelegate, `media, `mediaActive, `suppressingPlayEvent, `suppressedPlayEventLabels
      reads `broker, `droppedBrokers, media, broker, droppedBrokers
      reads `previousUser, `bbcUserSetWhileDisabled, `userForTimer, `timer, `oldTimers
      reads timer, oldTimers, userStore
    {
      State(echoEnabled, hasStarted, counterNameSet, cacheMode, AvView(), UsersView())
    }

    /** All delegates have heard the same: the calls of the log, in order; and the user
        store was told the rest. */
    ghost predicate InStep()
      reads `log, userStore`told, delegates
    {
      Distinct(delegates) && AllHeard(delegates, Heard(log)) && userStore.told == ToldStore(log)
    }

    /** Every broker the client ever made, and every timer, in order of creation. */
    ghost function Brokers(): seq<Broker>
      reads `broker, `droppedBrokers
    {
      droppedBrokers + if broker == null then [] else [broker]
    }

    ghost function Timers(): seq<Timer>
      reads `timer, `oldTimers
    {
      oldTimers + if timer == null then [] else [timer]
    }

    /** They are different objects. */
    ghost predicate Apart()
      reads `broker, `droppedBrokers, `timer, `oldTimers
    {
      && (forall i, j :: 0 <= i < j < |droppedBrokers| ==> droppedBrokers[i] != droppedBrokers[j])
      && (broker != null ==> broker !in droppedBrokers)
      && (forall i, j :: 0 <= i < j < |oldTimers| ==> oldTimers[i] != oldTimers[j])
      && (timer != null ==> timer !in oldTimers)
    }

    ghost predicate Valid()
      reads `log, userStore`told, delegates
      reads `broker, `droppedBrokers, `timer, `oldTimers
    {
      InStep() && Apart()
    }

    /** The media the client works on is not one that a caller handed over. */
    ghost predicate OwnMedia()
      reads `media, `submitted
    {
      media != null ==> media !in submitted
    }

    /** The client went to state `t` making exactly `calls`. It keeps track of every broker
        and timer it had, and of the media objects callers ever handed over it changed at
        most the one it was working on. */
    twostate predicate Went(t: State, calls: seq<Call>)
      reads this, media, broker, droppedBrokers, timer, oldTimers, userStore, delegates, submitted
    {
      && Valid()
      && View() == t
      && log == old(log) + calls
      && old(submitted) <= submitted
      && old(Brokers()) <= Brokers() && old(Timers()) <= Timers()
      && (forall m :: m in old(submitted) && m != old(media) ==> m.Info() == old(m.Info()))
    }

    /** The client did the operation. Only a broker can make it work on a caller's media. */
    twostate predicate Did(op: Op)
      reads this, media, broker, droppedBrokers, timer, oldTimers, userStore, delegates, submitted
    {
      && Went(After(setup, old(View()), op), Calls(setup, old(View()), op))
      && (old(OwnMedia()) ==> OwnMedia() || op.LiveMediaUpdate?)
    }

    /** The client is where the run `ops` of the machine ends, having made the calls of that run. */
    ghost predicate At(origin: State, ops: seq<Op>)
      reads this, media, broker, droppedBrokers, timer, oldTimers, userStore
    {
      View() == Run(setup, origin, ops) && log == Log(setup, origin, ops)
    }

    /** Every method that does an operation of the machine takes the run one step further. */
    twostate lemma Continues(origin: State, ops: seq<Op>, op: Op)
      requires old(At(origin, ops)) && Did(op)
      ensures At(origin, ops + [op])
    {
      hide After, Calls, View, Valid;
      assert (ops + [op])[..|ops|] == ops;
    }

    lemma ViewParts()
      ensures View() == State(echoEnabled, hasStarted, counterNameSet, cacheMode, AvView(), UsersView())
    {}

    lemma ActiveIsField()
      ensures AvView().active == mediaActive
    {}

    constructor (setup: Setup, delegates: seq<Delegate>, userStore: UserStore,
                 enabled: bool, mode: CacheMode, bbcUser: User, e: UserEnv)
      requires Distinct(delegates) && AllHeard(delegates, [])
      requires userStore.told == []
      modifies delegates, userStore
      ensures Valid() && OwnMedia() && Brokers() == [] && this.setup == setup && this.delegates == delegates
      ensures var s := Fresh(enabled, mode, bbcUser, old(userStore.user), old(userStore.postponed));
              At(s, if enabled && setup.autoStart then [Op.Start(e)] else [])
    {
      this.setup, this.delegates, this.userStore := setup, delegates, userStore;
      echoEnabled, hasStarted, counterNameSet, cacheMode := enabled, false, false, mode;
      hasPlayerDelegate, media, mediaActive := false, null, false;
      suppressingPlayEvent, suppressedPlayEventLabels, broker := false, None, null;
      previousUser, bbcUserSetWhileDisabled, userForTimer, timer := None, Some(bbcUser), None, null;
      log, droppedBrokers, oldTimers, submitted := [], [], [], {};
      new;
      hide AfterStart, StartCalls;
      ghost var s := Fresh(enabled, mode, bbcUser, old(userStore.user), old(userStore.postponed));
      assert View() == s;
      if echoEnabled && setup.autoStart {
        Start(e);
        RunOne(setup, s, Op.Start(e));
      }
    }

    // ---- telling the outside -----------------------------------------------------------

    method Deliver(c: Call)
      requires Valid() && !c.ToStore()
      modifies `log, delegates
      ensures Valid() && View() == old(View()) && log == old(log) + [c]
    {
      hide Heard, ToldStore, View;
      HeardAppend(log, c);
      TellAll(delegates, c);
      log := log + [c];
    }

    method StoreUser(user: User) returns (isPostponed: bool)
      requires Valid()
      modifies `log, userStore
      ensures Valid() && UsersView() == old(UsersView()).(stored := user)
      ensures log == old(log) + [Call.StoreUser(user)] && isPostponed == old(UsersView()).postponed.Some?
    {
      hide Heard, ToldStore, View, AvView;
      isPostponed := userStore.SetBBCUser(user);
      HeardAppend(log, Call.StoreUser(user));
      log := log + [Call.StoreUser(user)];
    }

    method PostponeTransition(t: Transition)
      requires Valid()
      modifies `log, userStore
      ensures Valid() && UsersView() == old(UsersView()).(postponed := Some(t))
      ensures log == old(log) + [Call.StoreTransition(t)]
    {
      hide Heard, ToldStore, View, AvView;
      userStore.SetPostponedUserStateTransition(t);
      HeardAppend(log, Call.StoreTransition(t));
      log := log + [Call.StoreTransition(t)];
    }

    method ForgetTransition()
      requires Valid()
      modifies `log, userStore
      ensures Valid() && UsersView() == old(UsersView()).(postponed := None)
      ensures log == old(log) + [Call.ClearTransition]
    {
      hide Heard, ToldStore, View, AvView;
      userStore.ClearPostponedUserStateTransition();
      HeardAppend(log, Call.ClearTransition);
      log := log + [Call.ClearTransition];
    }

    method AddLabels(labels: Dict)
      requires Valid()
      modifies `log, delegates
      ensures Did(Op.AddLabels(labels))
    {
      hide InStep, Brokers, Timers, AvView, UsersView;
      var sanitised := SanitiseLabels(setup.cleanser, labels);
      Deliver(Call.AddLabels(sanitised));
    }

    method AddLabel(key: string, v: string)
      requires Valid()
      modifies `log, delegates
      ensures Valid() && View() == old(View()) && log == old(log) + [AddLabelCall(setup, key, v)]
    {
      hide InStep, Brokers, Timers;
      AddLabels(map[key := v]);
    }

    method RemoveLabels(labels: seq<string>)
      requires Valid()
      modifies `log, delegates
      ensures Did(Op.RemoveLabels(labels))
    {
      hide InStep, Brokers, Timers, AvView, UsersView;
      var keys := SanitiseKeys(setup.cleanser, labels);
      if keys != [] {
        Deliver(Call.RemoveLabels(keys));
      }
    }

    method RemoveLabel(key: string)
      requires Valid()
      modifies `log, delegates
      ensures Valid() && View() == old(View()) && log == old(log) + RemovalCalls(setup, [key])
    {
      hide InStep, Brokers, Timers, AvView, UsersView, RemovalCalls;
      RemoveLabels([key]);
    }

    // ---- media and broker ------------------------------------------------------------------

    method SetPlayerDelegate()
      requires Valid()
      modifies `hasPlayerDelegate
      ensures Did(Op.SetPlayerDelegate)
    {
      hide InStep, Brokers, Timers, UsersView;
      hasPlayerDelegate := true;
    }

    method RemoveEssLabels()
      requires Valid()
      modifies `log, delegates
      ensures Valid() && View() == old(View()) && log == old(log) + EssRemovals(setup)
    {
      hide InStep, Brokers, Timers, RemovalCalls, Valid, View, EssRemovals;
      EssRemovalsInTurn(setup);
      RemoveLabel(setup.keys.mediaTimestamp);
      RemoveLabel(setup.keys.essEnabled);
      RemoveLabel(setup.keys.essSuccess);
      RemoveLabel(setup.keys.essError);
      RemoveLabel(setup.keys.essStatusCode);
      RemoveLabel(setup.keys.essEnriched);
    }

    method ForgetBroker()
      requires Valid()
      modifies `broker, `droppedBrokers
      ensures Valid() && broker == null && AvView() == Machine.DropBroker(old(AvView()))
      ensures old(Brokers()) <= Brokers() && old(droppedBrokers) <= droppedBrokers
      ensures old(broker) != null ==> old(broker) in droppedBrokers
    {
      hide InStep, View, UsersView;
      if broker != null {
        BrokerInfosAppend(droppedBrokers, broker);
        droppedBrokers := droppedBrokers + [broker];
        hide BrokerInfos;
        broker := null;
      }
    }

    /** Stops the current broker and lets go of it. */
    method DropCurrentBroker()
      requires Valid()
      modifies `broker, `droppedBrokers, broker
      ensures Valid() && broker == null
      ensures AvView() == Machine.DropBroker(StopBroker(old(AvView())))
      ensures old(Brokers()) <= Brokers()
      ensures old(broker) != null ==> !old(broker).running && old(broker) in droppedBrokers
    {
      hide InStep, View, UsersView, BrokerInfos;
      if broker != null {
        broker.Stop();
      }
      ForgetBroker();
    }

    method LetGoOfMedia()
      requires Valid()
      modifies `media, `broker, `droppedBrokers, broker
      ensures Valid() && AvView() == CloseMedia(old(AvView())) && media == null && broker == null
      ensures old(Brokers()) <= Brokers()
      ensures old(broker) != null ==> !old(broker).running && old(broker) in droppedBrokers
    {
      hide InStep, UsersView, View, StopBroker, Machine.DropBroker;
      if media != null {
        media := null;
      }
      DropCurrentBroker();
    }

    method ClearMedia()
      requires Valid()
      modifies `log, `media, `broker, `droppedBrokers, delegates, broker
      ensures Valid() && AvView() == CloseMedia(old(AvView())) && log == old(log) + CloseCalls(setup)
      ensures media == null && broker == null
      ensures old(Brokers()) <= Brokers()
      ensures old(broker) != null ==> !old(broker).running && old(broker) in droppedBrokers
    {
      hide InStep, EssRemovals, AvView, UsersView, View, CloseMedia;
      RemoveEssLabels();
      LetGoOfMedia();
      Deliver(Call.ClearMedia);
    }

    /** The broker it replaces, if any, stays as it is. */
    method ReplaceBroker(made: bool)
      requires Valid() && hasPlayerDelegate && media != null
      modifies `broker, `droppedBrokers
      ensures Valid() && AvView() == InitBroker(setup, old(AvView()), made)
      ensures if made then fresh(broker) && broker.live == MakesLiveBroker(setup, media.Info()) else broker == null
      ensures old(Brokers()) <= Brokers() && old(droppedBrokers) <= droppedBrokers
    {
      hide InStep, UsersView, View, BrokerInfos;
      ForgetBroker();
      if made {
        broker := new Broker(setup.essUrl.Some? && media.mode.Live?);
      }
    }

    method MakeBroker(made: bool)
      requires Valid()
      modifies `log, `broker, `droppedBrokers, delegates
      ensures Valid() && AvView() == InitBroker(setup, old(AvView()), made)
      ensures log == old(log) + InitBrokerCalls(setup, old(AvView()), made)
      ensures fresh(broker) || broker == old(broker) || broker == null
      ensures old(Brokers()) <= Brokers() && old(droppedBrokers) <= droppedBrokers
    {
      hide InStep, Brokers, Timers, UsersView, View;
      if hasPlayerDelegate && media != null {
        ReplaceBroker(made);
        if broker != null {
          Deliver(Call.SetBroker(broker.live));
        }
      }
    }

    method TakeCopy(newMedia: Media)
      requires Valid()
      modifies `media, `submitted
      ensures Valid() && submitted == old(submitted) + {newMedia} && media != null && fresh(media)
      ensures AvView() == old(AvView()).(media := Some(newMedia.Info())) && media.Info() == newMedia.Info()
    {
      hide InStep, Brokers, Timers;
      submitted := submitted + {newMedia};
      media := newMedia.GetClone();
    }

    /** Puts a copy of the media in place, with a broker to follow it. */
    method InstallMedia(newMedia: Media, made: bool)
      requires Valid()
      modifies `log, `media, `broker, `droppedBrokers, `submitted, delegates
      ensures Valid() && submitted == old(submitted) + {newMedia} && media != null && fresh(media)
      ensures fresh(broker) || broker == old(broker) || broker == null
      ensures var a := old(AvView()).(media := Some(newMedia.Info()));
              && AvView() == InitBroker(setup, a, made)
              && log == old(log) + [AddLabelCall(setup, setup.keys.essEnabled, BoolText(setup.essEnabled))]
                        + InitBrokerCalls(setup, a, made) + [Call.SetMedia(newMedia.Info())]
      ensures old(Brokers()) <= Brokers() && old(droppedBrokers) <= droppedBrokers
    {
      hide InStep, View, AvView, UsersView, InitBroker, InitBrokerCalls, AddLabelCall;
      TakeCopy(newMedia);
      AddLabel(setup.keys.essEnabled, if setup.essEnabled then "true" else "false");
      MakeBroker(made);
      Deliver(Call.SetMedia(media.Info()));
    }

    method OpenMedia(newMedia: Media, made: bool)
      requires Valid()
      modifies `log, `media, `broker, `droppedBrokers, `submitted, delegates, broker
      ensures Valid() && AvView() == Machine.OpenMedia(setup, old(AvView()), newMedia.Info(), made)
      ensures log == old(log) + OpenCalls(setup, old(AvView()), newMedia.Info(), made)
      ensures submitted == old(submitted) + {newMedia} && media != null && fresh(media)
      ensures old(Brokers()) <= Brokers()
      ensures old(broker) != null ==> !old(broker).running && old(broker) in droppedBrokers
    {
      hide InStep, View, AvView, UsersView, CloseCalls, InitBroker, AddLabelCall;
      ClearMedia();
      InstallMedia(newMedia, made);
    }

    method SetMedia(newMedia: Media, made: bool)
      requires Valid()
      modifies `log, `media, `broker, `droppedBrokers, `submitted, delegates, broker
      ensures Did(Op.SetMedia(newMedia.Info(), made))
      ensures echoEnabled ==> newMedia in submitted && media != null && fresh(media)
      ensures echoEnabled && old(broker) != null ==> !old(broker).running && old(broker) in droppedBrokers
    {
      hide InStep, AvView, UsersView, Machine.OpenMedia, OpenCalls;
      if !echoEnabled {
        return;
      }
      OpenMedia(newMedia, made);
    }

    method TakeLength(length: UInt64)
      requires Valid() && media != null && !media.mode.Live?
      modifies `log, delegates, media
      ensures Valid() && AvView() == SetLength(old(AvView()), length)
      ensures log == old(log) + if length > 0 then [Call.SetMediaLength(length)] else []
    {
      hide InStep, Brokers, Timers, View, UsersView;
      if length > 0 {
        Deliver(Call.SetMediaLength(length));
      }
      media.length := length;
    }

    method SetMediaLength(length: UInt64)
      requires Valid()
      modifies `log, delegates, media
      ensures Did(Op.SetMediaLength(length))
    {
      hide InStep, Brokers, Timers, UsersView;
      if media == null {
        return;
      }
      if media.mode.Live? {
        return;
      }
      TakeLength(length);
    }

    // ---- playback --------------------------------------------------------------------------

    method PositionExceedsMediaLength(position: UInt64) returns (exceeds: bool)
      requires media != null
      ensures exceeds <==> !Playable(media.length, position)
    {
      ExceedsMeaning(media.length, position);
      if media.length >= 1000 && position >= media.length - 1000 {
        return true;
      }
      if media.length < 1000 && media.length != 0 {
        return true;
      }
      return false;
    }

    method PreventPositionExceedingMediaLength(position: UInt64) returns (at: UInt64)
      requires media != null
      ensures Reportable(media.length, at)
      ensures at == if Reportable(media.length, position) then position else media.length
    {
      ExceedsMeaning(media.length, position);
      var exceeds := PositionExceedsMediaLength(position);
      if exceeds {
        return media.length;
      }
      return position;
    }

    /** Sets the broker going, unless on-demand media is asked to play past its end. */
    method StartBroker(position: UInt64) returns (accepted: bool, at: UInt64)
      requires Valid() && media != null
      modifies broker
      ensures Valid() && accepted == !PlayRefused(old(AvView()), position)
      ensures !accepted ==> AvView() == old(AvView())
      ensures accepted ==> at == PlayPosition(old(AvView()), position)
                           && AvView() == Machine.StartBroker(old(AvView()), at)
    {
      hide InStep, Brokers, Timers, Exceeds, Playable;
      ExceedsMeaning(media.length, position);
      accepted, at := true, position;
      if broker != null {
        if media.mode.Live? {
          at := broker.position;
        } else {
          var exceeds := PositionExceedsMediaLength(position);
          if exceeds {
            return false, at;
          }
          broker.SetPosition(position);
        }
        broker.Start();
      }
    }

    method MarkPlaying()
      requires Valid() && media != null
      modifies `mediaActive, media
      ensures Valid()
      ensures var a := old(AvView());
              a.media.Some?
              && AvView() == a.(media := Some(a.media.value.(isPlaying := true, isBuffering := false)), active := true)
    {
      hide InStep, Brokers, Timers, View, UsersView;
      media.isPlaying := true;
      media.isBuffering := false;
      mediaActive := true;
    }

    lemma HoldsIsFields()
      ensures Holds(AvView()) <==>
              media != null && media.mode.Live? && media.isEnrichedWithEssData && suppressingPlayEvent
    {}

    method HoldPlay(sanitisedLabels: Option<Dict>)
      requires Valid()
      modifies `suppressedPlayEventLabels
      ensures Valid() && AvView() == old(AvView()).(suppressedLabels := sanitisedLabels)
    {
      hide InStep, Brokers, Timers, View, UsersView;
      suppressedPlayEventLabels := sanitisedLabels;
    }

    /** Passes the play on, or keeps its labels for later. */
    method DeliverOrHoldPlay(at: UInt64, eventLabels: Option<Dict>)
      requires Valid() && media != null
      modifies `log, `mediaActive, `suppressedPlayEventLabels, delegates, media
      ensures var a, labels := old(AvView()), SanitiseOptional(setup.cleanser, eventLabels);
              if Holds(a) then AvView() == a.(suppressedLabels := labels) && log == old(log)
              else
                && a.media.Some?
                && AvView() == a.(media := Some(a.media.value.(isPlaying := true, isBuffering := false)), active := true)
                && log == old(log) + [Call.AvPlay(at, labels)]
      ensures Valid()
    {
      hide InStep, Brokers, Timers, View, AvView, UsersView, Holds, SanitiseOptional;
      HoldsIsFields();
      var sanitisedLabels := SanitiseEventLabels(setup.cleanser, eventLabels);
      if media.mode.Live? && media.isEnrichedWithEssData && suppressingPlayEvent {
        HoldPlay(sanitisedLabels);
      } else {
        Deliver(Call.AvPlay(at, sanitisedLabels));
        MarkPlaying();
      }
    }

    method ReportPlay(position: UInt64, eventLabels: Option<Dict>)
      requires Valid() && media != null
      modifies `log, `mediaActive, `suppressedPlayEventLabels, delegates, media, broker
      ensures var a := old(AvView());
              if PlayRefused(a, position) then AvView() == a && log == old(log)
              else
                && AvView() == PlayMedia(setup, a, position, eventLabels)
                && log == old(log) + if Holds(a) then [] else [PlayCall(setup, a, position, eventLabels)]
      ensures Valid()
    {
      hide InStep, Brokers, Timers, View, UsersView, SanitiseOptional, PlayRefused, PlayPosition;
      var accepted, at := StartBroker(position);
      if !accepted {
        return;
      }
      DeliverOrHoldPlay(at, eventLabels);
    }

    method AvPlayEvent(position: UInt64, eventLabels: Option<Dict>)
      requires Valid()
      modifies `log, `mediaActive, `suppressedPlayEventLabels, delegates, media, broker
      ensures Did(Op.Play(position, eventLabels))
    {
      hide InStep, Brokers, Timers, View, UsersView, After, Calls, PlayRefused, PlayMedia, PlayCall, Holds;
      ViewParts();
      Playing(setup, View(), position, eventLabels);
      if !echoEnabled || media == null {
        return;
      }
      ReportPlay(position, eventLabels);
      ViewParts();
    }

    method AvNavigationEvent(position: UInt64) returns (at: UInt64)
      requires Valid()
      modifies `suppressingPlayEvent, broker
      ensures Valid() && AvView() == Navigated(old(AvView())) && at == ReportedPosition(old(AvView()), position)
    {
      hide InStep, Brokers, Timers, Clamp, Reportable;
      at := position;
      if media != null {
        ClampMeaning(media.length, position);
        if broker != null {
          broker.Stop();
          if media.mode.Live? {
            at := broker.position;
          } else {
            at := PreventPositionExceedingMediaLength(position);
          }
        }
        if media.mode.Live? && media.isEnrichedWithEssData && !suppressingPlayEvent {
          suppressingPlayEvent := true;
        }
      }
    }

    /** What every navigation event begins with. */
    method PrepareNavigation(position: UInt64, eventLabels: Option<Dict>)
        returns (at: UInt64, sanitisedLabels: Option<Dict>)
      requires Valid()
      modifies `suppressingPlayEvent, broker
      ensures Valid() && AvView() == Navigated(old(AvView()))
      ensures at == ReportedPosition(old(AvView()), position)
      ensures sanitisedLabels == SanitiseOptional(setup.cleanser, eventLabels)
    {
      hide InStep, Brokers, Timers, SanitiseOptional, AvView, Navigated, ReportedPosition;
      sanitisedLabels := SanitiseEventLabels(setup.cleanser, eventLabels);
      at := AvNavigationEvent(position);
    }

    method MarkNotPlaying()
      requires Valid() && media != null
      modifies media
      ensures Valid()
      ensures var a := old(AvView());
              a.media.Some? && AvView() == a.(media := Some(a.media.value.(isPlaying := false)))
    {
      hide InStep, Brokers, Timers, View, UsersView;
      media.isPlaying := false;
    }

    method ReportPause(position: UInt64, eventLabels: Option<Dict>)
      requires Valid() && media != null
      modifies `log, `suppressingPlayEvent, delegates, media, broker
      ensures Valid() && AvView() == Mark(Pause, Navigated(old(AvView())))
      ensures log == old(log) + [NavigationCall(Pause, ReportedPosition(old(AvView()), position),
                                                SanitiseOptional(setup.cleanser, eventLabels))]
    {
      hide InStep, Brokers, Timers, AvView, SanitiseOptional, ReportedPosition, Navigated, View, UsersView;
      var at, sanitisedLabels := PrepareNavigation(position, eventLabels);
      MarkNotPlaying();
      Deliver(Call.AvPause(at, sanitisedLabels));
    }

    method AvPauseEvent(position: UInt64, eventLabels: Option<Dict>)
      requires Valid()
      modifies `log, `suppressingPlayEvent, delegates, media, broker
      ensures Did(Op.Navigate(Pause, position, eventLabels))
    {
      hide InStep, Brokers, Timers, SanitiseOptional, ReportedPosition, Navigated, Mark, After, Calls, View, UsersView;
      ViewParts();
      Navigating(setup, View(), Pause, position, eventLabels);
      if !echoEnabled || media == null {
        return;
      }
      ReportPause(position, eventLabels);
      ViewParts();
    }

    method ReportBuffer(position: UInt64, eventLabels: Option<Dict>)
      requires Valid() && media != null
      modifies `log, `suppressingPlayEvent, delegates, media, broker
      ensures Valid() && AvView() == Mark(Buffer, Navigated(old(AvView())))
      ensures log == old(log) + [NavigationCall(Buffer, ReportedPosition(old(AvView()), position),
                                                SanitiseOptional(setup.cleanser, eventLabels))]
    {
      hide InStep, Brokers, Timers, SanitiseOptional, ReportedPosition, Navigated, View, UsersView;
      var at, sanitisedLabels := PrepareNavigation(position, eventLabels);
      MarkNotPlaying();
      Deliver(Call.AvBuffer(at, sanitisedLabels));
      media.isBuffering := true;
    }

    method AvBufferEvent(position: UInt64, eventLabels: Option<Dict>)
      requires Valid()
      modifies `log, `suppressingPlayEvent, delegates, media, broker
      ensures Did(Op.Navigate(Buffer, position, eventLabels))
    {
      hide InStep, Brokers, Timers, SanitiseOptional, ReportedPosition, Navigated, Mark, After, Calls, View, UsersView;
      ViewParts();
      Navigating(setup, View(), Buffer, position, eventLabels);
      if !echoEnabled || media == null {
        return;
      }
      ReportBuffer(position, eventLabels);
      ViewParts();
    }

    method EndSession()
      requires Valid()
      modifies `media, `mediaActive
      ensures Valid() && media == null && AvView() == old(AvView()).(media := None, active := false)
    {
      hide InStep, Brokers, Timers, View, UsersView;
      media := null;
      mediaActive := false;
    }

    method ReportEnd(position: UInt64, eventLabels: Option<Dict>)
      requires Valid() && media != null
      modifies `log, `media, `mediaActive, `suppressingPlayEvent, delegates, media, broker
      ensures Valid() && media == null && AvView() == Mark(End, Navigated(old(AvView())))
      ensures log == old(log) + [NavigationCall(End, ReportedPosition(old(AvView()), position),
                                                SanitiseOptional(setup.cleanser, eventLabels))]
    {
      hide InStep, Brokers, Timers, AvView, SanitiseOptional, ReportedPosition, Navigated, View, UsersView;
      var at, sanitisedLabels := PrepareNavigation(position, eventLabels);
      MarkNotPlaying();
      Deliver(Call.AvEnd(at, sanitisedLabels));
      EndSession();
    }

    method AvEndEvent(position: UInt64, eventLabels: Option<Dict>)
      requires Valid()
      modifies `log, `media, `mediaActive, `suppressingPlayEvent, delegates, media, broker
      ensures Did(Op.Navigate(End, position, eventLabels))
    {
      hide InStep, Brokers, Timers, SanitiseOptional, ReportedPosition, Navigated, Mark, After, Calls, View, UsersView;
      ViewParts();
      Navigating(setup, View(), End, position, eventLabels);
      if !echoEnabled || media == null {
        return;
      }
      ReportEnd(position, eventLabels);
      ViewParts();
    }

    method ReportRewind(position: UInt64, rate: UInt64, eventLabels: Option<Dict>)
      requires Valid() && media != null
      modifies `log, `suppressingPlayEvent, delegates, broker
      ensures Valid() && AvView() == Mark(Rewind(rate), Navigated(old(AvView())))
      ensures log == old(log) + [NavigationCall(Rewind(rate), ReportedPosition(old(AvView()), position),
                                                SanitiseOptional(setup.cleanser, eventLabels))]
    {
      hide InStep, Brokers, Timers, SanitiseOptional, ReportedPosition, Navigated, View, UsersView;
      var at, sanitisedLabels := PrepareNavigation(position, eventLabels);
      Deliver(Call.AvRewind(at, rate, sanitisedLabels));
    }

    method AvRewindEvent(position: UInt64, rate: UInt64, eventLabels: Option<Dict>)
      requires Valid()
      modifies `log, `suppressingPlayEvent, delegates, broker
      ensures Did(Op.Navigate(Rewind(rate), position, eventLabels))
    {
      hide InStep, Brokers, Timers, SanitiseOptional, ReportedPosition, Navigated, Mark, After, Calls, View, UsersView;
      ViewParts();
      Navigating(setup, View(), Rewind(rate), position, eventLabels);
      if !echoEnabled || media == null {
        return;
      }
      ReportRewind(position, rate, eventLabels);
      ViewParts();
    }

    method ReportFastForward(position: UInt64, rate: UInt64, eventLabels: Option<Dict>)
      requires Valid() && media != null
      modifies `log, `suppressingPlayEvent, delegates, broker
      ensures Valid() && AvView() == Mark(FastForward(rate), Navigated(old(AvView())))
      ensures log == old(log) + [NavigationCall(FastForward(rate), ReportedPosition(old(AvView()), position),
                                                SanitiseOptional(setup.cleanser, eventLabels))]
    {
      hide InStep, Brokers, Timers, SanitiseOptional, ReportedPosition, Navigated, View, UsersView;
      var at, sanitisedLabels := PrepareNavigation(position, eventLabels);
      Deliver(Call.AvFastForward(at, rate, sanitisedLabels));
    }

    method AvFastForwardEvent(position: UInt64, rate: UInt64, eventLabels: Option<Dict>)
      requires Valid()
      modifies `log, `suppressingPlayEvent, delegates, broker
      ensures Did(Op.Navigate(FastForward(rate), position, eventLabels))
    {
      hide InStep, Brokers, Timers, SanitiseOptional, ReportedPosition, Navigated, Mark, After, Calls, View, UsersView;
      ViewParts();
      Navigating(setup, View(), FastForward(rate), position, eventLabels);
      if !echoEnabled || media == null {
        return;
      }
      ReportFastForward(position, rate, eventLabels);
      ViewParts();
    }

    method ReportSeek(position: UInt64, eventLabels: Option<Dict>)
      requires Valid() && media != null
      modifies `log, `suppressingPlayEvent, delegates, broker
      ensures Valid() && AvView() == Mark(Seek, Navigated(old(AvView())))
      ensures log == old(log) + [NavigationCall(Seek, ReportedPosition(old(AvView()), position),
                                                SanitiseOptional(setup.cleanser, eventLabels))]
    {
      hide InStep, Brokers, Timers, SanitiseOptional, ReportedPosition, Navigated, View, UsersView;
      var at, sanitisedLabels := PrepareNavigation(position, eventLabels);
      Deliver(Call.AvSeek(at, sanitisedLabels));
    }

    method AvSeekEvent(position: UInt64, eventLabels: Option<Dict>)
      requires Valid()
      modifies `log, `suppressingPlayEvent, delegates, broker
      ensures Did(Op.Navigate(Seek, position, eventLabels))
    {
      hide InStep, Brokers, Timers, SanitiseOptional, ReportedPosition, Navigated, Mark, After, Calls, View, UsersView;
      ViewParts();
      Navigating(setup, View(), Seek, position, eventLabels);
      if !echoEnabled || media == null {
        return;
      }
      ReportSeek(position, eventLabels);
      ViewParts();
    }

    method ReportUserAction(actionType: string, actionName: string, position: UInt64, eventLabels: Option<Dict>)
      requires Valid() && media != null
      modifies `log, delegates
      ensures Valid()
      ensures log == old(log) + [Call.AvUserAction(actionType, actionName, ReportedPosition(old(AvView()), position),
                                                   SanitiseOptional(setup.cleanser, eventLabels))]
    {
      hide InStep, Brokers, Timers, View, UsersView, SanitiseOptional, Exceeds, Clamp, Reportable;
      ClampMeaning(media.length, position);
      var at := position;
      var sanitisedLabels := SanitiseEventLabels(setup.cleanser, eventLabels);
      if broker != null {
        if media.mode.Live? {
          at := broker.position;
        } else {
          at := PreventPositionExceedingMediaLength(position);
        }
      }
      Deliver(Call.AvUserAction(actionType, actionName, at, sanitisedLabels));
    }

    method AvUserActionEvent(actionType: string, actionName: string, position: UInt64, eventLabels: Option<Dict>)
      requires Valid()
      modifies `log, delegates
      ensures Did(Op.AvUserAction(actionType, actionName, position, eventLabels))
    {
      hide InStep, Brokers, Timers, UsersView, SanitiseOptional, ReportedPosition;
      if !echoEnabled || media == null {
        return;
      }
      ReportUserAction(actionType, actionName, position, eventLabels);
    }

    // ---- callbacks of the broker --------------------------------------------------------------

    method ReplaceMedia(newMedia: Media, newPosition: UInt64, oldPosition: UInt64)
      requires Valid()
      modifies `log, `suppressingPlayEvent, `media, delegates
      ensures Valid() && media == newMedia
      ensures AvView() == old(AvView()).(suppressing := false, media := Some(newMedia.Info()))
      ensures log == old(log) + [Call.LiveMediaUpdate(newMedia.Info(), newPosition, oldPosition)]
    {
      hide InStep, Brokers, Timers, View, UsersView;
      suppressingPlayEvent := false;
      media := newMedia;
      Deliver(Call.LiveMediaUpdate(newMedia.Info(), newPosition, oldPosition));
    }

    method LiveMediaUpdate(newMedia: Media, newPosition: UInt64, oldPosition: UInt64)
      requires Valid()
      modifies `log, `suppressingPlayEvent, `media, delegates
      ensures Did(Op.LiveMediaUpdate(newMedia.Info(), newPosition, oldPosition))
      ensures media == newMedia && (OwnMedia() <==> newMedia !in submitted)
    {
      hide InStep, Brokers, Timers, AvView, UsersView;
      ReplaceMedia(newMedia, newPosition, oldPosition);
    }

    /** Seconds outside this range stop the program. */
    method LiveTimestampUpdate(timestamp: real)
      requires Valid() && FitsMillis(timestamp)
      modifies `log, delegates
      ensures Did(Op.LiveTimestampUpdate(Millis(timestamp)))
    {
      hide InStep, Brokers, Timers, AvView, UsersView, AddLabelCall, Decimal, Millis;
      AddLabel(setup.keys.mediaTimestamp, Decimal(Millis(timestamp) as int));
    }

    method ReportEssError(error: EssError, code: string)
      requires Valid()
      modifies `log, delegates
      ensures Valid() && log == old(log) + EssErrorCalls(setup, error, code)
    {
      hide InStep, Brokers, Timers, View, AddLabelCall, EssErrorText;
      AddLabel(setup.keys.essError, EssErrorText(setup, error));
      if error == StatusCode {
        AddLabel(setup.keys.essStatusCode, code);
      }
      Deliver(Call.LiveEnrichmentFailed);
    }

    method SetEssError(error: EssError, code: string)
      requires Valid()
      modifies `log, delegates
      ensures Did(Op.SetEssError(error, code))
    {
      hide InStep, Brokers, Timers, AvView, UsersView, EssErrorCalls;
      ReportEssError(error, code);
    }

    method SetEssSuccess(isSuccess: bool)
      requires Valid()
      modifies `log, delegates
      ensures Did(Op.SetEssSuccess(isSuccess))
    {
      hide InStep, Brokers, Timers, AvView, UsersView, AddLabelCall;
      AddLabel(setup.keys.essSuccess, if isSuccess then "true" else "false");
    }

    method LiftSuppression()
      requires Valid()
      modifies `suppressingPlayEvent
      ensures Valid() && AvView() == old(AvView()).(suppressing := false)
    {
      hide InStep, Brokers, Timers, View, UsersView;
      suppressingPlayEvent := false;
    }

    /** The play that was held back is made again, at the position of the broker. */
    method ReplaySuppressed()
      requires Valid() && broker != null
      modifies `log, `suppressingPlayEvent, `mediaActive, `suppressedPlayEventLabels, delegates, media, broker
      ensures var s := Released(old(View()));
              && View() == AfterPlay(setup, s, old(broker.position), old(suppressedPlayEventLabels))
              && log == old(log) + PlayCalls(setup, s, old(broker.position), old(suppressedPlayEventLabels))
      ensures Valid()
    {
      hide InStep, Brokers, Timers, AvView, UsersView, AfterPlay, PlayCalls;
      LiftSuppression();
      AvPlayEvent(broker.position, suppressedPlayEventLabels);
    }

    method ReleaseSuppressedPlay()
      requires Valid()
      modifies `log, `suppressingPlayEvent, `mediaActive, `suppressedPlayEventLabels, delegates, media, broker
      ensures Did(Op.ReleaseSuppressedPlay)
    {
      hide InStep, Brokers, Timers, UsersView, AfterPlay, PlayCalls;
      if !echoEnabled {
        return;
      }
      if broker != null && suppressingPlayEvent {
        ReplaySuppressed();
      }
    }

    method SendHeartbeat(name: string, position: UInt64)
      requires Valid()
      modifies `log, delegates
      ensures Did(Op.SendHeartbeat(name, position))
    {
      hide InStep, Brokers, Timers, AvView, UsersView, AvUserActionCalls;
      AvUserActionEvent("echo_hb", name, position, None);
    }

    // ---- settings and plain events --------------------------------------------------------------

    /** Clears every delegate's media on the way to asking the ComScore ones for their id. */
    method ClearMediaAndAskForID() returns (deviceId: Option<string>)
      requires Valid()
      modifies `log, delegates
      ensures Valid() && log == old(log) + [Call.ClearMedia] && LastAnswer(delegates, deviceId)
    {
      hide Heard, ToldStore, LastAnswer;
      deviceId := None;
      NobodyAnswered();
      for i := 0 to |delegates|
        modifies delegates
        invariant forall j :: 0 <= j < i ==> delegates[j].heard == old(delegates[j].heard) + [Call.ClearMedia]
        invariant forall j :: i <= j < |delegates| ==> delegates[j].heard == old(delegates[j].heard)
        invariant LastAnswer(delegates[..i], deviceId)
      {
        assert delegates[..i + 1] == delegates[..i] + [delegates[i]];
        LastAnswerGrows(delegates[..i], deviceId, delegates[i]);
        delegates[i].Receive(Call.ClearMedia);
        if delegates[i].comScoreDeviceId.Some? {
          deviceId := delegates[i].comScoreDeviceId;
        }
      }
      assert delegates[..|delegates|] == delegates;
      HeardAppend(log, Call.ClearMedia);
      log := log + [Call.ClearMedia];
    }

    method GetComScoreDeviceID() returns (deviceId: Option<string>)
      requires Valid()
      modifies `log, delegates
      ensures Did(Op.GetComScoreDeviceID)
      ensures LastAnswer(delegates, deviceId)
    {
      hide InStep, Brokers, Timers, LastAnswer, AvView, UsersView;
      deviceId := ClearMediaAndAskForID();
    }

    method SetCacheMode(mode: CacheMode)
      requires Valid()
      modifies `log, `cacheMode, delegates
      ensures Did(Op.SetCacheMode(mode))
    {
      hide InStep, Brokers, Timers, AvView, UsersView;
      ActiveIsField();
      if !mediaActive {
        Deliver(Call.SetCacheMode(mode));
        cacheMode := mode;
      }
    }

    method FlushCache()
      requires Valid()
      modifies `log, delegates
      ensures Did(Op.FlushCache)
    {
      hide InStep, Brokers, Timers, AvView, UsersView;
      if !echoEnabled {
        return;
      }
      Deliver(Call.FlushCache);
    }

    method ClearCache()
      requires Valid()
      modifies `log, delegates
      ensures Did(Op.ClearCache)
    {
      hide InStep, Brokers, Timers, AvView, UsersView;
      Deliver(Call.ClearCache);
    }

    method SetCounterName(counterName: string)
      requires Valid()
      modifies `log, `counterNameSet, delegates
      ensures Did(Op.SetCounterName(counterName))
    {
      hide InStep, Brokers, Timers, AvView, UsersView;
      var name := setup.cleanser.cleanCounter(counterName);
      counterNameSet := true;
      Deliver(Call.SetCounterName(name));
    }

    /** The setters that only pass a value on. */
    method PassOn(what: string)
      requires Valid()
      modifies `log, delegates
      ensures Did(Op.Setting(what))
    {
      hide InStep, Brokers, Timers, AvView, UsersView;
      Deliver(Call.Setting(what));
    }

    method ReportView(counterName: string, eventLabels: Option<Dict>)
      requires Valid()
      modifies `log, `counterNameSet, delegates
      ensures Valid() && counterNameSet
      ensures log == old(log) + [Call.ViewEvent(setup.cleanser.cleanCounter(counterName),
                                                SanitiseOptional(setup.cleanser, eventLabels))]
    {
      hide InStep, Brokers, Timers, View, AvView, UsersView, SanitiseOptional;
      var name := setup.cleanser.cleanCounter(counterName);
      var sanitisedLabels := SanitiseEventLabels(setup.cleanser, eventLabels);
      counterNameSet := true;
      Deliver(Call.ViewEvent(name, sanitisedLabels));
    }

    method ViewEvent(counterName: string, eventLabels: Option<Dict>)
      requires Valid()
      modifies `log, `counterNameSet, delegates
      ensures Did(Op.ViewEvent(counterName, eventLabels))
    {
      hide InStep, Brokers, Timers, AvView, UsersView, SanitiseOptional;
      if !echoEnabled {
        return;
      }
      ReportView(counterName, eventLabels);
    }

    method UserActionEvent(actionType: string, actionName: string, eventLabels: Option<Dict>)
      requires Valid()
      modifies `log, delegates
      ensures Did(Op.UserAction(actionType, actionName, eventLabels))
    {
      hide InStep, Brokers, Timers, AvView, UsersView, SanitiseOptional;
      if !echoEnabled {
        return;
      }
      if !counterNameSet {
        return;
      }
      var sanitisedLabels := SanitiseEventLabels(setup.cleanser, eventLabels);
      Deliver(Call.UserAction(Caller, actionType, Named(actionName), sanitisedLabels));
    }

    method ReportError(error: string, eventLabels: Option<Dict>)
      requires Valid()
      modifies `log, delegates
      ensures Valid() && log == old(log) + [Call.ErrorEvent(error, SanitiseOptional(setup.cleanser, eventLabels))]
    {
      hide InStep, View, AvView, UsersView, Brokers, Timers, SanitiseOptional;
      var sanitisedLabels := SanitiseEventLabels(setup.cleanser, eventLabels);
      Deliver(Call.ErrorEvent(error, sanitisedLabels));
    }

    method ErrorEvent(error: string, eventLabels: Option<Dict>)
      requires Valid()
      modifies `log, delegates
      ensures Did(Op.ErrorEvent(error, eventLabels))
    {
      hide InStep, AvView, UsersView, Brokers, Timers, SanitiseOptional;
      if !echoEnabled {
        return;
      }
      ReportError(error, eventLabels);
    }

    // ---- users ------------------------------------------------------------------------------------

    method RemoveSchedule()
      requires Valid()
      modifies timer
      ensures Valid()
      ensures UsersView() == old(UsersView()).(timer := Invalidated(old(UsersView()).timer))
      ensures old(timer) != null ==> !old(timer).valid
    {
      hide InStep, Brokers, Timers;
      if timer != null {
        timer.Invalidate();
      }
    }

    /** The timer is not used any more; the one made instead is the newest. */
    method ReplaceTimer(user: User)
      requires Valid()
      modifies `timer, `oldTimers
      ensures Valid()
      ensures var u := old(UsersView());
              UsersView() == u.(timer := Some(TimerInfo(user, true)),
                                oldTimers := if u.timer.None? then u.oldTimers else u.oldTimers + [u.timer.value])
      ensures old(Timers()) <= Timers()
    {
      hide InStep, View, AvView;
      if timer != null {
        TimerInfosAppend(oldTimers, timer);
        oldTimers := oldTimers + [timer];
      }
      hide TimerInfos;
      timer := new Timer(user);
    }

    method RememberForTimer(user: User)
      requires Valid()
      modifies `userForTimer
      ensures Valid() && UsersView() == old(UsersView()).(forTimer := Some(user))
    {
      hide InStep, Brokers, Timers, View, AvView, TimerInfos;
      userForTimer := Some(user);
    }

    method ScheduleTokenExpiry(user: User, timeUntilExpiry: real)
      requires Valid()
      modifies `userForTimer, `timer, `oldTimers, timer
      ensures Valid() && UsersView() == Schedule(old(UsersView()), user, timeUntilExpiry)
      ensures old(Timers()) <= Timers()
      ensures old(timer) != null ==> !old(timer).valid
    {
      hide InStep, Brokers, Timers, View, AvView, UsersView;
      RemoveSchedule();
      RememberForTimer(user);
      if timeUntilExpiry > 0.0 {
        ReplaceTimer(user);
      }
    }

    method ResetUserData(user: User, e: UserEnv)
      requires Valid()
      modifies `log, `userForTimer, `timer, `oldTimers, delegates, timer
      ensures Valid() && UsersView() == Machine.ResetUserData(old(UsersView()), user, e)
      ensures log == old(log) + ResetUserDataCalls(e)
      ensures old(Timers()) <= Timers()
    {
      hide InStep, Brokers, Timers, View, AvView, Schedule;
      if e.token == TokenState.Valid {
        if e.reason.Some? {
          ClearCache();
        }
        if user.tokenRefreshTimestamp.Some? {
          ScheduleTokenExpiry(user, e.timeUntilExpiry);
        }
      } else if e.token == Expired && e.previousToken != Expired {
        RemoveSchedule();
      }
    }

    /** The label dictionary is changed on the way through the delegates, but every one
        of them receives the same. */
    method ReportToEach(origin: Origin, actionType: string, actionName: ActionName, labels: Dict)
      requires Valid()
      modifies `log, delegates
      ensures Valid()
      ensures log == old(log) + [Call.UserAction(origin, actionType, actionName,
                                                 Some(labels[setup.keys.isBackground := "true"]))]
    {
      hide Heard, ToldStore;
      var eventLabels := labels;
      ghost var marked := labels[setup.keys.isBackground := "true"];
      ghost var report := Call.UserAction(origin, actionType, actionName, Some(marked));
      for i := 0 to |delegates|
        modifies delegates
        invariant eventLabels[setup.keys.isBackground := "true"] == marked
        invariant forall j :: 0 <= j < i ==> delegates[j].heard == old(delegates[j].heard) + [report]
        invariant forall j :: i <= j < |delegates| ==> delegates[j].heard == old(delegates[j].heard)
      {
        eventLabels := eventLabels[setup.keys.isBackground := "true"];
        delegates[i].Receive(Call.UserAction(origin, actionType, actionName, Some(eventLabels)));
      }
      HeardAppend(log, report);
      log := log + [report];
    }

    method SendUserUpdateEvent(e: UserEnv, actionType: string, actionName: ActionName, labels: Dict, isPostponed: bool)
      requires Valid() && isPostponed == UsersView().postponed.Some?
      requires Call.UserAction(UserReport(isPostponed), actionType, actionName,
                 Some((if isPostponed then map[DEVICE_ID_RESET := "1"] else labels)[setup.keys.isBackground := "true"]))
               == UserReportCall(setup, e, isPostponed)
      modifies `log, delegates, userStore
      ensures Valid() && UsersView() == old(UsersView()).(postponed := None)
      ensures log == old(log) + UserReportCalls(setup, e, isPostponed)
    {
      hide InStep, Brokers, Timers, View, AvView, UsersView, UserReportCall;
      var eventLabels := labels;
      if isPostponed {
        eventLabels := map["device_id_reset" := "1"];
      }
      ReportToEach(UserReport(isPostponed), actionType, actionName, eventLabels);
      if isPostponed {
        ForgetTransition();
      }
    }

    method UserShouldUpdate(user: User) returns (should: bool)
      requires Valid()
      modifies `bbcUserSetWhileDisabled, `previousUser
      ensures Valid() && should == (echoEnabled && hasStarted && setup.idv5Enabled)
      ensures should ==> UsersView() == old(UsersView())
      ensures !should ==>
                UsersView() == if echoEnabled && hasStarted then old(UsersView()).(previous := Some(user))
                               else old(UsersView()).(pending := Some(user))
    {
      hide InStep, Brokers, Timers;
      if !(echoEnabled && hasStarted) {
        bbcUserSetWhileDisabled := Some(user);
        return false;
      }
      if !setup.idv5Enabled {
        previousUser := Some(user);
        return false;
      }
      return true;
    }

    method ChangeUser(user: User, e: UserEnv)
      requires Valid()
      modifies `log, `bbcUserSetWhileDisabled, `previousUser, `userForTimer, `timer, `oldTimers
      modifies delegates, timer, userStore
      ensures Valid() && UsersView() == SetUser(setup, echoEnabled && hasStarted, old(UsersView()), user, e)
      ensures log == old(log) + SetUserCalls(setup, echoEnabled && hasStarted, old(UsersView()), user, e)
      ensures old(Timers()) <= Timers()
    {
      hide InStep, Brokers, Timers, View, AvView, UsersView, ApplyUser, ApplyUserCalls;
      var should := UserShouldUpdate(user);
      if !should {
        return;
      }
      UpdateUser(user, e);
    }

    method SetBBCUser(user: User, e: UserEnv)
      requires Valid()
      modifies `log, `bbcUserSetWhileDisabled, `previousUser, `userForTimer, `timer, `oldTimers
      modifies delegates, timer, userStore
      ensures Did(Op.SetBBCUser(user, e))
    {
      hide InStep, Brokers, Timers, AvView, UsersView, SetUser, SetUserCalls;
      ChangeUser(user, e);
    }

    method KeepPreviousUser()
      requires Valid()
      modifies `previousUser
      ensures Valid()
      ensures var u := old(UsersView());
              UsersView() == u.(previous := Some(if u.previous.Some? then u.previous.value else u.stored))
    {
      hide InStep, Brokers, Timers, View, AvView;
      previousUser := Some(if previousUser.Some? then previousUser.value else userStore.user);
    }

    /** Brings the store and the user's data up to date; says whether a transition has been waiting. */
    method RegisterUser(user: User, e: UserEnv) returns (isPostponed: bool)
      requires Valid()
      modifies `log, `previousUser, `userForTimer, `timer, `oldTimers, delegates, timer, userStore
      ensures Valid() && UsersView() == Registered(setup, old(UsersView()), user, e)
      ensures log == old(log) + RegisterCalls(setup, user, e)
      ensures isPostponed == old(UsersView()).postponed.Some?
      ensures old(Timers()) <= Timers()
    {
      hide InStep, Brokers, Timers, View, AvView, UsersView, Machine.ResetUserData, ResetUserDataCalls;
      KeepPreviousUser();
      isPostponed := StoreUser(user);
      if e.deviceId.Some? {
        Deliver(Call.UpdateDeviceID(e.deviceId.value));
      }
      if setup.resetOnUserStateChange {
        ResetUserData(user, e);
      }
    }

    /** How a change of user is reported. */
    method ActionFor(e: UserEnv, isPostponed: bool)
        returns (actionType: string, actionName: ActionName, eventLabels: Dict)
      ensures Call.UserAction(UserReport(isPostponed), actionType, actionName,
                Some((if isPostponed then map[DEVICE_ID_RESET := "1"] else eventLabels)[setup.keys.isBackground := "true"]))
              == UserReportCall(setup, e, isPostponed)
    {
      actionType, actionName, eventLabels := "user_state_change", OfTransition(e.transition), map[];
      if e.reason.Some? {
        if e.reason.value != FirstInstall || isPostponed {
          eventLabels := map["device_id_reset" := "1"];
        }
        if e.transition == NoTransition || e.reason.value == FirstInstall || e.reason.value == EchoUpgrade {
          actionType := "echo_device_id";
          actionName := OfReason(e.reason.value);
        }
      }
    }

    method SettleUser(user: User)
      requires Valid()
      modifies `previousUser, `bbcUserSetWhileDisabled
      ensures Valid() && UsersView() == old(UsersView()).(previous := Some(user), pending := None)
    {
      hide InStep, Brokers, Timers, View, AvView;
      previousUser := Some(user);
      bbcUserSetWhileDisabled := None;
    }

    /** The user is new to the delegates: they are told, and the change is reported. */
    method ReportUser(user: User, e: UserEnv, isPostponed: bool)
      requires Valid() && isPostponed == UsersView().postponed.Some? && !TakesResetPath(setup, e)
      modifies `log, `bbcUserSetWhileDisabled, `previousUser, delegates, userStore
      ensures Valid()
      ensures UsersView() == old(UsersView()).(previous := Some(user), pending := None,
                               postponed := if ReportsUser(e) then None else old(UsersView()).postponed)
      ensures log == old(log) + [Call.UpdateBBCUserLabels(user)]
                     + if ReportsUser(e) then UserReportCalls(setup, e, isPostponed) else []
    {
      hide InStep, Brokers, Timers, View, AvView, UsersView, UserReportCall, UserReportCalls;
      var actionType, actionName, eventLabels := ActionFor(e, isPostponed);
      Deliver(Call.UpdateBBCUserLabels(user));
      if e.transition != NoTransition || e.reason.Some? {
        SendUserUpdateEvent(e, actionType, actionName, eventLabels, isPostponed);
      }
      SettleUser(user);
    }

    method UpdateUser(user: User, e: UserEnv)
      requires Valid()
      modifies `log, `bbcUserSetWhileDisabled, `previousUser, `userForTimer, `timer, `oldTimers
      modifies delegates, timer, userStore
      ensures Valid() && UsersView() == ApplyUser(setup, old(UsersView()), user, e)
      ensures log == old(log) + ApplyUserCalls(setup, old(UsersView()), user, e)
      ensures old(Timers()) <= Timers()
    {
      hide InStep, Brokers, Timers, View, AvView, UsersView, RegisterCalls, UserReportCalls;
      var isPostponed := RegisterUser(user, e);
      if setup.resetOnUserStateChange && e.reason == Some(UserStateChanged) {
        Deliver(Call.UserStateChange);
        PostponeTransition(e.transition);
        return;
      }
      ReportUser(user, e, isPostponed);
    }

    method BeginEvents(e: UserEnv)
      requires Valid() && echoEnabled && !hasStarted
      modifies `log, `hasStarted, `bbcUserSetWhileDisabled, `previousUser, `userForTimer, `timer, `oldTimers
      modifies delegates, timer, userStore
      ensures Valid() && hasStarted && UsersView() == SetPending(setup, old(UsersView()), e)
      ensures log == old(log) + [Call.Start] + PendingCalls(setup, old(UsersView()), e)
      ensures old(Timers()) <= Timers()
    {
      hide InStep, Brokers, Timers, View, AvView, SetUser, SetUserCalls;
      Deliver(Call.Start);
      hasStarted := true;
      if bbcUserSetWhileDisabled.Some? {
        ChangeUser(bbcUserSetWhileDisabled.value, e);
      }
    }

    method Start(e: UserEnv)
      requires Valid()
      modifies `log, `hasStarted, `bbcUserSetWhileDisabled, `previousUser, `userForTimer, `timer, `oldTimers
      modifies delegates, timer, userStore
      ensures Did(Op.Start(e))
    {
      hide InStep, Brokers, Timers, AvView, UsersView, SetPending, PendingCalls;
      if !echoEnabled || hasStarted {
        return;
      }
      BeginEvents(e);
    }

    /** A client that had started before gets the user it was given in the meantime. */
    method CatchUp(e: UserEnv)
      requires Valid() && echoEnabled && hasStarted
      modifies `log, `bbcUserSetWhileDisabled, `previousUser, `userForTimer, `timer, `oldTimers
      modifies delegates, timer, userStore
      ensures Valid() && UsersView() == SetPending(setup, old(UsersView()), e).(pending := None)
      ensures log == old(log) + PendingCalls(setup, old(UsersView()), e)
      ensures old(Timers()) <= Timers()
    {
      hide InStep, Brokers, Timers, View, AvView, SetUser, SetUserCalls;
      if bbcUserSetWhileDisabled.Some? {
        ChangeUser(bbcUserSetWhileDisabled.value, e);
        bbcUserSetWhileDisabled := None;
      }
    }

    /** Events have come on: the user given in the meantime is applied, or the client starts. */
    method ResumeEvents(e: UserEnv)
      requires Valid() && echoEnabled
      modifies `log, `hasStarted, `bbcUserSetWhileDisabled, `previousUser, `userForTimer, `timer, `oldTimers
      modifies delegates, timer, userStore
      ensures Valid() && hasStarted == (old(hasStarted) || setup.autoStart)
      ensures var u := old(UsersView());
              && UsersView() == (if old(hasStarted) then SetPending(setup, u, e).(pending := None)
                                 else if setup.autoStart then SetPending(setup, u, e) else u)
              && log == old(log) + (if old(hasStarted) then PendingCalls(setup, u, e)
                                    else if setup.autoStart then [Call.Start] + PendingCalls(setup, u, e) else [])
      ensures old(Timers()) <= Timers()
    {
      hide InStep, Brokers, Timers, View, AvView, UsersView, SetPending, PendingCalls;
      if hasStarted {
        CatchUp(e);
      } else if setup.autoStart {
        BeginEvents(e);
      }
    }

    method TurnOn(e: UserEnv)
      requires Valid()
      modifies `log, `echoEnabled, `hasStarted
      modifies `bbcUserSetWhileDisabled, `previousUser, `userForTimer, `timer, `oldTimers
      modifies delegates, timer, userStore
      ensures Valid() && echoEnabled && hasStarted == (old(hasStarted) || setup.autoStart)
      ensures var u := old(UsersView());
              && UsersView() == (if old(hasStarted) then SetPending(setup, u, e).(pending := None)
                                 else if setup.autoStart then SetPending(setup, u, e) else u)
              && log == old(log) + [Call.Enable]
                        + (if old(hasStarted) then PendingCalls(setup, u, e)
                           else if setup.autoStart then [Call.Start] + PendingCalls(setup, u, e) else [])
      ensures old(Timers()) <= Timers()
    {
      hide InStep, Brokers, Timers, View, AvView, UsersView, SetPending, PendingCalls;
      echoEnabled := true;
      Deliver(Call.Enable);
      ResumeEvents(e);
    }

    method Enable(e: UserEnv)
      requires Valid()
      modifies `log, `echoEnabled, `hasStarted
      modifies `bbcUserSetWhileDisabled, `previousUser, `userForTimer, `timer, `oldTimers
      modifies delegates, timer, userStore
      ensures Did(Op.Enable(e))
    {
      hide InStep, View, AvView, UsersView, Brokers, Timers, After, Calls, SetPending, PendingCalls;
      ViewParts();
      Enabling(setup, View(), e);
      if echoEnabled {
        return;
      }
      TurnOn(e);
      ViewParts();
    }

    method TurnOff()
      requires Valid()
      modifies `log, `echoEnabled, `media, `broker, `droppedBrokers, delegates, broker
      ensures Valid() && !echoEnabled && media == null && AvView() == CloseMedia(old(AvView()))
      ensures log == old(log) + CloseCalls(setup) + [Call.Disable]
      ensures old(Brokers()) <= Brokers()
      ensures old(broker) != null ==> !old(broker).running && old(broker) in droppedBrokers
    {
      hide InStep, View, AvView, UsersView, CloseMedia, CloseCalls;
      ClearMedia();
      echoEnabled := false;
      Deliver(Call.Disable);
    }

    method Disable()
      requires Valid()
      modifies `log, `echoEnabled, `media, `broker, `droppedBrokers, delegates, broker
      ensures Did(Op.Disable)
      ensures old(echoEnabled) && old(broker) != null ==> !old(broker).running && old(broker) in droppedBrokers
    {
      hide InStep, AvView, UsersView, CloseMedia, CloseCalls;
      if !echoEnabled {
        return;
      }
      TurnOff();
    }

    // ---- steps of the environment -----------------------------------------------------------------

    method ExpireToken()
      requires Valid()
      modifies `log, `userForTimer, delegates
      ensures Valid() && UsersView() == old(UsersView()).(forTimer := None)
      ensures log == old(log) + if old(userForTimer).Some? then [Call.UpdateBBCUserLabels(old(userForTimer).value)] else []
    {
      hide InStep, Brokers, Timers, View, AvView;
      if userForTimer.Some? {
        Deliver(Call.UpdateBBCUserLabels(userForTimer.value));
      }
      userForTimer := None;
    }

    method SpendTimer(t: Timer, ghost which: nat)
      requires Valid() && which < |Timers()| && Timers()[which] == t && t.valid
      modifies t
      ensures Valid() && UsersView().(forTimer := None) == Fired(old(UsersView()), which)
    {
      hide InStep, Brokers, TimerInfos;
      ghost var infos := TimerInfos(oldTimers);
      forall i | 0 <= i < |oldTimers| ensures |infos| == |oldTimers| && infos[i] == oldTimers[i].Info() {
        TimerInfosAt(oldTimers, i);
      }
      TimerInfosAt(oldTimers, 0);
      t.Invalidate();
      if which < |infos| {
        InfosWithout(oldTimers, infos, which);
      }
    }

    lemma CanFireValid(t: Timer, which: nat)
      requires which < |Timers()| && Timers()[which] == t && t.valid
      ensures CanFire(UsersView(), which)
    {
      TimerInfosAt(oldTimers, which);
    }

    method FireTimer(t: Timer, ghost which: nat)
      requires Valid() && which < |Timers()| && Timers()[which] == t && t.valid
      modifies `log, `userForTimer, delegates, t
      ensures Valid() && CanFire(old(UsersView()), which) && UsersView() == Fired(old(UsersView()), which)
      ensures log == old(log) + FiredCalls(old(UsersView()), which)
    {
      CanFireValid(t, which);
      hide InStep, Brokers, View, AvView, TimerInfos, Fired;
      SpendTimer(t, which);
      ExpireToken();
      FiredForgets(old(UsersView()), which);
    }

    /** The run loop fires any timer that is valid: a one-shot timer, so it is spent. */
    method TimerFires(t: Timer, ghost which: nat)
      requires Valid() && which < |Timers()| && Timers()[which] == t && t.valid
      modifies `log, `userForTimer, delegates, t
      ensures Did(Op.TimerFires(which))
    {
      hide InStep, Brokers, AvView, UsersView, TimerInfos, Timers, Fired, FiredCalls;
      FireTimer(t, which);
    }

    /** The playhead of the current broker moves. */
    method PlayheadMoves(position: UInt64)
      requires Valid()
      modifies broker
      ensures Did(Op.PlayheadMoves(position))
    {
      hide InStep, Brokers, Timers, UsersView;
      if broker != null {
        broker.SetPosition(position);
      }
    }
  }
  // ---- creation ------------------------------------------------------------------------------------

  /** Collates the configuration and builds a client from it, unless it is not valid:
      then no delegate is called and no user is stored. */
  method CreateClient(
      isSpace: char -> bool, appName: string, layers: Layers, userConfig: Option<Values>,
      keys: LabelKeys, cleanser: Cleanser, essErrorText: string,
      delegates: seq<Delegate>, userStore: UserStore, bbcUser: User, e: UserEnv) returns (client: EchoClient?)
    requires Distinct(delegates) && AllHeard(delegates, []) && userStore.told == []
    modifies delegates, userStore
    ensures client != null <==>
            !Blank(isSpace, appName) && forall key :: Acceptable(Highest(layers, userConfig, key), key)
    ensures client == null ==> unchanged(userStore) && forall d :: d in delegates ==> unchanged(d)
    ensures client != null ==>
              var config := Collated(layers, userConfig);
              var s := Fresh(IsTrue(config, EchoEnabled), ModeOf(config), bbcUser,
                             old(userStore.user), old(userStore.postponed));
              && client.Valid() && client.delegates == delegates
              && client.setup == SetupOf(config, keys, cleanser, essErrorText)
              && client.setup.essUrl.Some?
              && client.At(s, if s.echoEnabled && client.setup.autoStart then [Op.Start(e)] else [])
  {
    ValidIff(isSpace, appName, layers, userConfig);
    RequiredKeysArePresent(layers, userConfig);
    hide Collated, Highest, Acceptable, IsValid, Heard, ToldStore, Run, Log;
    var config := CollateConfig(layers, userConfig);
    if !IsValid(isSpace, appName, config) {
      return null;
    }
    client := new EchoClient(SetupOf(config, keys, cleanser, essErrorText), delegates, userStore,
                             IsTrue(config, EchoEnabled), ModeOf(config), bbcUser, e);
  }
}
