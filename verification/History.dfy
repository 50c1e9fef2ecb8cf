/** What the client's state remembers of a run, said about the operations of the run. */
module History {
  import opened EchoTypes
  import Labels
  import opened Positions
  import opened Machine
  import opened Folds
  import opened UserUpdates
  import Timers

  // ---- a flag that some operations set and others clear -------------------------------

  ghost predicate At(k: Setup, s: State, ops: seq<Op>, what: (State, Op) -> bool, i: int)
    requires 0 <= i < |ops|
  {
    what(Run(k, s, ops[..i]), ops[i])
  }

  /** It was set at some moment of the run, or held from the beginning, and nothing cleared it since. */
  ghost predicate HeldSince(
      k: Setup, s: State, ops: seq<Op>, atFirst: bool, sets: (State, Op) -> bool, clears: (State, Op) -> bool)
  {
    exists i :: -1 <= i < |ops| && SetOnce(k, s, ops, atFirst, sets, i) && NotClearedAfter(k, s, ops, clears, i)
  }

  /** Moment -1 stands for the beginning. */
  ghost predicate SetOnce(k: Setup, s: State, ops: seq<Op>, atFirst: bool, sets: (State, Op) -> bool, i: int)
    requires -1 <= i < |ops|
  {
    if i == -1 then atFirst else At(k, s, ops, sets, i)
  }

  ghost predicate NotClearedAfter(k: Setup, s: State, ops: seq<Op>, clears: (State, Op) -> bool, i: int)
    requires -1 <= i < |ops|
  {
    forall j :: i < j < |ops| ==> !At(k, s, ops, clears, j)
  }

  lemma SameMoment(k: Setup, s: State, ops: seq<Op>, what: (State, Op) -> bool, n: nat, i: nat)
    requires i < n <= |ops|
    ensures At(k, s, ops[..n], what, i) == At(k, s, ops, what, i)
  {
    hide Run;
    assert ops[..n][..i] == ops[..i];
  }

  lemma SameStretch(
      k: Setup, s: State, ops: seq<Op>, atFirst: bool, sets: (State, Op) -> bool, clears: (State, Op) -> bool, i: int)
    requires ops != [] && -1 <= i < |ops| - 1
    ensures var n := |ops| - 1;
            && SetOnce(k, s, ops[..n], atFirst, sets, i) == SetOnce(k, s, ops, atFirst, sets, i)
            && (NotClearedAfter(k, s, ops, clears, i) <==>
                NotClearedAfter(k, s, ops[..n], clears, i) && !At(k, s, ops, clears, n))
  {
    hide At;
    var n := |ops| - 1;
    var front := ops[..n];
    if i >= 0 { SameMoment(k, s, ops, sets, n, i); }
    forall j | 0 <= j < n ensures At(k, s, front, clears, j) == At(k, s, ops, clears, j) {
      SameMoment(k, s, ops, clears, n, j);
    }
  }

  lemma HeldGrows(
      k: Setup, s: State, ops: seq<Op>, atFirst: bool, sets: (State, Op) -> bool, clears: (State, Op) -> bool)
    requires ops != []
    ensures var n := |ops| - 1;
            HeldSince(k, s, ops, atFirst, sets, clears) <==>
            At(k, s, ops, sets, n) || (HeldSince(k, s, ops[..n], atFirst, sets, clears) && !At(k, s, ops, clears, n))
  {
    var n := |ops| - 1;
    var front := ops[..n];
    LastMoment(k, s, ops, atFirst, sets, clears);
    hide At, SetOnce, NotClearedAfter;
    if HeldSince(k, s, front, atFirst, sets, clears) && !At(k, s, ops, clears, n) {
      var i :| -1 <= i < n && SetOnce(k, s, front, atFirst, sets, i) && NotClearedAfter(k, s, front, clears, i);
      SameStretch(k, s, ops, atFirst, sets, clears, i);
    }
    if HeldSince(k, s, ops, atFirst, sets, clears) {
      var i :| -1 <= i < |ops| && SetOnce(k, s, ops, atFirst, sets, i) && NotClearedAfter(k, s, ops, clears, i);
      if i < n { SameStretch(k, s, ops, atFirst, sets, clears, i); }
    }
  }

  lemma LastMoment(
      k: Setup, s: State, ops: seq<Op>, atFirst: bool, sets: (State, Op) -> bool, clears: (State, Op) -> bool)
    requires ops != []
    ensures var n := |ops| - 1;
            SetOnce(k, s, ops, atFirst, sets, n) == At(k, s, ops, sets, n) && NotClearedAfter(k, s, ops, clears, n)
  {
    hide At;
  }

  /** Every step sets, clears or keeps the flag; setting wins. */
  ghost predicate Follows(
      k: Setup, inv: State -> bool, flag: State -> bool, sets: (State, Op) -> bool, clears: (State, Op) -> bool)
  {
    forall t, op :: inv(t) ==> inv(After(k, t, op)) && (flag(After(k, t, op)) <==> sets(t, op) || (flag(t) && !clears(t, op)))
  }

  lemma {:induction false} FlagIsHistory(
      k: Setup, s: State, ops: seq<Op>,
      inv: State -> bool, flag: State -> bool, sets: (State, Op) -> bool, clears: (State, Op) -> bool)
    requires Follows(k, inv, flag, sets, clears) && inv(s)
    ensures inv(Run(k, s, ops))
    ensures flag(Run(k, s, ops)) <==> HeldSince(k, s, ops, flag(s), sets, clears)
  {
    hide After;
    if ops == [] {
      assert SetOnce(k, s, ops, flag(s), sets, -1) == flag(s) && NotClearedAfter(k, s, ops, clears, -1);
    } else {
      var n := |ops| - 1;
      FlagIsHistory(k, s, ops[..n], inv, flag, sets, clears);
      HeldGrows(k, s, ops, flag(s), sets, clears);
      assert flag(After(k, Run(k, s, ops[..n]), ops[n])) <==>
             sets(Run(k, s, ops[..n]), ops[n]) || (flag(Run(k, s, ops[..n])) && !clears(Run(k, s, ops[..n]), ops[n]));
      hide HeldSince;
    }
  }

  function Any(s: State): bool { true }

  predicate Never(s: State, op: Op) { false }

  // ---- switches ----------------------------------------------------------------------------

  predicate SwitchesOn(s: State, op: Op) { op.Enable? }

  predicate SwitchesOff(s: State, op: Op) { op.Disable? }

  lemma {:induction false} StepSwitches(k: Setup, s: State, op: Op)
    ensures After(k, s, op).echoEnabled <==> SwitchesOn(s, op) || (s.echoEnabled && !SwitchesOff(s, op))
  {
    hide SetUser, SetPending, Fired, OpenMedia, CloseMedia, PlayMedia, Mark, Navigated, SetLength;
  }

  /** Echo is on exactly when it was last switched on, or was on at first and never switched off. */
  lemma EchoIsOnIff(k: Setup, s: State, ops: seq<Op>)
    ensures Run(k, s, ops).echoEnabled <==> HeldSince(k, s, ops, s.echoEnabled, SwitchesOn, SwitchesOff)
  {
    hide After, Run, HeldSince;
    var flag := (t: State) => t.echoEnabled;
    forall t, op ensures flag(After(k, t, op)) <==> SwitchesOn(t, op) || (flag(t) && !SwitchesOff(t, op)) {
      StepSwitches(k, t, op);
    }
    FlagIsHistory(k, s, ops, Any, flag, SwitchesOn, SwitchesOff);
  }

  /** Starting takes a start while Echo is on, or being switched on when the client starts by itself. */
  predicate TakesStart(autoStart: bool, s: State, op: Op) {
    (op.Start? && s.echoEnabled) || (op.Enable? && autoStart && !s.echoEnabled)
  }

  lemma {:induction false} StepStarts(k: Setup, s: State, op: Op)
    ensures After(k, s, op).hasStarted <==> TakesStart(k.autoStart, s, op) || s.hasStarted
  {
    hide SetUser, SetPending, Fired, OpenMedia, CloseMedia, PlayMedia, Mark, Navigated, SetLength;
  }

  lemma HasStartedIff(k: Setup, s: State, ops: seq<Op>)
    ensures Run(k, s, ops).hasStarted <==>
            HeldSince(k, s, ops, s.hasStarted, (t, op) => TakesStart(k.autoStart, t, op), Never)
  {
    hide After, Run, HeldSince, TakesStart;
    var flag := (t: State) => t.hasStarted;
    var sets := (t, op) => TakesStart(k.autoStart, t, op);
    forall t, op ensures flag(After(k, t, op)) <==> sets(t, op) || (flag(t) && !Never(t, op)) { StepStarts(k, t, op); }
    FlagIsHistory(k, s, ops, Any, flag, sets, Never);
  }

  predicate NamesCounter(s: State, op: Op) { op.SetCounterName? || (op.ViewEvent? && s.echoEnabled) }

  lemma {:induction false} StepNames(k: Setup, s: State, op: Op)
    ensures After(k, s, op).counterNameSet <==> NamesCounter(s, op) || s.counterNameSet
  {
    hide SetUser, SetPending, Fired, OpenMedia, CloseMedia, PlayMedia, Mark, Navigated, SetLength;
  }

  /** A user action of the application is heard exactly when Echo was last switched on and a
      counter name was given before, by itself or with a view that was heard. */
  lemma ActionIsHeardIff(k: Setup, s: State, ops: seq<Op>, actionType: string, actionName: string, labels: Option<Dict>)
    ensures Calls(k, Run(k, s, ops), Op.UserAction(actionType, actionName, labels)) ==
            if HeldSince(k, s, ops, s.echoEnabled, SwitchesOn, SwitchesOff)
               && HeldSince(k, s, ops, s.counterNameSet, NamesCounter, Never)
            then [Call.UserAction(Caller, actionType, Named(actionName), Labels.SanitiseOptional(k.cleanser, labels))]
            else []
  {
    hide After, Run, HeldSince, NamesCounter, Labels.SanitiseOptional;
    var flag := (t: State) => t.counterNameSet;
    forall t, op ensures flag(After(k, t, op)) <==> NamesCounter(t, op) || (flag(t) && !Never(t, op)) { StepNames(k, t, op); }
    FlagIsHistory(k, s, ops, Any, flag, NamesCounter, Never);
    EchoIsOnIff(k, s, ops);
  }

  // ---- playback -------------------------------------------------------------------------------

  /** Echo is on, media is set, and if there is a broker to follow on-demand media, a second
      of known media is left at the position. */
  predicate PlayTaken(s: State, position: UInt64) {
    && s.echoEnabled && s.av.media.Some?
    && (s.av.broker.None? || s.av.media.value.mode.Live? || Playable(s.av.media.value.length, position))
  }

  /** Live enriched media whose plays wait for a release. */
  predicate PlayWaits(s: State) {
    s.av.media.Some? && s.av.media.value.mode.Live? && s.av.media.value.isEnriched && s.av.suppressing
  }

  /** A release that makes a play again. */
  predicate Replays(s: State) { s.av.suppressing && s.av.broker.Some? && PlayTaken(s, s.av.broker.value.position) }

  /** The broker is told to go, by a play, held back or not, or by a release. */
  predicate SetsGoing(s: State, op: Op) {
    s.av.broker.Some? && ((op.Play? && PlayTaken(s, op.position)) || (op.ReleaseSuppressedPlay? && Replays(s)))
  }

  /** The broker is told to stop, or is let go of. */
  predicate BringsToRest(s: State, op: Op) {
    s.echoEnabled && (op.SetMedia? || op.Disable? || (op.Navigate? && s.av.media.Some?))
  }

  predicate Running(s: State) { s.av.broker.Some? && s.av.broker.value.running }

  lemma TakenIsAccepted(s: State, position: UInt64)
    ensures PlayTaken(s, position) <==> PlayAccepted(s, position)
  {
    if s.av.media.Some? { ExceedsMeaning(s.av.media.value.length, position); }
    hide Exceeds, Playable;
  }

  lemma ReplaysIsRelease(s: State)
    ensures Replays(s) <==> Releases(s) && PlayAccepted(Released(s), s.av.broker.value.position)
  {
    if s.av.broker.Some? { TakenIsAccepted(Released(s), s.av.broker.value.position); }
    hide Exceeds, Playable;
  }

  lemma PlayRuns(k: Setup, s: State, op: Op)
    requires op.Play?
    ensures Running(After(k, s, op)) <==> SetsGoing(s, op) || (Running(s) && !BringsToRest(s, op))
  {
    TakenIsAccepted(s, op.position);
    if PlayAccepted(s, op.position) { PlayMediaGoes(k, s.av, op.position, op.labels); }
    hide PlayTaken, PlayRefused, PlayMedia;
  }

  lemma PlayMediaGoes(k: Setup, a: Av, position: UInt64, labels: Option<Dict>)
    requires a.media.Some?
    ensures var t := PlayMedia(k, a, position, labels);
            t.broker.Some? == a.broker.Some? && (t.broker.Some? ==> t.broker.value.running) && t.hasPlayer == a.hasPlayer
  {
    hide Labels.SanitiseOptional;
  }

  lemma NavigationRuns(k: Setup, s: State, op: Op)
    requires op.Navigate?
    ensures Running(After(k, s, op)) <==> SetsGoing(s, op) || (Running(s) && !BringsToRest(s, op))
  {}

  lemma ReleaseRuns(k: Setup, s: State, op: Op)
    requires op.ReleaseSuppressedPlay?
    ensures Running(After(k, s, op)) <==> SetsGoing(s, op) || (Running(s) && !BringsToRest(s, op))
  {
    ReplaysIsRelease(s);
    if Releases(s) && s.av.media.Some? {
      PlayMediaGoes(k, Released(s).av, s.av.broker.value.position, s.av.suppressedLabels);
    }
    hide PlayTaken, PlayRefused, PlayMedia, Replays;
  }

  lemma PlaybackRuns(k: Setup, s: State, op: Op)
    requires Playback(op)
    ensures Running(After(k, s, op)) <==> SetsGoing(s, op) || (Running(s) && !BringsToRest(s, op))
  {
    if op.Play? { PlayRuns(k, s, op); } else if op.Navigate? { NavigationRuns(k, s, op); } else { ReleaseRuns(k, s, op); }
    hide After, Running, SetsGoing, BringsToRest;
  }

  lemma RestRuns(k: Setup, s: State, op: Op)
    requires !Playback(op)
    ensures Running(After(k, s, op)) <==> SetsGoing(s, op) || (Running(s) && !BringsToRest(s, op))
  {
    hide SetUser, SetPending, Fired, PlayMedia, Mark, Navigated;
  }

  /** The broker runs exactly when, since it was made, a play was taken, directly or by a
      release, and no navigation since. */
  lemma BrokerRunsIff(k: Setup, s: State, ops: seq<Op>)
    ensures Running(Run(k, s, ops)) <==> HeldSince(k, s, ops, Running(s), SetsGoing, BringsToRest)
  {
    hide After, Run, HeldSince, Running, SetsGoing, BringsToRest;
    forall t, op ensures Running(After(k, t, op)) <==> SetsGoing(t, op) || (Running(t) && !BringsToRest(t, op)) {
      if Playback(op) { PlaybackRuns(k, t, op); } else { RestRuns(k, t, op); }
    }
    FlagIsHistory(k, s, ops, Any, Running, SetsGoing, BringsToRest);
  }

  // ---- broker and player delegate ----------------------------------------------------------------

  predicate GivesPlayer(s: State, op: Op) { op.SetPlayerDelegate? }

  predicate GetsBroker(s: State, op: Op) { op.SetMedia? && s.echoEnabled && s.av.hasPlayer && op.brokerMade }

  predicate LosesBroker(s: State, op: Op) { s.echoEnabled && (op.SetMedia? || op.Disable?) }

  predicate HasPlayer(s: State) { s.av.hasPlayer }

  predicate HasBroker(s: State) { s.av.broker.Some? }

  lemma {:induction false} StepBroker(k: Setup, s: State, op: Op)
    ensures HasPlayer(After(k, s, op)) <==> GivesPlayer(s, op) || HasPlayer(s)
    ensures HasBroker(After(k, s, op)) <==> GetsBroker(s, op) || (HasBroker(s) && !LosesBroker(s, op))
  {
    if Playback(op) { PlaybackKeepsBroker(k, s, op); }
    else if op.SetMedia? || op.Disable? { MediaChangesBroker(k, s, op); }
    else { RestKeepsBroker(k, s, op); }
    hide After;
  }

  lemma PlayKeepsBroker(k: Setup, s: State, op: Op)
    requires op.Play?
    ensures HasPlayer(After(k, s, op)) == HasPlayer(s) && HasBroker(After(k, s, op)) == HasBroker(s)
  {
    if PlayAccepted(s, op.position) { PlayMediaGoes(k, s.av, op.position, op.labels); }
    hide PlayRefused, PlayMedia;
  }

  lemma NavigationKeepsBroker(k: Setup, s: State, op: Op)
    requires op.Navigate?
    ensures HasPlayer(After(k, s, op)) == HasPlayer(s) && HasBroker(After(k, s, op)) == HasBroker(s)
  {}

  lemma ReleaseKeepsBroker(k: Setup, s: State, op: Op)
    requires op.ReleaseSuppressedPlay?
    ensures HasPlayer(After(k, s, op)) == HasPlayer(s) && HasBroker(After(k, s, op)) == HasBroker(s)
  {
    if Releases(s) && s.av.media.Some? {
      PlayMediaGoes(k, Released(s).av, s.av.broker.value.position, s.av.suppressedLabels);
    }
    hide PlayRefused, PlayMedia;
  }

  lemma PlaybackKeepsBroker(k: Setup, s: State, op: Op)
    requires Playback(op)
    ensures HasPlayer(After(k, s, op)) == HasPlayer(s) && HasBroker(After(k, s, op)) == HasBroker(s)
  {
    if op.Play? { PlayKeepsBroker(k, s, op); }
    else if op.Navigate? { NavigationKeepsBroker(k, s, op); }
    else { ReleaseKeepsBroker(k, s, op); }
    hide After, HasPlayer, HasBroker;
  }

  lemma MediaChangesBroker(k: Setup, s: State, op: Op)
    requires op.SetMedia? || op.Disable?
    ensures HasPlayer(After(k, s, op)) == HasPlayer(s)
    ensures HasBroker(After(k, s, op)) <==> GetsBroker(s, op) || (HasBroker(s) && !LosesBroker(s, op))
  {}

  lemma RestKeepsBroker(k: Setup, s: State, op: Op)
    requires !Playback(op) && !op.SetMedia? && !op.Disable?
    ensures HasPlayer(After(k, s, op)) <==> op.SetPlayerDelegate? || HasPlayer(s)
    ensures HasBroker(After(k, s, op)) == HasBroker(s)
  {
    hide SetUser, SetPending, Fired;
  }

  /** There is a broker exactly when the last media set while Echo was on got one and Echo was
      not switched off since; and a player delegate once one was given. */
  lemma HasBrokerIff(k: Setup, s: State, ops: seq<Op>)
    ensures HasPlayer(Run(k, s, ops)) <==> HeldSince(k, s, ops, HasPlayer(s), GivesPlayer, Never)
    ensures HasBroker(Run(k, s, ops)) <==> HeldSince(k, s, ops, HasBroker(s), GetsBroker, LosesBroker)
  {
    hide After, Run, HeldSince, HasPlayer, HasBroker, GivesPlayer, GetsBroker, LosesBroker;
    forall t, op
      ensures HasPlayer(After(k, t, op)) <==> GivesPlayer(t, op) || (HasPlayer(t) && !Never(t, op))
      ensures HasBroker(After(k, t, op)) <==> GetsBroker(t, op) || (HasBroker(t) && !LosesBroker(t, op))
    {
      StepBroker(k, t, op);
    }
    FlagIsHistory(k, s, ops, Any, HasPlayer, GivesPlayer, Never);
    FlagIsHistory(k, s, ops, Any, HasBroker, GetsBroker, LosesBroker);
  }

  // ---- the token timer ------------------------------------------------------------------------------

  /** Some timer, which can only be the newest, is able to fire. */
  predicate Armed(s: State) { s.users.timer.Some? && s.users.timer.value.valid }

  predicate Orderly(s: State) { Timers.OneTimer(s.users) }

  /** A user with a valid token and time left on it is applied. */
  predicate Arms(k: Setup, s: State, op: Op) { Timers.Schedules(k, s, op).Some? && op.env.timeUntilExpiry > 0.0 }

  /** A user whose token has just expired is applied. */
  predicate Expires(k: Setup, s: State, op: Op) {
    Applied(k, s, op).Some? && k.resetOnUserStateChange && op.env.token == Expired && op.env.previousToken != Expired
  }

  /** The timer is replaced or given up, or fires. */
  predicate Disarms(k: Setup, s: State, op: Op) {
    Timers.Schedules(k, s, op).Some? || Expires(k, s, op) || (op.TimerFires? && op.which == |s.users.oldTimers|)
  }

  lemma ApplyArms(k: Setup, u: Users, user: User, e: UserEnv)
    requires Timers.OneTimer(u)
    ensures var t := ApplyUser(k, u, user, e);
            var schedules := k.resetOnUserStateChange && e.token == Valid && user.tokenRefreshTimestamp.Some?;
            var expires := k.resetOnUserStateChange && e.token == Expired && e.previousToken != Expired;
            && Timers.OneTimer(t)
            && (t.timer.Some? && t.timer.value.valid <==>
                (schedules && e.timeUntilExpiry > 0.0)
                || (u.timer.Some? && u.timer.value.valid && !schedules && !expires))
            && (schedules ==> t.forTimer == Some(user))
            && (schedules && e.timeUntilExpiry > 0.0 ==> t.timer == Some(TimerInfo(user, true)))
            && (!schedules && !expires ==> t.timer == u.timer)
            && (!schedules ==> t.forTimer == u.forTimer)
  {}

  /** A user set with events on or off, and the user feature on or off. */
  lemma SetUserArms(k: Setup, on: bool, u: Users, user: User, e: UserEnv)
    requires Timers.OneTimer(u)
    ensures var t := SetUser(k, on, u, user, e);
            var applied := on && k.idv5Enabled && k.resetOnUserStateChange;
            var schedules := applied && e.token == Valid && user.tokenRefreshTimestamp.Some?;
            var expires := applied && e.token == Expired && e.previousToken != Expired;
            && Timers.OneTimer(t)
            && (t.timer.Some? && t.timer.value.valid <==>
                (schedules && e.timeUntilExpiry > 0.0)
                || (u.timer.Some? && u.timer.value.valid && !schedules && !expires))
            && (schedules ==> t.forTimer == Some(user))
            && (schedules && e.timeUntilExpiry > 0.0 ==> t.timer == Some(TimerInfo(user, true)))
  {
    ApplyArms(k, u, user, e);
    hide ApplyUser;
  }

  lemma SetBBCUserArms(k: Setup, s: State, op: Op)
    requires Orderly(s) && op.SetBBCUser?
    ensures var t := After(k, s, op);
            && Orderly(t)
            && (Armed(t) <==> Arms(k, s, op) || (Armed(s) && !Disarms(k, s, op)))
            && (Timers.Schedules(k, s, op).Some? ==> t.users.forTimer == Timers.Schedules(k, s, op))
            && (Arms(k, s, op) ==> t.users.timer == Some(TimerInfo(Timers.Schedules(k, s, op).value, true)))
  {
    SetUserArms(k, EventsOn(s), s.users, op.user, op.env);
    hide SetUser, Timers.OneTimer;
  }

  lemma StartArms(k: Setup, s: State, op: Op)
    requires Orderly(s) && op.Start?
    ensures var t := After(k, s, op);
            && Orderly(t)
            && (Armed(t) <==> Arms(k, s, op) || (Armed(s) && !Disarms(k, s, op)))
            && (Timers.Schedules(k, s, op).Some? ==> t.users.forTimer == Timers.Schedules(k, s, op))
            && (Arms(k, s, op) ==> t.users.timer == Some(TimerInfo(Timers.Schedules(k, s, op).value, true)))
  {
    if s.users.pending.Some? { SetUserArms(k, true, s.users, s.users.pending.value, op.env); }
    hide SetUser, Timers.OneTimer;
  }

  lemma EnableArms(k: Setup, s: State, op: Op)
    requires Orderly(s) && op.Enable?
    ensures var t := After(k, s, op);
            && Orderly(t)
            && (Armed(t) <==> Arms(k, s, op) || (Armed(s) && !Disarms(k, s, op)))
            && (Timers.Schedules(k, s, op).Some? ==> t.users.forTimer == Timers.Schedules(k, s, op))
            && (Arms(k, s, op) ==> t.users.timer == Some(TimerInfo(Timers.Schedules(k, s, op).value, true)))
  {
    if s.users.pending.Some? { SetUserArms(k, true, s.users, s.users.pending.value, op.env); }
    OneTimerIgnoresWaiting(SetPending(k, s.users, op.env));
    hide SetUser, Timers.OneTimer;
  }

  lemma OneTimerIgnoresWaiting(u: Users)
    ensures Timers.OneTimer(u.(pending := None)) == Timers.OneTimer(u)
  {}

  lemma UserOpArms(k: Setup, s: State, op: Op)
    requires Orderly(s) && (op.SetBBCUser? || op.Start? || op.Enable?)
    ensures var t := After(k, s, op);
            && Orderly(t)
            && (Armed(t) <==> Arms(k, s, op) || (Armed(s) && !Disarms(k, s, op)))
            && (Timers.Schedules(k, s, op).Some? ==> t.users.forTimer == Timers.Schedules(k, s, op))
            && (Arms(k, s, op) ==> t.users.timer == Some(TimerInfo(Timers.Schedules(k, s, op).value, true)))
  {
    if op.SetBBCUser? { SetBBCUserArms(k, s, op); } else if op.Start? { StartArms(k, s, op); } else { EnableArms(k, s, op); }
    hide After, Armed, Arms, Disarms, Orderly, Timers.Schedules;
  }

  lemma RestArms(k: Setup, s: State, op: Op)
    requires Orderly(s) && !op.SetBBCUser? && !op.Start? && !op.Enable?
    ensures Orderly(After(k, s, op))
    ensures Armed(After(k, s, op)) <==> Arms(k, s, op) || (Armed(s) && !Disarms(k, s, op))
  {
    if op.TimerFires? { FiringDisarms(s.users, op.which); FiringIsFired(k, s, op); } else { RestKeepsUsers(k, s, op); }
    hide After, Fired, Timers.OneTimer;
  }

  lemma FiringDisarms(u: Users, which: nat)
    requires Timers.OneTimer(u)
    ensures var t := Fired(u, which);
            && Timers.OneTimer(t)
            && (t.timer.Some? && t.timer.value.valid <==>
                u.timer.Some? && u.timer.value.valid && which != |u.oldTimers|)
  {}

  lemma FiringIsFired(k: Setup, s: State, op: Op)
    requires op.TimerFires?
    ensures After(k, s, op).users == Fired(s.users, op.which)
  {
    hide Fired;
  }

  lemma RestKeepsUsers(k: Setup, s: State, op: Op)
    requires !op.SetBBCUser? && !op.Start? && !op.Enable? && !op.TimerFires?
    ensures After(k, s, op).users == s.users
  {
    hide OpenMedia, CloseMedia, PlayMedia, Mark, Navigated, SetLength;
  }

  /** A timer is waiting to fire exactly when the last token scheduled had time left, and
      since then no other was scheduled, none expired, and the timer has not fired. */
  lemma TimerIsArmedIff(k: Setup, s: State, ops: seq<Op>)
    requires s.users.timer.None? && s.users.oldTimers == []
    ensures Armed(Run(k, s, ops)) <==>
            HeldSince(k, s, ops, false, (t, op) => Arms(k, t, op), (t, op) => Disarms(k, t, op))
  {
    NoTimerIsOrderly(s);
    hide After, Run, HeldSince, Armed, Arms, Disarms, Orderly;
    var sets := (t, op) => Arms(k, t, op);
    var clears := (t, op) => Disarms(k, t, op);
    forall t, op | Orderly(t)
      ensures Orderly(After(k, t, op)) && (Armed(After(k, t, op)) <==> sets(t, op) || (Armed(t) && !clears(t, op)))
    {
      if op.SetBBCUser? || op.Start? || op.Enable? { UserOpArms(k, t, op); } else { RestArms(k, t, op); }
    }
    FlagIsHistory(k, s, ops, Orderly, Armed, sets, clears);
  }

  lemma NoTimerIsOrderly(s: State)
    requires s.users.timer.None? && s.users.oldTimers == []
    ensures Orderly(s) && !Armed(s)
  {}

  /** At any moment of a run: applying a user with a valid token makes a timer for that user
      if, and only if, time is left; the user is remembered either way; and no earlier timer
      can fire. A token that has just expired leaves none that can. */
  lemma ScheduleMakesTimerIff(k: Setup, s: State, ops: seq<Op>, op: Op)
    requires s.users.timer.None? && s.users.oldTimers == []
    ensures var before := Run(k, s, ops);
            var user := Timers.Schedules(k, before, op);
            var u := After(k, before, op).users;
            && (user.Some? ==>
                  && u.forTimer == user
                  && (u.timer.Some? && u.timer.value.valid <==> op.env.timeUntilExpiry > 0.0)
                  && (op.env.timeUntilExpiry > 0.0 ==> u.timer == Some(TimerInfo(user.value, true))))
            && (forall i :: 0 <= i < |u.oldTimers| ==> !u.oldTimers[i].valid)
            && (Expires(k, before, op) ==> !(u.timer.Some? && u.timer.value.valid))
  {
    Timers.RunTracks(k, s, ops);
    var before := Run(k, s, ops);
    assert Orderly(before);
    if op.SetBBCUser? || op.Start? || op.Enable? { UserOpArms(k, before, op); } else { RestArms(k, before, op); }
    hide After, Run;
  }
}
