/** What each operation does, spelled out: the calls it makes, one by one, and the state
    it leaves, with every condition written on the state before and the arguments. */
module Effects {
  import opened EchoTypes
  import opened Labels
  import opened Positions
  import opened Machine
  import opened Folds
  import opened UserUpdates
  import History

  // ---- playback -----------------------------------------------------------------------

  /** Where playback is reported: at the broker's position for live media; for on-demand media
      at the caller's, if that leaves a second, and else at the end; without a broker at the caller's. */
  function Where(a: Av, position: UInt64): UInt64 {
    if a.broker.None? || a.media.None? then position
    else if a.media.value.mode.Live? then a.broker.value.position
    else if Reportable(a.media.value.length, position) then position
    else a.media.value.length
  }

  lemma ReportedWhere(a: Av, position: UInt64)
    ensures ReportedPosition(a, position) == Where(a, position)
  {
    if a.media.Some? { ClampMeaning(a.media.value.length, position); }
    hide Clamp, Reportable;
  }

  /** Each kind of navigation is heard as itself, once. */
  lemma NavigationMakes(k: Setup, s: State, kind: Navigation, position: UInt64, labels: Option<Dict>)
    ensures var calls := Calls(k, s, Op.Navigate(kind, position, labels));
            var at, clean := Where(s.av, position), SanitiseOptional(k.cleanser, labels);
            if !s.echoEnabled || s.av.media.None? then calls == [] else
              match kind
              case Pause => calls == [Call.AvPause(at, clean)]
              case Buffer => calls == [Call.AvBuffer(at, clean)]
              case End => calls == [Call.AvEnd(at, clean)]
              case Rewind(rate) => calls == [Call.AvRewind(at, rate, clean)]
              case FastForward(rate) => calls == [Call.AvFastForward(at, rate, clean)]
              case Seek => calls == [Call.AvSeek(at, clean)]
  {
    ReportedWhere(s.av, position);
    hide ReportedPosition, Where, SanitiseOptional;
  }

  /** The broker stops, a suppression begins on live enriched media, and the marks are set. */
  lemma NavigationLeaves(k: Setup, s: State, kind: Navigation, position: UInt64, labels: Option<Dict>)
    ensures var t := After(k, s, Op.Navigate(kind, position, labels));
            if !s.echoEnabled || s.av.media.None? then t == s else
              var media := s.av.media.value;
              t == s.(av := s.av.(
                broker := if s.av.broker.Some? then Some(s.av.broker.value.(running := false)) else None,
                suppressing := s.av.suppressing || (media.mode.Live? && media.isEnriched),
                media := match kind
                         case Pause => Some(media.(isPlaying := false))
                         case Buffer => Some(media.(isPlaying := false, isBuffering := true))
                         case End => None
                         case _ => Some(media),
                active := s.av.active && !kind.End?))
  {}

  /** A user action within playback is heard once, each argument in its place. */
  lemma UserActionMakes(
      k: Setup, s: State, actionType: string, actionName: string, position: UInt64, labels: Option<Dict>)
    ensures Calls(k, s, Op.AvUserAction(actionType, actionName, position, labels)) ==
            if !s.echoEnabled || s.av.media.None? then [] else
              [Call.AvUserAction(actionType, actionName, Where(s.av, position), SanitiseOptional(k.cleanser, labels))]
    ensures Calls(k, s, Op.SendHeartbeat(actionName, position)) ==
            if !s.echoEnabled || s.av.media.None? then [] else
              [Call.AvUserAction("echo_hb", actionName, Where(s.av, position), None)]
  {
    ReportedWhere(s.av, position);
    hide ReportedPosition, Where, Sanitise;
  }

  /** A play that is taken is heard once, unless it has to wait. */
  lemma PlayMakes(k: Setup, s: State, position: UInt64, labels: Option<Dict>)
    ensures Calls(k, s, Op.Play(position, labels)) ==
            if !History.PlayTaken(s, position) || History.PlayWaits(s) then [] else
              [Call.AvPlay(if s.av.broker.Some? && s.av.media.value.mode.Live? then s.av.broker.value.position else position,
                           SanitiseOptional(k.cleanser, labels))]
  {
    History.TakenIsAccepted(s, position);
    hide History.PlayTaken, PlayAccepted, SanitiseOptional;
    if PlayAccepted(s, position) { AcceptedHasMedia(s, position); }
  }

  lemma AcceptedHasMedia(s: State, position: UInt64)
    requires PlayAccepted(s, position)
    ensures s.echoEnabled && s.av.media.Some?
  {}

  /** A play that is taken sets the broker going, at its own position for live media and else at
      the one asked for. If it has to wait it leaves its labels, and otherwise its marks. A play
      that is not taken leaves nothing. */
  lemma PlayLeaves(k: Setup, s: State, position: UInt64, labels: Option<Dict>)
    ensures var t := After(k, s, Op.Play(position, labels));
            if !History.PlayTaken(s, position) then t == s else
              var a, media := s.av, s.av.media.value;
              var broker := if a.broker.None? then None
                            else Some(BrokerInfo(a.broker.value.live, true,
                                                 if media.mode.Live? then a.broker.value.position else position));
              t == s.(av := if History.PlayWaits(s)
                            then a.(broker := broker, suppressedLabels := SanitiseOptional(k.cleanser, labels))
                            else a.(broker := broker, active := true,
                                    media := Some(media.(isPlaying := true, isBuffering := false))))
  {
    History.TakenIsAccepted(s, position);
    hide History.PlayTaken, PlayAccepted, SanitiseOptional;
    if PlayAccepted(s, position) { AcceptedHasMedia(s, position); }
  }

  /** A play sets the broker going exactly when the media is live or a second of it is left. */
  lemma BrokerGoesIff(k: Setup, s: State, position: UInt64, labels: Option<Dict>)
    requires s.echoEnabled && s.av.media.Some? && s.av.broker.Some?
    ensures var media := s.av.media.value;
            var broker := After(k, s, Op.Play(position, labels)).av.broker;
            && broker.Some?
            && (if media.mode.Live? || Playable(media.length, position) then
                  && broker.value.running
                  && broker.value.position == if media.mode.Live? then s.av.broker.value.position else position
                else broker == s.av.broker)
  {
    PlayLeaves(k, s, position, labels);
    hide After, Playable, SanitiseOptional;
  }

  /** A release is the held play made again, with the suppression lifted. */
  lemma ReleaseIsPlay(k: Setup, s: State)
    ensures var lifted := s.(av := s.av.(suppressing := false));
            if s.echoEnabled && s.av.broker.Some? && s.av.suppressing then
              var play := Op.Play(s.av.broker.value.position, s.av.suppressedLabels);
              && After(k, s, ReleaseSuppressedPlay) == After(k, lifted, play)
              && Calls(k, s, ReleaseSuppressedPlay) == Calls(k, lifted, play)
            else After(k, s, ReleaseSuppressedPlay) == s && Calls(k, s, ReleaseSuppressedPlay) == []
  {
    hide PlayMedia, PlayCall, PlayAccepted;
  }

  // ---- media and broker -----------------------------------------------------------------

  /** One removal, by its cleaned key; none if nothing is left of it. */
  function Removed(k: Setup, key: string): seq<Call> {
    if k.cleanser.cleanKey(key) == "" then [] else [Call.RemoveLabels([k.cleanser.cleanKey(key)])]
  }

  lemma RemovalIsRemoved(k: Setup, key: string)
    ensures RemovalCalls(k, [key]) == Removed(k, key)
  {
    assert CleanKeys(k.cleanser, []) == [] && [key][..0] == [];
    var clean := k.cleanser.cleanKey(key);
    assert CleanKeys(k.cleanser, [key]) == if clean == "" then [] else [clean];
  }

  /** The labels of the former media, in order. */
  function Forgotten(k: Setup): seq<Call> {
    Removed(k, k.keys.mediaTimestamp) + Removed(k, k.keys.essEnabled) + Removed(k, k.keys.essSuccess)
    + Removed(k, k.keys.essError) + Removed(k, k.keys.essStatusCode) + Removed(k, k.keys.essEnriched)
  }

  lemma ForgottenInOrder(k: Setup)
    ensures CloseCalls(k) == Forgotten(k) + [Call.ClearMedia]
  {
    EssRemovalsInTurn(k);
    RemovalIsRemoved(k, k.keys.mediaTimestamp);
    RemovalIsRemoved(k, k.keys.essEnabled);
    RemovalIsRemoved(k, k.keys.essSuccess);
    RemovalIsRemoved(k, k.keys.essError);
    RemovalIsRemoved(k, k.keys.essStatusCode);
    RemovalIsRemoved(k, k.keys.essEnriched);
    hide EssRemovals, RemovalCalls, Removed;
  }

  /** With Echo on: labels of the former media are removed, the former media is cleared, the
      flag is added, a broker is handed over if one is made, and last comes the media. The
      broker is live exactly when the media is and the ESS URL is known. */
  lemma SetMediaMakes(k: Setup, s: State, media: MediaInfo, made: bool)
    ensures Calls(k, s, Op.SetMedia(media, made)) ==
            if !s.echoEnabled then [] else
              Forgotten(k) + [Call.ClearMedia]
              + [Call.AddLabels(Sanitise(k.cleanser, map[k.keys.essEnabled := if k.essEnabled then "true" else "false"]))]
              + (if s.av.hasPlayer && made then [Call.SetBroker(k.essUrl.Some? && media.mode.Live?)] else [])
              + [Call.SetMedia(media)]
  {
    ForgottenInOrder(k);
    hide CloseCalls, Sanitise, Forgotten;
  }

  /** The current broker is new, stopped, at 0 and of that kind; the former one is stopped. */
  lemma SetMediaLeaves(k: Setup, s: State, media: MediaInfo, made: bool)
    ensures After(k, s, Op.SetMedia(media, made)) ==
            if !s.echoEnabled then s else
              s.(av := s.av.(
                media := Some(media),
                broker := if s.av.hasPlayer && made then Some(BrokerInfo(k.essUrl.Some? && media.mode.Live?, false, 0)) else None,
                droppedBrokers := s.av.droppedBrokers
                                  + if s.av.broker.Some? then [s.av.broker.value.(running := false)] else []))
  {}

  /** Exactly one broker is handed over, before the media, with its kind. */
  lemma OneBrokerIsHandedOver(k: Setup, s: State, media: MediaInfo)
    requires s.echoEnabled && s.av.hasPlayer
    ensures var calls := Calls(k, s, Op.SetMedia(media, true));
            var n := |calls| - 2;
            && n >= 0
            && calls[n] == Call.SetBroker(k.essUrl.Some? && media.mode.Live?) && calls[n + 1] == Call.SetMedia(media)
            && forall i :: 0 <= i < |calls| && i != n ==> !calls[i].SetBroker?
  {
    SetMediaMakes(k, s, media, true);
    hide Calls, Sanitise;
    assert forall c :: c in Forgotten(k) ==> !c.SetBroker? by { ForgettingOnlyRemoves(k); }
    hide Forgotten;
  }

  lemma ForgettingOnlyRemoves(k: Setup)
    ensures forall c :: c in Forgotten(k) ==> c.RemoveLabels?
  {}

  /** Media is let go of, with its broker stopped, before `disable` is heard. */
  lemma DisableDoes(k: Setup, s: State)
    ensures Calls(k, s, Op.Disable) == if s.echoEnabled then Forgotten(k) + [Call.ClearMedia, Call.Disable] else []
    ensures After(k, s, Op.Disable) ==
            if !s.echoEnabled then s else
              s.(echoEnabled := false,
                 av := s.av.(
                   media := None, broker := None,
                   droppedBrokers := s.av.droppedBrokers
                                     + if s.av.broker.Some? then [s.av.broker.value.(running := false)] else []))
  {
    ForgottenInOrder(k);
    hide CloseCalls, Forgotten;
  }

  /** A new length is for on-demand media only; zero is not passed on. */
  lemma SetMediaLengthDoes(k: Setup, s: State, length: UInt64)
    ensures var op := Op.SetMediaLength(length);
            if s.av.media.None? || s.av.media.value.mode.Live? then After(k, s, op) == s && Calls(k, s, op) == []
            else
              && After(k, s, op) == s.(av := s.av.(media := Some(s.av.media.value.(length := length))))
              && Calls(k, s, op) == if length == 0 then [] else [Call.SetMediaLength(length)]
  {}

  // ---- callbacks of the broker ---------------------------------------------------------------

  /** That enrichment failed is told once, last, whatever the error; a status code has its label. */
  lemma SetEssErrorMakes(k: Setup, s: State, error: EssError, code: string)
    ensures var text := if error.StatusCode? then k.essErrorText else error.rawValue;
            Calls(k, s, Op.SetEssError(error, code)) ==
            [Call.AddLabels(Sanitise(k.cleanser, map[k.keys.essError := text]))]
            + (if error.StatusCode? then [Call.AddLabels(Sanitise(k.cleanser, map[k.keys.essStatusCode := code]))] else [])
            + [Call.LiveEnrichmentFailed]
    ensures After(k, s, Op.SetEssError(error, code)) == s
  {
    hide Sanitise;
  }

  /** A live update is heard whatever the state, replaces the media and ends a suppression. */
  lemma LiveMediaUpdateDoes(k: Setup, s: State, media: MediaInfo, newPosition: UInt64, oldPosition: UInt64)
    ensures var op := Op.LiveMediaUpdate(media, newPosition, oldPosition);
            && Calls(k, s, op) == [Call.LiveMediaUpdate(media, newPosition, oldPosition)]
            && After(k, s, op) == s.(av := s.av.(suppressing := false, media := Some(media)))
  {}

  lemma EssLabelsMake(k: Setup, s: State, millis: UInt64, success: bool)
    ensures Calls(k, s, Op.LiveTimestampUpdate(millis)) ==
            [Call.AddLabels(Sanitise(k.cleanser, map[k.keys.mediaTimestamp := Decimal(millis as int)]))]
    ensures Calls(k, s, Op.SetEssSuccess(success)) ==
            [Call.AddLabels(Sanitise(k.cleanser, map[k.keys.essSuccess := if success then "true" else "false"]))]
  {
    hide Sanitise, Decimal;
  }

  // ---- plain events and settings -----------------------------------------------------------------

  /** Views, errors and flushing are heard exactly while Echo is on. */
  lemma PlainEventsMake(k: Setup, s: State, text: string, labels: Option<Dict>)
    ensures Calls(k, s, Op.ViewEvent(text, labels)) ==
            if s.echoEnabled
            then [Call.ViewEvent(k.cleanser.cleanCounter(text), SanitiseOptional(k.cleanser, labels))] else []
    ensures Calls(k, s, Op.ErrorEvent(text, labels)) ==
            if s.echoEnabled then [Call.ErrorEvent(text, SanitiseOptional(k.cleanser, labels))] else []
    ensures Calls(k, s, Op.FlushCache) == if s.echoEnabled then [Call.FlushCache] else []
  {
    hide Sanitise, SanitiseOptional;
  }

  /** Settings are heard even while Echo is off; the cache mode only while nothing plays. */
  lemma SettingsMake(k: Setup, s: State, text: string, mode: CacheMode, added: Dict, removed: seq<string>)
    ensures Calls(k, s, Op.SetCounterName(text)) == [Call.SetCounterName(k.cleanser.cleanCounter(text))]
    ensures Calls(k, s, Op.Setting(text)) == [Call.Setting(text)]
    ensures Calls(k, s, Op.ClearCache) == [Call.ClearCache]
    ensures Calls(k, s, Op.AddLabels(added)) == [Call.AddLabels(Sanitise(k.cleanser, added))]
    ensures var keys := CleanKeys(k.cleanser, removed);
            Calls(k, s, Op.RemoveLabels(removed)) == if keys == [] then [] else [Call.RemoveLabels(keys)]
    ensures Calls(k, s, Op.SetCacheMode(mode)) == if s.av.active then [] else [Call.SetCacheMode(mode)]
    ensures After(k, s, Op.SetCacheMode(mode)) == if s.av.active then s else s.(cacheMode := mode)
    ensures Calls(k, s, GetComScoreDeviceID) == [Call.ClearMedia] && After(k, s, GetComScoreDeviceID) == s
  {
    hide Sanitise, CleanKeys;
  }

  // ---- users ---------------------------------------------------------------------------------------

  /** The user actions among some calls. */
  function Actions(calls: seq<Call>): seq<Call> {
    if calls == [] then [] else
      var last := calls[|calls| - 1];
      Actions(calls[..|calls| - 1]) + if last.UserAction? then [last] else []
  }

  lemma {:induction false} ActionsConcat(a: seq<Call>, b: seq<Call>)
    ensures Actions(a + b) == Actions(a) + Actions(b)
  {
    if b == [] {
      assert a + b == a;
    } else {
      ActionsConcat(a, b[..|b| - 1]);
      assert (a + b)[..|a + b| - 1] == a + b[..|b| - 1];
    }
  }

  lemma {:induction false} NoActions(calls: seq<Call>)
    requires forall c :: c in calls ==> !c.UserAction?
    ensures Actions(calls) == []
  {
    if calls != [] { NoActions(calls[..|calls| - 1]); }
  }

  lemma OneAction(c: Call)
    requires c.UserAction?
    ensures Actions([c]) == [c]
  {
    assert [c][..0] == [];
    NoActions([]);
  }

  lemma OnlyAction(before: seq<Call>, c: Call, rest: seq<Call>)
    requires c.UserAction? && forall d :: d in before + rest ==> !d.UserAction?
    ensures Actions(before + [c] + rest) == [c]
  {
    NoActions(before);
    NoActions(rest);
    OneAction(c);
    ActionsConcat(before, [c]);
    ActionsConcat(before + [c], rest);
  }

  /** The report of a change of user, case by case. */
  lemma ReportSays(k: Setup, e: UserEnv, waiting: bool)
    ensures var aboutUser := e.reason.None?
              || (!e.reason.value.FirstInstall? && !e.reason.value.EchoUpgrade? && !e.transition.NoTransition?);
            var reset := waiting || (e.reason.Some? && !e.reason.value.FirstInstall?);
            UserReportCall(k, e, waiting) ==
            Call.UserAction(
              UserReport(waiting),
              if aboutUser then "user_state_change" else "echo_device_id",
              if aboutUser then OfTransition(e.transition) else OfReason(e.reason.value),
              Some((if reset then map["device_id_reset" := "1"] else map[])[k.keys.isBackground := "true"]))
  {}

  /** What is told of a user taken while events are on, first to last. With the reset of data
      switched on and a reset because the user changed, the report is postponed. */
  lemma SetBBCUserMakes(k: Setup, s: State, user: User, e: UserEnv)
    requires s.echoEnabled && s.hasStarted && k.idv5Enabled
    ensures var waiting := s.users.postponed.Some?;
            var aboutUser := e.reason.None?
              || (!e.reason.value.FirstInstall? && !e.reason.value.EchoUpgrade? && !e.transition.NoTransition?);
            var reset := waiting || (e.reason.Some? && !e.reason.value.FirstInstall?);
            var report := Call.UserAction(
              UserReport(waiting),
              if aboutUser then "user_state_change" else "echo_device_id",
              if aboutUser then OfTransition(e.transition) else OfReason(e.reason.value),
              Some((if reset then map["device_id_reset" := "1"] else map[])[k.keys.isBackground := "true"]));
            Calls(k, s, Op.SetBBCUser(user, e)) ==
            [Call.StoreUser(user)]
            + (if e.deviceId.Some? then [Call.UpdateDeviceID(e.deviceId.value)] else [])
            + (if k.resetOnUserStateChange && e.token.Valid? && e.reason.Some? then [Call.ClearCache] else [])
            + (if k.resetOnUserStateChange && e.reason == Some(UserStateChanged)
               then [Call.UserStateChange, Call.StoreTransition(e.transition)]
               else [Call.UpdateBBCUserLabels(user)]
                    + (if e.transition.NoTransition? && e.reason.None? then [] else
                         [report] + if waiting then [Call.ClearTransition] else []))
  {
    ReportSays(k, e, s.users.postponed.Some?);
    hide UserReportCall;
  }

  /** What is told of a user before the report. */
  function BeforeReport(k: Setup, user: User, e: UserEnv): seq<Call> {
    [Call.StoreUser(user)]
    + (if e.deviceId.Some? then [Call.UpdateDeviceID(e.deviceId.value)] else [])
    + (if k.resetOnUserStateChange && e.token.Valid? && e.reason.Some? then [Call.ClearCache] else [])
    + [Call.UpdateBBCUserLabels(user)]
  }

  lemma NoReportBefore(k: Setup, user: User, e: UserEnv)
    ensures forall c :: c in BeforeReport(k, user, e) ==> !c.UserAction?
  {}

  lemma SetBBCUserReports(k: Setup, s: State, user: User, e: UserEnv)
    requires s.echoEnabled && s.hasStarted && k.idv5Enabled
    requires !(k.resetOnUserStateChange && e.reason == Some(UserStateChanged))
    requires e.transition != NoTransition || e.reason.Some?
    ensures var report := UserReportCall(k, e, s.users.postponed.Some?);
            Calls(k, s, Op.SetBBCUser(user, e)) ==
            BeforeReport(k, user, e) + [report] + if s.users.postponed.Some? then [Call.ClearTransition] else []
  {
    SetBBCUserMakes(k, s, user, e);
    ReportSays(k, e, s.users.postponed.Some?);
    hide Calls, UserReportCall;
  }

  /** A change of user is reported exactly when there is a transition or a reset of the device
      id, unless the reset path postpones it; then once, and as one of two kinds. */
  lemma UserIsReportedIff(k: Setup, s: State, user: User, e: UserEnv)
    requires s.echoEnabled && s.hasStarted && k.idv5Enabled
    ensures var reports := Actions(Calls(k, s, Op.SetBBCUser(user, e)));
            if (k.resetOnUserStateChange && e.reason == Some(UserStateChanged))
               || (e.transition.NoTransition? && e.reason.None?)
            then reports == []
            else
              && |reports| == 1 && reports[0].UserAction? && reports[0].origin == UserReport(s.users.postponed.Some?)
              && (if e.reason.None? || (!e.reason.value.FirstInstall? && !e.reason.value.EchoUpgrade? && !e.transition.NoTransition?)
                  then reports[0].actionType == "user_state_change" && reports[0].name == OfTransition(e.transition)
                  else reports[0].actionType == "echo_device_id" && reports[0].name == OfReason(e.reason.value))
              && reports[0].labels ==
                 Some((if s.users.postponed.Some? || (e.reason.Some? && !e.reason.value.FirstInstall?)
                       then map["device_id_reset" := "1"] else map[])[k.keys.isBackground := "true"])
  {
    hide Calls, Actions, BeforeReport, UserReportCall;
    SetBBCUserMakes(k, s, user, e);
    var calls := Calls(k, s, Op.SetBBCUser(user, e));
    if (k.resetOnUserStateChange && e.reason == Some(UserStateChanged)) || (e.transition.NoTransition? && e.reason.None?) {
      NoActions(calls);
    } else {
      var before := BeforeReport(k, user, e);
      var cleared := if s.users.postponed.Some? then [Call.ClearTransition] else [];
      SetBBCUserReports(k, s, user, e);
      ReportSays(k, e, s.users.postponed.Some?);
      NoReportBefore(k, user, e);
      OnlyAction(before, calls[|before|], cleared);
    }
  }

  /** What a user taken while events are on leaves, apart from the timer. */
  lemma SetBBCUserLeaves(k: Setup, s: State, user: User, e: UserEnv)
    requires s.echoEnabled && s.hasStarted && k.idv5Enabled
    ensures var u, t := s.users, After(k, s, Op.SetBBCUser(user, e));
            var former := if u.previous.Some? then u.previous.value else u.stored;
            && t == s.(users := t.users)
            && t.users.stored == user
            && (if k.resetOnUserStateChange && e.reason == Some(UserStateChanged) then
                  && t.users.previous == Some(former) && t.users.pending == u.pending
                  && t.users.postponed == Some(e.transition)
                else
                  && t.users.previous == Some(user) && t.users.pending == None
                  && t.users.postponed == if e.transition.NoTransition? && e.reason.None? then u.postponed else None)
  {}

  /** With events off the user waits; with the user feature off it is only remembered. */
  lemma SetBBCUserOtherwise(k: Setup, s: State, user: User, e: UserEnv)
    requires !(s.echoEnabled && s.hasStarted && k.idv5Enabled)
    ensures Calls(k, s, Op.SetBBCUser(user, e)) == []
    ensures After(k, s, Op.SetBBCUser(user, e)) ==
            s.(users := if s.echoEnabled && s.hasStarted then s.users.(previous := Some(user)) else s.users.(pending := Some(user)))
  {}

  /** Starting is heard, and then the waiting user is set as any other. */
  lemma StartDoes(k: Setup, s: State, e: UserEnv)
    ensures var op := Op.Start(e);
            if !s.echoEnabled || s.hasStarted then After(k, s, op) == s && Calls(k, s, op) == []
            else
              var started := s.(hasStarted := true);
              if s.users.pending.None? then After(k, s, op) == started && Calls(k, s, op) == [Call.Start]
              else
                var given := Op.SetBBCUser(s.users.pending.value, e);
                && After(k, s, op) == After(k, started, given)
                && Calls(k, s, op) == [Call.Start] + Calls(k, started, given)
  {
    hide ApplyUser, ApplyUserCalls;
  }

  /** Enabling is heard; then a client that had started sets the waiting user and forgets that it
      waited, and another starts if it starts by itself. */
  lemma EnableDoes(k: Setup, s: State, e: UserEnv)
    ensures var op := Op.Enable(e);
            var on := s.(echoEnabled := true);
            if s.echoEnabled then After(k, s, op) == s && Calls(k, s, op) == []
            else if !s.hasStarted && k.autoStart then
              After(k, s, op) == After(k, on, Op.Start(e)) && Calls(k, s, op) == [Call.Enable] + Calls(k, on, Op.Start(e))
            else if s.hasStarted && s.users.pending.Some? then
              var given := Op.SetBBCUser(s.users.pending.value, e);
              var t := After(k, on, given);
              && After(k, s, op) == t.(users := t.users.(pending := None))
              && Calls(k, s, op) == [Call.Enable] + Calls(k, on, given)
            else After(k, s, op) == on && Calls(k, s, op) == [Call.Enable]
  {
    hide ApplyUser, ApplyUserCalls;
  }
}
