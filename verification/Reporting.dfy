/** At which position playback is reported. */
module Reporting {
  import opened EchoTypes
  import opened Labels
  import opened Positions
  import opened Machine
  import opened Folds

  function PositionOf(c: Call): Option<UInt64> {
    match c
    case AvPlay(position, _) => Some(position)
    case AvPause(position, _) => Some(position)
    case AvBuffer(position, _) => Some(position)
    case AvEnd(position, _) => Some(position)
    case AvRewind(position, _, _) => Some(position)
    case AvFastForward(position, _, _) => Some(position)
    case AvSeek(position, _) => Some(position)
    case AvUserAction(_, _, position, _) => Some(position)
    case _ => None
  }

  /** What is promised of a call made while `a` is the playback session. */
  predicate WellPositioned(a: Av, c: Call) {
    c.IsAvEvent() && a.media.Some? && a.broker.Some? ==>
      if a.media.value.IsLive() then PositionOf(c) == Some(a.broker.value.position)
      else if c.AvPlay? then Playable(a.media.value.length, c.position)
      else Reportable(a.media.value.length, PositionOf(c).value)
  }

  lemma NavigationPositioned(a: Av, kind: Navigation, position: UInt64, labels: Option<Dict>)
    ensures WellPositioned(a, NavigationCall(kind, ReportedPosition(a, position), labels))
  {
    if a.media.Some? { ClampLaws(a.media.value.length, position, position); }
    hide Clamp, Reportable;
  }

  lemma PlayPositioned(k: Setup, s: State, position: UInt64, labels: Option<Dict>)
    requires PlayAccepted(s, position)
    ensures WellPositioned(s.av, PlayCall(k, s.av, position, labels))
  {
    ExceedsMeaning(s.av.media.value.length, position);
  }

  predicate NoAvEvents(calls: seq<Call>) { forall c :: c in calls ==> !c.IsAvEvent() }

  lemma OpenMakesNoAvEvent(k: Setup, a: Av, media: MediaInfo, made: bool)
    ensures NoAvEvents(OpenCalls(k, a, media, made)) && NoAvEvents(CloseCalls(k) + [Call.Disable])
  {
    EssRemovalsOnlyRemove(k);
    hide EssRemovals;
  }

  lemma UsersMakeNoAvEvent(k: Setup, on: bool, u: Users, user: User, e: UserEnv)
    ensures NoAvEvents(SetUserCalls(k, on, u, user, e)) && NoAvEvents(PendingCalls(k, u, e))
  {
    SetUserOnlyAboutUser(k, on, u, user, e);
    PendingOnlyAboutUser(k, u, e);
    hide SetUserCalls, PendingCalls;
  }

  lemma {:induction false} CompoundMakesNoAvEvent(k: Setup, s: State, op: Op)
    requires Compound(op)
    ensures NoAvEvents(Calls(k, s, op))
  {
    hide OpenCalls, SetUserCalls, PendingCalls, CloseCalls;
    match op
    case SetMedia(media, made) => OpenMakesNoAvEvent(k, s.av, media, made);
    case Disable => OpenMakesNoAvEvent(k, s.av, MediaInfo(Live, 0, false, false, false, ""), false);
    case SetBBCUser(user, env) => UsersMakeNoAvEvent(k, EventsOn(s), s.users, user, env);
    case Start(env) => UsersMakeNoAvEvent(k, false, s.users, s.users.stored, env);
    case Enable(env) => UsersMakeNoAvEvent(k, false, s.users, s.users.stored, env);
    case _ =>
  }

  lemma {:induction false} PlaybackIsWellPositioned(k: Setup, s: State, op: Op, c: Call)
    requires Playback(op) && c in Calls(k, s, op)
    ensures WellPositioned(if op.ReleaseSuppressedPlay? then Released(s).av else s.av, c)
  {
    match op
    case Play(position, labels) => PlayPositioned(k, s, position, labels);
    case Navigate(kind, position, labels) =>
      NavigationPositioned(s.av, kind, position, SanitiseOptional(k.cleanser, labels));
    case ReleaseSuppressedPlay =>
      PlayPositioned(k, Released(s), s.av.broker.value.position, s.av.suppressedLabels);
  }

  lemma {:induction false} UserActionIsWellPositioned(a: Av, actionType: string, actionName: string,
                                                      position: UInt64, labels: Option<Dict>)
    ensures WellPositioned(a, Call.AvUserAction(actionType, actionName, ReportedPosition(a, position), labels))
  {
    if a.media.Some? { ClampLaws(a.media.value.length, position, position); }
    hide Clamp, Reportable;
  }

  lemma {:induction false} RestMakesNoAvEvent(k: Setup, s: State, op: Op)
    requires !Compound(op) && !Playback(op) && !op.AvUserAction? && !op.SendHeartbeat?
    ensures NoAvEvents(Calls(k, s, op))
  {
    hide Sanitise, SanitiseOptional, Decimal;
  }

  /** Whatever happens, in any state, while the client has a broker: live media is
      reported at the broker's position; an on-demand play has at least a second of
      known media before it; every other on-demand report is at the end or at least
      a second before it. The length is the one held when the call is made. */
  lemma {:induction false} EveryReportIsWellPositioned(k: Setup, s: State, op: Op, c: Call)
    requires c in Calls(k, s, op)
    ensures WellPositioned(s.av, c)
  {
    if Compound(op) {
      CompoundMakesNoAvEvent(k, s, op);
      hide Calls;
    } else if Playback(op) {
      PlaybackIsWellPositioned(k, s, op, c);
      hide Calls, Playable, Reportable, PositionOf;
    } else if op.AvUserAction? {
      UserActionIsWellPositioned(s.av, op.actionType, op.actionName, op.position, SanitiseOptional(k.cleanser, op.labels));
      hide WellPositioned;
    } else if op.SendHeartbeat? {
      UserActionIsWellPositioned(s.av, HEARTBEAT, op.name, op.position, None);
      hide WellPositioned;
    } else {
      RestMakesNoAvEvent(k, s, op);
      hide Calls;
    }
  }

  /** The clamp needs a broker: an on-demand navigation is reported at a position
      worth reporting if, and only if, there is a broker or the caller's was one. */
  lemma ReportableIff(k: Setup, s: State, kind: Navigation, position: UInt64, labels: Option<Dict>)
    requires Reports(s) && !s.av.media.value.IsLive()
    ensures var c := NavigateCalls(k, s, kind, position, labels)[0];
            Reportable(s.av.media.value.length, PositionOf(c).value)
            <==> s.av.broker.Some? || Reportable(s.av.media.value.length, position)
  {
    ClampLaws(s.av.media.value.length, position, position);
    hide Clamp, Reportable, SanitiseOptional;
  }

  /** An on-demand play with a broker is passed on if, and only if, a second of
      known media is left at the position asked for. */
  lemma OnDemandPlayPassedOnIff(k: Setup, s: State, position: UInt64, labels: Option<Dict>)
    requires Reports(s) && !s.av.media.value.IsLive() && s.av.broker.Some?
    ensures PlayCalls(k, s, position, labels) ==
            if Playable(s.av.media.value.length, position)
            then [Call.AvPlay(position, SanitiseOptional(k.cleanser, labels))] else []
  {
    ExceedsMeaning(s.av.media.value.length, position);
  }
}
