/** What each delegate sees of media sessions is a word of a two-state automaton,
    and the client's own media says which state the automaton is in. */
module Session {
  import opened EchoTypes
  import opened Labels
  import opened Machine
  import opened Folds

  datatype Phase = NoMedia | HasMedia | Rejected

  function Next(p: Phase, c: Call): Phase {
    if p == Rejected then Rejected
    else if c.ClearMedia? then NoMedia
    else if c.LiveMediaUpdate? then HasMedia
    else if c.SetMedia? then (if p == NoMedia then HasMedia else Rejected)
    else if c.AvEnd? then (if p == HasMedia then NoMedia else Rejected)
    else if c.IsAvEvent() || c.SetMediaLength? then (if p == HasMedia then p else Rejected)
    else p
  }

  function Read(log: seq<Call>): Phase { Fold(Next, NoMedia, log) }

  /** The automaton never rejected, and is in HasMedia exactly when the client holds a media. */
  predicate InStep(s: State, p: Phase) {
    p == if s.av.media.Some? then HasMedia else NoMedia
  }

  lemma Ignores(k: Setup, s: State, p: Phase, op: Op)
    ensures IgnoresHousekeeping(Next) && UsersQuiet(Next, k, s, p, op)
  {
    hide Watch, Calls, Fold;
  }

  lemma {:induction false} CompoundKeeps(k: Setup, s: State, p: Phase, op: Op)
    requires InStep(s, p) && Compound(op)
    ensures InStep(After(k, s, op), Watch(Next, k, s, p, op))
  {
    hide Watch, Calls, Fold, SetUser, SetPending, IgnoresHousekeeping, UsersQuiet;
    Ignores(k, s, p, op);
    WatchCompound(Next, k, s, p, op);
  }

  lemma {:induction false} PlaybackKeeps(k: Setup, s: State, p: Phase, op: Op)
    requires InStep(s, p) && Playback(op)
    ensures InStep(After(k, s, op), Watch(Next, k, s, p, op))
  {
    hide Watch, Fold, SanitiseOptional, ReportedPosition, PlayPosition;
    WatchSimple(Next, k, s, p, op);
  }

  lemma {:induction false} ReportingKeeps(k: Setup, s: State, p: Phase, op: Op)
    requires InStep(s, p) && Reporting(op)
    ensures InStep(After(k, s, op), Watch(Next, k, s, p, op))
  {
    hide Watch, Fold, SanitiseOptional, ReportedPosition;
    WatchSimple(Next, k, s, p, op);
  }

  lemma {:induction false} PlainKeeps(k: Setup, s: State, p: Phase, op: Op)
    requires InStep(s, p) && Plain(op)
    ensures InStep(After(k, s, op), Watch(Next, k, s, p, op))
  {
    hide Watch, Fold, Decimal, Sanitise, SanitiseOptional;
    WatchSimple(Next, k, s, p, op);
  }

  lemma {:induction false} OtherKeeps(k: Setup, s: State, p: Phase, op: Op)
    requires InStep(s, p) && Other(op) && QueriesBetweenMedia(s, op)
    ensures InStep(After(k, s, op), Watch(Next, k, s, p, op))
  {
    hide Watch, Fold, Fired;
    WatchSimple(Next, k, s, p, op);
  }

  /** The device id is asked for only when no media is set. */
  predicate QueriesBetweenMedia(s: State, op: Op) { op.GetComScoreDeviceID? ==> s.av.media.None? }

  lemma SessionSteps(k: Setup)
    ensures StepsKeep(Next, InStep, QueriesBetweenMedia, k)
  {
    hide InStep, Watch, After, Calls;
    forall t, p, op | InStep(t, p) && QueriesBetweenMedia(t, op)
      ensures InStep(After(k, t, op), Watch(Next, k, t, p, op))
    {
      if Compound(op) { CompoundKeeps(k, t, p, op); }
      else if Playback(op) { PlaybackKeeps(k, t, p, op); }
      else if Reporting(op) { ReportingKeeps(k, t, p, op); }
      else if Plain(op) { PlainKeeps(k, t, p, op); }
      else { OtherKeeps(k, t, p, op); }
    }
  }

  /** Session refinement: in every run that asks for the device id only between
      media, each delegate hears an accepted word, at every moment of the run, and
      the client holds a media exactly when the automaton says so. */
  lemma SessionRefinement(k: Setup, s: State, ops: seq<Op>)
    requires s.av.media.None? && Along(k, s, ops, QueriesBetweenMedia)
    ensures Read(Heard(Log(k, s, ops))) == if Run(k, s, ops).av.media.Some? then HasMedia else NoMedia
    ensures forall n :: 0 <= n <= |Heard(Log(k, s, ops))| ==> Read(Heard(Log(k, s, ops))[..n]) != Rejected
  {
    hide StepsKeep, Along;
    SessionSteps(k);
    assert IgnoresStore(Next);
    RunKeeps(Next, InStep, QueriesBetweenMedia, k, s, NoMedia, ops);
    FoldHeard(Next, NoMedia, Log(k, s, ops));
    var heard := Heard(Log(k, s, ops));
    forall n | 0 <= n <= |heard| ensures Read(heard[..n]) != Rejected {
      NotStuckBefore(Next, NoMedia, Rejected, heard, n);
    }
  }

  /** Asking for the device id clears the delegates' media but not the client's:
      the two stay in step if, and only if, there is no media at the time. With a
      media, the next navigation an enabled client passes on is rejected. */
  lemma DeviceIdQueryBreaksSession(
      k: Setup, s: State, p: Phase, kind: Navigation, position: UInt64, labels: Option<Dict>)
    requires InStep(s, p)
    ensures var q := Watch(Next, k, s, p, GetComScoreDeviceID);
            && (InStep(After(k, s, GetComScoreDeviceID), q) <==> s.av.media.None?)
            && (Reports(s) ==> Watch(Next, k, s, q, Navigate(kind, position, labels)) == Rejected)
  {
    var q := Watch(Next, k, s, p, GetComScoreDeviceID);
    FoldOne(Next, p, Call.ClearMedia);
    if Reports(s) {
      FoldOne(Next, q, NavigateCalls(k, s, kind, position, labels)[0]);
    }
  }

  /** It happens: seeking after the device id was asked for in the middle of a media. */
  lemma DeviceIdQueryExample(k: Setup, s: State, media: MediaInfo, made: bool)
    requires IsFresh(s) && s.echoEnabled
    ensures var ops := [Op.SetMedia(media, made), GetComScoreDeviceID, Navigate(Seek, 0, None)];
            Read(Heard(Log(k, s, ops))) == Rejected
  {
    hide Read, Heard, Fold, Watch, Log, OpenMedia;
    var a, b, c := Op.SetMedia(media, made), GetComScoreDeviceID, Navigate(Seek, 0, None);
    var t := After(k, s, a);
    WatchThree(Next, k, s, NoMedia, a, b, c);
    CompoundKeeps(k, s, NoMedia, a);
    OpensMedia(k, s, media, made);
    DeviceIdQueryBreaksSession(k, t, HasMedia, Seek, 0, None);
    assert IgnoresStore(Next);
    FoldHeard(Next, NoMedia, Log(k, s, [a, b, c]));
    ReadIsFold(Heard(Log(k, s, [a, b, c])));
  }

  lemma OpensMedia(k: Setup, s: State, media: MediaInfo, made: bool)
    requires s.echoEnabled
    ensures Reports(After(k, s, Op.SetMedia(media, made)))
  {}

  lemma ReadIsFold(log: seq<Call>)
    ensures Read(log) == Fold(Next, NoMedia, log)
  {}

  // ---- the length the delegates were told -----------------------------------------

  function Told(told: Option<UInt64>, c: Call): Option<UInt64> {
    match c
    case SetMedia(m) => Some(m.length)
    case LiveMediaUpdate(m, _, _) => Some(m.length)
    case SetMediaLength(length) => Some(length)
    case _ => told
  }

  /** A length of zero is kept by the client but not passed on: delegates that knew
      the length still do if, and only if, the new one is positive or the old one was zero. */
  lemma ZeroLengthIsNotForwarded(k: Setup, s: State, length: UInt64)
    requires TakesLength(s.av)
    ensures var op := Op.SetMediaLength(length);
            var told := Some(s.av.media.value.length);
            After(k, s, op).av.media.value.length == length
            && (Watch(Told, k, s, told, op) == Some(length) <==> length > 0 || s.av.media.value.length == 0)
  {
    FoldOne(Told, Some(s.av.media.value.length), Call.SetMediaLength(length));
  }
}
