/** What a delegate may rely on across a whole run: nothing is reported while Echo
    is off, it starts once, user updates come after the start, a user action has a
    counter name, and the cache mode stays fixed while something plays. */
module Discipline {
  import opened EchoTypes
  import opened Labels
  import opened Machine
  import opened Folds

  /** What a delegate can tell from the calls it has heard. */
  datatype Seen =
    | Seen(enabled: bool, started: bool, named: bool, active: bool, mode: CacheMode)
    | Violated

  predicate NeedsStart(c: Call) {
    c.UpdateDeviceID? || c.UserStateChange? || c.UpdateBBCUserLabels? || (c.UserAction? && c.origin.UserReport?)
  }

  predicate Allowed(v: Seen, c: Call)
    requires v.Seen?
  {
    && (c.IsEvent() ==> v.enabled)
    && (c.UserAction? && c.origin.Caller? ==> v.named)
    && (NeedsStart(c) ==> v.started)
    && (c.Enable? ==> !v.enabled)
    && (c.Disable? ==> v.enabled)
    && (c.Start? ==> v.enabled && !v.started)
    && (c.SetCacheMode? ==> !v.active)
  }

  function Next(v: Seen, c: Call): Seen {
    if v.Violated? || !Allowed(v, c) then Violated else
      match c
      case Enable => v.(enabled := true)
      case Disable => v.(enabled := false)
      case Start => v.(started := true)
      case ViewEvent(_, _) => v.(named := true)
      case SetCounterName(_) => v.(named := true)
      case AvPlay(_, _) => v.(active := true)
      case AvEnd(_, _) => v.(active := false)
      case SetCacheMode(mode) => v.(mode := mode)
      case _ => v
  }

  /** The client's flags are exactly what its delegates have seen. */
  predicate Agree(s: State, v: Seen) {
    v == Seen(s.echoEnabled, s.hasStarted, s.counterNameSet, s.av.active, s.cacheMode)
  }

  lemma IgnoresLabels()
    ensures IgnoresHousekeeping(Next) && IgnoresStore(Next)
  {}

  lemma IgnoresUsers(k: Setup, s: State, v: Seen, op: Op)
    requires Agree(s, v)
    ensures UsersQuiet(Next, k, s, v, op)
  {}

  lemma MediaKeepsActive(k: Setup, a: Av, media: MediaInfo, made: bool)
    ensures OpenMedia(k, a, media, made).active == CloseMedia(a).active == a.active
  {}

  lemma {:induction false} CompoundKeeps(k: Setup, s: State, v: Seen, op: Op)
    requires Agree(s, v) && Compound(op)
    ensures Agree(After(k, s, op), Watch(Next, k, s, v, op))
  {
    hide Watch, Calls, Fold, SetUser, SetPending, IgnoresHousekeeping, UsersQuiet, OpenMedia, CloseMedia;
    MediaKeepsActive(k, s.av, if op.SetMedia? then op.media else MediaInfo(Live, 0, false, false, false, ""),
                     op.SetMedia? && op.brokerMade);
    IgnoresLabels();
    IgnoresUsers(k, s, v, op);
    WatchCompound(Next, k, s, v, op);
  }

  /** A token timer runs only once a user was set, so only after the start. */
  predicate TimersAfterStart(s: State) {
    (s.users.timer.Some? || s.users.oldTimers != []) ==> s.hasStarted
  }

  lemma NavigationSeen(v: Seen, a: Av, kind: Navigation, at: UInt64, labels: Option<Dict>)
    requires v.Seen? && v.enabled && a.media.Some?
    ensures Next(v, NavigationCall(kind, at, labels)) == if kind.End? then v.(active := false) else v
    ensures Mark(kind, Navigated(a)).active == (a.active && !kind.End?)
  {}

  lemma {:induction false} PlaybackKeeps(k: Setup, s: State, v: Seen, op: Op)
    requires Agree(s, v) && Playback(op)
    ensures Agree(After(k, s, op), Watch(Next, k, s, v, op))
  {
    if op.Navigate? && Reports(s) {
      NavigationSeen(v, s.av, op.kind, ReportedPosition(s.av, op.position), SanitiseOptional(k.cleanser, op.labels));
    }
    hide NavigationCall, Mark, Navigated;
    hide Watch, Fold, SanitiseOptional, ReportedPosition, PlayPosition;
    WatchSimple(Next, k, s, v, op);
  }

  lemma {:induction false} ReportingKeeps(k: Setup, s: State, v: Seen, op: Op)
    requires Agree(s, v) && Reporting(op)
    ensures Agree(After(k, s, op), Watch(Next, k, s, v, op))
  {
    hide Watch, Fold, SanitiseOptional, ReportedPosition;
    WatchSimple(Next, k, s, v, op);
  }

  lemma {:induction false} PlainKeeps(k: Setup, s: State, v: Seen, op: Op)
    requires Agree(s, v) && Plain(op)
    ensures Agree(After(k, s, op), Watch(Next, k, s, v, op))
  {
    hide Watch, Fold, Decimal, Sanitise, SanitiseOptional;
    WatchSimple(Next, k, s, v, op);
  }

  lemma {:induction false} OtherKeeps(k: Setup, s: State, v: Seen, op: Op)
    requires Agree(s, v) && TimersAfterStart(s) && Other(op)
    ensures Agree(After(k, s, op), Watch(Next, k, s, v, op))
  {
    hide Watch, Fold;
    WatchSimple(Next, k, s, v, op);
  }

  lemma {:induction false} TimersStayAfterStart(k: Setup, s: State, op: Op)
    requires TimersAfterStart(s)
    ensures TimersAfterStart(After(k, s, op))
  {}

  predicate Kept(s: State, v: Seen) { Agree(s, v) && TimersAfterStart(s) }

  lemma DisciplineSteps(k: Setup)
    ensures StepsKeep(Next, Kept, Always, k)
  {
    hide Agree, TimersAfterStart, Watch, After, Calls;
    forall t, v, op | Kept(t, v) && Always(t, op) ensures Kept(After(k, t, op), Watch(Next, k, t, v, op)) {
      TimersStayAfterStart(k, t, op);
      if Compound(op) { CompoundKeeps(k, t, v, op); }
      else if Playback(op) { PlaybackKeeps(k, t, v, op); }
      else if Reporting(op) { ReportingKeeps(k, t, v, op); }
      else if Plain(op) { PlainKeeps(k, t, v, op); }
      else { OtherKeeps(k, t, v, op); }
    }
  }

  // ---- what an accepted log means ------------------------------------------------------

  function Switch(on: bool, c: Call): bool { if c.Enable? then true else if c.Disable? then false else on }

  /** The cache mode a delegate was last told. */
  function LastMode(mode: CacheMode, c: Call): CacheMode { if c.SetCacheMode? then c.mode else mode }

  predicate IsStart(c: Call) { c.Start? }

  predicate Names(c: Call) { c.ViewEvent? || c.SetCounterName? }

  predicate EventsOnlyWhileOn(on: bool, log: seq<Call>) {
    forall j :: 0 <= j < |log| && log[j].IsEvent() ==> Fold(Switch, on, log[..j])
  }

  predicate StartsOnce(log: seq<Call>) {
    forall i, j :: 0 <= i < j < |log| ==> !(log[i].Start? && log[j].Start?)
  }

  predicate UserUpdatesAfterStart(log: seq<Call>) {
    forall j :: 0 <= j < |log| && NeedsStart(log[j]) ==> exists i :: 0 <= i < j && log[i].Start?
  }

  predicate ActionsNamed(log: seq<Call>) {
    forall j :: 0 <= j < |log| && log[j].UserAction? && log[j].origin.Caller? ==>
      exists i :: 0 <= i < j && Names(log[i])
  }

  predicate CacheModeLocked(log: seq<Call>) {
    forall i, j :: 0 <= i < j < |log| && log[i].AvPlay? && log[j].SetCacheMode? ==>
      exists n :: i < n < j && log[n].AvEnd?
  }

  /** What the observer carries, said about the log itself. */
  predicate Summary(on: bool, mode: CacheMode, log: seq<Call>, v: Seen) {
    && v.Seen?
    && v.enabled == Fold(Switch, on, log)
    && (v.started <==> Contains(log, IsStart))
    && (v.named <==> Contains(log, Names))
    && (v.active <==> PlayOpen(log))
    && v.mode == Fold(LastMode, mode, log)
  }

  /** A play was delivered, and no end since. */
  predicate PlayOpen(log: seq<Call>) {
    exists i :: 0 <= i < |log| && log[i].AvPlay? && forall j :: i < j < |log| ==> !log[j].AvEnd?
  }

  lemma PlayOpenGrows(front: seq<Call>, c: Call)
    ensures PlayOpen(front + [c]) <==> c.AvPlay? || (PlayOpen(front) && !c.AvEnd?)
  {
    var log := front + [c];
    assert log[|front|] == c && forall i :: 0 <= i < |front| ==> log[i] == front[i];
    if PlayOpen(front) && !c.AvEnd? {
      var i :| 0 <= i < |front| && front[i].AvPlay? && forall j :: i < j < |front| ==> !front[j].AvEnd?;
      assert log[i].AvPlay?;
    }
  }

  predicate Contains(log: seq<Call>, p: Call -> bool) { exists i :: 0 <= i < |log| && p(log[i]) }

  lemma ContainsGrows(front: seq<Call>, c: Call, p: Call -> bool)
    ensures Contains(front + [c], p) <==> Contains(front, p) || p(c)
  {
    var log := front + [c];
    assert log[|front|] == c && forall i :: 0 <= i < |front| ==> log[i] == front[i];
  }

  predicate Disciplined(on: bool, log: seq<Call>) {
    EventsOnlyWhileOn(on, log) && StartsOnce(log) && UserUpdatesAfterStart(log) && ActionsNamed(log) && CacheModeLocked(log)
  }

  lemma SummaryGrows(on: bool, mode: CacheMode, front: seq<Call>, v: Seen, c: Call)
    requires Summary(on, mode, front, v) && Next(v, c).Seen?
    ensures Summary(on, mode, front + [c], Next(v, c))
  {
    FoldConcat(Switch, on, front, [c]);
    FoldOne(Switch, Fold(Switch, on, front), c);
    FoldConcat(LastMode, mode, front, [c]);
    FoldOne(LastMode, Fold(LastMode, mode, front), c);
    PlayOpenGrows(front, c);
    ContainsGrows(front, c, IsStart);
    ContainsGrows(front, c, Names);
    hide PlayOpen, Contains, Fold;
  }

  lemma DisciplineGrows(on: bool, mode: CacheMode, front: seq<Call>, v: Seen, c: Call)
    requires Summary(on, mode, front, v) && Disciplined(on, front) && Next(v, c).Seen?
    ensures Disciplined(on, front + [c])
  {
    var log := front + [c];
    assert forall i :: 0 <= i < |front| ==> log[i] == front[i];
    forall j | 0 <= j < |log| ensures log[..j] == front[..j] {}
  }

  lemma {:induction false} AcceptedMeans(on: bool, mode: CacheMode, log: seq<Call>)
    requires Fold(Next, Seen(on, false, false, false, mode), log).Seen?
    ensures Summary(on, mode, log, Fold(Next, Seen(on, false, false, false, mode), log))
    ensures Disciplined(on, log)
  {
    if log != [] {
      var front, c := log[..|log| - 1], log[|log| - 1];
      assert log == front + [c];
      AcceptedMeans(on, mode, front);
      var v := Fold(Next, Seen(on, false, false, false, mode), front);
      SummaryGrows(on, mode, front, v, c);
      DisciplineGrows(on, mode, front, v, c);
    }
  }

  lemma RunAgrees(k: Setup, s: State, ops: seq<Op>, v: Seen)
    requires Kept(s, v)
    ensures Kept(Run(k, s, ops), Fold(Next, v, Heard(Log(k, s, ops))))
  {
    hide StepsKeep, IgnoresHousekeeping, IgnoresStore;
    DisciplineSteps(k);
    IgnoresLabels();
    RunKeeps(Next, Kept, Always, k, s, v, ops);
    FoldHeard(Next, v, Log(k, s, ops));
  }

  /** Every run of a client, whatever is called in whatever order: each delegate's
      log is disciplined, and the client's flags are exact summaries of that log.
      In particular `active` says that a play was delivered and no end since. */
  lemma EveryRunIsDisciplined(k: Setup, s: State, ops: seq<Op>)
    requires IsFresh(s)
    ensures Disciplined(s.echoEnabled, Heard(Log(k, s, ops)))
    ensures var t := Run(k, s, ops);
            Summary(s.echoEnabled, s.cacheMode, Heard(Log(k, s, ops)),
                    Seen(t.echoEnabled, t.hasStarted, t.counterNameSet, t.av.active, t.cacheMode))
  {
    hide Summary, Disciplined, Run, Log, Heard, Fold, Next;
    RunAgrees(k, s, ops, Seen(s.echoEnabled, false, false, false, s.cacheMode));
    AcceptedMeans(s.echoEnabled, s.cacheMode, Heard(Log(k, s, ops)));
  }

  /** No delegate is told another mode between a play and the next end. */
  lemma {:induction false} ModeHeld(mode: CacheMode, log: seq<Call>, i: nat, j: nat)
    requires CacheModeLocked(log) && i < j <= |log|
    requires log[i].AvPlay? && forall n :: i < n < j ==> !log[n].AvEnd?
    ensures Fold(LastMode, mode, log[..j]) == Fold(LastMode, mode, log[..i])
  {
    assert log[..j][..j - 1] == log[..j - 1];
    if j > i + 1 {
      ModeHeld(mode, log, i, j - 1);
      assert !log[j - 1].SetCacheMode?;
    }
  }

  /** The cache-mode lock, over any run: from a delivered play until the next delivered
      end the client's mode is the one its delegates had been told before the play,
      whatever is called in between. */
  lemma CacheModeHeldWhilePlaying(k: Setup, s: State, ops: seq<Op>, i: nat)
    requires IsFresh(s)
    requires var heard := Heard(Log(k, s, ops));
             i < |heard| && heard[i].AvPlay? && forall n :: i < n < |heard| ==> !heard[n].AvEnd?
    ensures Run(k, s, ops).cacheMode == Fold(LastMode, s.cacheMode, Heard(Log(k, s, ops))[..i])
  {
    hide Run, Log, Heard, Fold, CacheModeLocked, EventsOnlyWhileOn, StartsOnce, UserUpdatesAfterStart, ActionsNamed;
    var heard := Heard(Log(k, s, ops));
    EveryRunIsDisciplined(k, s, ops);
    ModeHeld(s.cacheMode, heard, i, |heard|);
    assert heard[..|heard|] == heard;
  }

  // ---- starting by itself ----------------------------------------------------------------

  /** A client just constructed: it has started if it is enabled and starts by itself. */
  function Launched(k: Setup, s: State, e: UserEnv): State {
    if k.autoStart then AfterStart(k, s, e) else s
  }

  /** An enabled client that starts by itself has started, after every operation. */
  lemma AutoStarts(k: Setup, s: State, e: UserEnv, ops: seq<Op>)
    requires IsFresh(s) && k.autoStart
    ensures var t := Run(k, Launched(k, s, e), ops); t.echoEnabled ==> t.hasStarted
  {
    var inv := (t: State) => t.echoEnabled ==> t.hasStarted;
    forall t, op | inv(t) && Always(t, op) ensures inv(After(k, t, op)) {
      hide SetUser, SetPending, OpenMedia, CloseMedia, PlayMedia, Mark, Navigated, Fired, SetLength;
      assert inv(After(k, t, op));
    }
    StateRunKeeps(inv, Always, k, Launched(k, s, e), ops);
  }
}
