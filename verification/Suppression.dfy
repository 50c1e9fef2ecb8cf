/** Plays held back while the schedule of live enriched media catches up. */
module Suppression {
  import opened EchoTypes
  import opened Labels
  import opened Positions
  import opened Machine
  import opened Folds

  // ---- the flag is exact history --------------------------------------------------------

  predicate NavigatesEnriched(s: State, op: Op) { op.Navigate? && s.echoEnabled && LiveEnriched(s.av) }

  /** Ends a suppression: new live data, or a release that a broker is there for. */
  predicate Lifts(s: State, op: Op) {
    op.LiveMediaUpdate? || (op.ReleaseSuppressedPlay? && s.echoEnabled && s.av.broker.Some?)
  }

  predicate NavigatesAt(k: Setup, s: State, ops: seq<Op>, i: int)
    requires 0 <= i < |ops|
  {
    NavigatesEnriched(Run(k, s, ops[..i]), ops[i])
  }

  predicate LiftsAt(k: Setup, s: State, ops: seq<Op>, i: int)
    requires 0 <= i < |ops|
  {
    Lifts(Run(k, s, ops[..i]), ops[i])
  }

  /** Some navigation on live enriched media happened, and nothing lifted it since. */
  predicate Unlifted(k: Setup, s: State, ops: seq<Op>) {
    exists i :: 0 <= i < |ops| && NavigatesAt(k, s, ops, i) && forall j :: i < j < |ops| ==> !LiftsAt(k, s, ops, j)
  }

  lemma {:induction false} StepSetsFlag(k: Setup, s: State, op: Op)
    ensures After(k, s, op).av.suppressing <==>
            NavigatesEnriched(s, op) || (s.av.suppressing && !Lifts(s, op))
  {
    hide SetUser, SetPending, Fired, SanitiseOptional, Exceeds;
  }

  lemma SameMoments(k: Setup, s: State, ops: seq<Op>, n: nat, i: nat)
    requires i < n <= |ops|
    ensures NavigatesAt(k, s, ops[..n], i) == NavigatesAt(k, s, ops, i)
    ensures LiftsAt(k, s, ops[..n], i) == LiftsAt(k, s, ops, i)
  {
    hide Run, NavigatesEnriched, Lifts;
    assert ops[..n][..i] == ops[..i];
  }

  lemma UnliftedGrows(k: Setup, s: State, ops: seq<Op>)
    requires ops != []
    ensures var n := |ops| - 1;
            Unlifted(k, s, ops) <==>
            NavigatesAt(k, s, ops, n) || (Unlifted(k, s, ops[..n]) && !LiftsAt(k, s, ops, n))
  {
    hide NavigatesAt, LiftsAt;
    var n := |ops| - 1;
    var front := ops[..n];
    forall i | 0 <= i < n
      ensures NavigatesAt(k, s, front, i) == NavigatesAt(k, s, ops, i)
      ensures LiftsAt(k, s, front, i) == LiftsAt(k, s, ops, i)
    {
      SameMoments(k, s, ops, n, i);
    }
    if Unlifted(k, s, front) && !LiftsAt(k, s, ops, n) {
      var i :| 0 <= i < n && NavigatesAt(k, s, front, i) && forall j :: i < j < n ==> !LiftsAt(k, s, front, j);
      assert NavigatesAt(k, s, ops, i);
    }
    if Unlifted(k, s, ops) && !NavigatesAt(k, s, ops, n) {
      var i :| 0 <= i < |ops| && NavigatesAt(k, s, ops, i) && forall j :: i < j < |ops| ==> !LiftsAt(k, s, ops, j);
      assert NavigatesAt(k, s, front, i);
      assert forall j :: i < j < n ==> LiftsAt(k, s, front, j) == LiftsAt(k, s, ops, j);
    }
  }

  /** The flag is the history of the run, neither more nor less. */
  lemma {:induction false} FlagIsHistory(k: Setup, s: State, ops: seq<Op>)
    requires !s.av.suppressing
    ensures Run(k, s, ops).av.suppressing <==> Unlifted(k, s, ops)
  {
    if ops != [] {
      var n := |ops| - 1;
      FlagIsHistory(k, s, ops[..n]);
      UnliftedGrows(k, s, ops);
      StepSetsFlag(k, Run(k, s, ops[..n]), ops[n]);
      hide Unlifted, NavigatesEnriched, Lifts, After;
    }
  }

  /** Hence a play of live enriched media is delivered, exactly once, if and only
      if no navigation is left unlifted. */
  lemma PlayDeliveredIff(k: Setup, s: State, ops: seq<Op>, position: UInt64, labels: Option<Dict>)
    requires !s.av.suppressing
    requires Run(k, s, ops).echoEnabled && LiveEnriched(Run(k, s, ops).av)
    ensures var t := Run(k, s, ops);
            PlayCalls(k, t, position, labels) ==
            if Unlifted(k, s, ops) then [] else [PlayCall(k, t.av, position, labels)]
  {
    FlagIsHistory(k, s, ops);
    hide Unlifted, Run, PlayCall;
  }

  // ---- one release, one play --------------------------------------------------------------

  /** The session goes on: the media is neither replaced, ended nor updated, and
      nothing is released. Plays, other navigations and anything else may happen. */
  predicate SameSession(s: State, op: Op) {
    && !op.SetMedia? && !op.LiveMediaUpdate? && !op.ReleaseSuppressedPlay? && !op.Disable?
    && !(op.Navigate? && op.kind.End?)
  }

  /** Suppressing, with everything in place to release. */
  predicate Waiting(s: State) { s.echoEnabled && LiveEnriched(s.av) && s.av.broker.Some? && s.av.suppressing }

  /** The labels of the last play asked for, if any. */
  function LastPlay(ops: seq<Op>): Option<Option<Dict>> {
    if ops == [] then None
    else if ops[|ops| - 1].Play? then Some(ops[|ops| - 1].labels)
    else LastPlay(ops[..|ops| - 1])
  }

  /** What is kept for the release, given what was kept before. */
  function Kept(k: Setup, before: Option<Dict>, last: Option<Option<Dict>>): Option<Dict> {
    if last.Some? then SanitiseOptional(k.cleanser, last.value) else before
  }

  lemma {:induction false} StepWaits(k: Setup, s: State, op: Op)
    requires Waiting(s) && SameSession(s, op)
    ensures Waiting(After(k, s, op))
    ensures After(k, s, op).av.suppressedLabels ==
            if op.Play? then SanitiseOptional(k.cleanser, op.labels) else s.av.suppressedLabels
  {
    hide SetUser, SetPending, Fired, Exceeds, Sanitise;
  }

  lemma {:induction false} StepDeliversNoPlay(k: Setup, s: State, op: Op, c: Call)
    requires Waiting(s) && SameSession(s, op) && c in Calls(k, s, op)
    ensures !c.AvPlay?
  {
    hide SanitiseOptional, Sanitise, Decimal, SetUserCalls, PendingCalls;
    match op
    case SetBBCUser(user, env) => SetUserOnlyAboutUser(k, EventsOn(s), s.users, user, env);
    case Start(env) => PendingOnlyAboutUser(k, s.users, env);
    case _ =>
  }

  lemma {:induction false} WindowWaits(k: Setup, s: State, ops: seq<Op>)
    requires Waiting(s) && Along(k, s, ops, SameSession)
    ensures Waiting(Run(k, s, ops))
    ensures Run(k, s, ops).av.suppressedLabels == Kept(k, s.av.suppressedLabels, LastPlay(ops))
    ensures forall c :: c in Log(k, s, ops) ==> !c.AvPlay?
  {
    hide After, Calls, Waiting, SameSession, SanitiseOptional;
    if ops != [] {
      var n := |ops| - 1;
      AlongFront(k, s, ops, SameSession);
      WindowWaits(k, s, ops[..n]);
      var t := Run(k, s, ops[..n]);
      assert SameSession(t, ops[n]);
      StepWaits(k, t, ops[n]);
      forall c | c in Calls(k, t, ops[n]) ensures !c.AvPlay? { StepDeliversNoPlay(k, t, ops[n], c); }
    }
  }

  lemma {:induction false} ReleasePlays(k: Setup, t: State)
    requires Waiting(t)
    ensures ReleaseCalls(k, t) ==
            [Call.AvPlay(t.av.broker.value.position, SanitiseOptional(k.cleanser, t.av.suppressedLabels))]
    ensures ReleaseCalls(k, AfterRelease(k, t)) == []
  {
    hide SanitiseOptional;
  }

  /** Suppression coalesces. After a navigation on live enriched media, take any mix
      of operations within the session. Releasing then delivers exactly one play, at
      the position the broker has by then. It carries what a direct delivery of the
      last play asked for would have carried; only if none was asked for does it
      carry labels left over from an earlier suppression. Releasing again at once
      delivers nothing, and nothing was played before the release. */
  lemma SuppressionCoalesces(k: Setup, s: State, kind: Navigation, position: UInt64, labels: Option<Dict>, ops: seq<Op>)
    requires Idempotent(k.cleanser)
    requires s.echoEnabled && LiveEnriched(s.av) && s.av.broker.Some? && !kind.End?
    requires Along(k, After(k, s, Navigate(kind, position, labels)), ops, SameSession)
    ensures var navigated := After(k, s, Navigate(kind, position, labels));
            var t := Run(k, navigated, ops);
            var carried := if LastPlay(ops).Some? then LastPlay(ops).value else s.av.suppressedLabels;
            && (forall c :: c in Log(k, navigated, ops) ==> !c.AvPlay?)
            && t.av.broker.Some?
            && Calls(k, t, ReleaseSuppressedPlay) ==
               [Call.AvPlay(t.av.broker.value.position, SanitiseOptional(k.cleanser, carried))]
            && Calls(k, After(k, t, ReleaseSuppressedPlay), ReleaseSuppressedPlay) == []
  {
    hide Run, Log, AfterRelease, ReleaseCalls, SanitiseOptional, LastPlay, Along, SameSession, PlayMedia;
    var navigated := After(k, s, Navigate(kind, position, labels));
    var t := Run(k, navigated, ops);
    NavigationWaits(k, s, kind, position, labels);
    WindowWaits(k, navigated, ops);
    ReleasePlays(k, t);
    if LastPlay(ops).Some? { SanitiseOptionalTwice(k.cleanser, LastPlay(ops).value); }
  }

  lemma NavigationWaits(k: Setup, s: State, kind: Navigation, position: UInt64, labels: Option<Dict>)
    requires s.echoEnabled && LiveEnriched(s.av) && s.av.broker.Some? && !kind.End?
    ensures var t := After(k, s, Navigate(kind, position, labels));
            Waiting(t) && t.av.suppressedLabels == s.av.suppressedLabels
  {}

  // ---- what becomes of a held play -------------------------------------------------------

  /** A play that is kept for the release instead of being delivered. */
  predicate IsHeld(s: State, op: Op) { op.Play? && PlayAccepted(s, op.position) && Holds(s.av) }

  predicate HeldAt(k: Setup, s: State, ops: seq<Op>, i: int)
    requires 0 <= i < |ops|
  {
    IsHeld(Run(k, s, ops[..i]), ops[i])
  }

  /** The last play held in the run is that of moment `i`; -1 stands for none. */
  predicate LastHeldAt(k: Setup, s: State, ops: seq<Op>, i: int)
    requires -1 <= i < |ops|
  {
    (i >= 0 ==> HeldAt(k, s, ops, i)) && forall j :: i < j < |ops| ==> !HeldAt(k, s, ops, j)
  }

  lemma {:induction false} StepHolds(k: Setup, s: State, op: Op)
    ensures After(k, s, op).av.suppressedLabels ==
            if IsHeld(s, op) then SanitiseOptional(k.cleanser, op.labels) else s.av.suppressedLabels
  {
    if Playback(op) { PlaybackHolds(k, s, op); } else { RestHoldsNothing(k, s, op); }
    hide After;
  }

  lemma PlaybackHolds(k: Setup, s: State, op: Op)
    requires Playback(op)
    ensures After(k, s, op).av.suppressedLabels ==
            if IsHeld(s, op) then SanitiseOptional(k.cleanser, op.labels) else s.av.suppressedLabels
  {
    if op.Navigate? { NavigationKeepsLabels(s.av, op.kind); }
    hide SetUser, SetPending, Fired, SanitiseOptional, PlayRefused, OpenMedia, CloseMedia, Mark, Navigated;
  }

  lemma NavigationKeepsLabels(a: Av, kind: Navigation)
    ensures Mark(kind, Navigated(a)).suppressedLabels == a.suppressedLabels
  {}

  lemma RestHoldsNothing(k: Setup, s: State, op: Op)
    requires !Playback(op)
    ensures After(k, s, op).av.suppressedLabels == s.av.suppressedLabels
  {
    if op.SetMedia? { MediaKeepsLabels(k, s.av, op.media, op.brokerMade); }
    if op.Disable? { MediaKeepsLabels(k, s.av, MediaInfo(Live, 0, false, false, false, ""), false); }
    hide SetUser, SetPending, Fired, PlayMedia, Mark, Navigated, SanitiseOptional, OpenMedia, CloseMedia;
  }

  lemma MediaKeepsLabels(k: Setup, a: Av, media: MediaInfo, made: bool)
    ensures OpenMedia(k, a, media, made).suppressedLabels == CloseMedia(a).suppressedLabels == a.suppressedLabels
  {}

  lemma SameHeld(k: Setup, s: State, ops: seq<Op>, n: nat, i: nat)
    requires i < n <= |ops|
    ensures HeldAt(k, s, ops[..n], i) == HeldAt(k, s, ops, i)
  {
    hide Run, IsHeld;
    assert ops[..n][..i] == ops[..i];
  }

  lemma LastHeldBefore(k: Setup, s: State, ops: seq<Op>, i: int)
    requires -1 <= i < |ops| - 1 && LastHeldAt(k, s, ops, i)
    ensures LastHeldAt(k, s, ops[..|ops| - 1], i)
  {
    hide HeldAt;
    var n := |ops| - 1;
    var front := ops[..n];
    if i >= 0 { SameHeld(k, s, ops, n, i); }
    forall j | i < j < n ensures !HeldAt(k, s, front, j) { SameHeld(k, s, ops, n, j); }
  }

  /** The labels kept are history too: those of the last held play of the run, whatever
      has become of it, of its media and of its suppression in the meantime. */
  lemma {:induction false} HeldLabelsAreHistory(k: Setup, s: State, ops: seq<Op>, i: int)
    requires s.av.suppressedLabels.None?
    requires -1 <= i < |ops| && LastHeldAt(k, s, ops, i)
    ensures i >= 0 ==> ops[i].Play?
    ensures Run(k, s, ops).av.suppressedLabels ==
            if i >= 0 then SanitiseOptional(k.cleanser, ops[i].labels) else None
  {
    if ops != [] {
      var n := |ops| - 1;
      assert HeldAt(k, s, ops, n) <==> i == n;
      StepHolds(k, Run(k, s, ops[..n]), ops[n]);
      if i < n {
        LastHeldBefore(k, s, ops, i);
        HeldLabelsAreHistory(k, s, ops[..n], i);
      }
    }
    hide After, SanitiseOptional, Holds, PlayAccepted;
  }

  /** There is media that can be played where its broker stands. */
  predicate CanReplay(s: State) {
    && s.echoEnabled && s.av.broker.Some? && s.av.media.Some?
    && !PlayRefused(s.av, s.av.broker.value.position)
  }

  /** When a held play is delivered, exactly: a release delivers a play if, and only if,
      a navigation is left unlifted and there is something to play; and then it is the
      last play held in the run, be it from an earlier media or released before. Where
      none was ever held, a play without labels is delivered that nobody asked for. */
  lemma ReleaseDeliversIff(k: Setup, s: State, ops: seq<Op>, i: int)
    requires Idempotent(k.cleanser)
    requires !s.av.suppressing && s.av.suppressedLabels.None?
    requires -1 <= i < |ops| && LastHeldAt(k, s, ops, i)
    ensures i >= 0 ==> ops[i].Play?
    ensures var t := Run(k, s, ops);
            Calls(k, t, ReleaseSuppressedPlay) ==
            if Unlifted(k, s, ops) && CanReplay(t)
            then [Call.AvPlay(t.av.broker.value.position,
                              if i >= 0 then SanitiseOptional(k.cleanser, ops[i].labels) else None)]
            else []
  {
    hide Run, Unlifted, LastHeldAt, SanitiseOptional;
    var t := Run(k, s, ops);
    FlagIsHistory(k, s, ops);
    HeldLabelsAreHistory(k, s, ops, i);
    if i >= 0 { SanitiseOptionalTwice(k.cleanser, ops[i].labels); }
    SanitiseNone(k.cleanser);
    ReleaseReplays(k, t);
    hide PlayRefused;
  }

  lemma SanitiseNone(c: Cleanser)
    ensures SanitiseOptional(c, None) == None
  {}

  lemma ReleaseReplays(k: Setup, t: State)
    ensures Calls(k, t, ReleaseSuppressedPlay) ==
            if t.av.suppressing && CanReplay(t)
            then [Call.AvPlay(t.av.broker.value.position, SanitiseOptional(k.cleanser, t.av.suppressedLabels))]
            else []
  {
    hide SanitiseOptional, Exceeds;
  }

  /** It happens: after nothing but a seek, the release makes up a play. */
  lemma PhantomPlayExample(k: Setup, s: State)
    requires IsFresh(s) && s.echoEnabled
    ensures var media := MediaInfo(Live, 0, false, false, true, "");
            var ops := [SetPlayerDelegate, Op.SetMedia(media, true), Navigate(Seek, 0, None)];
            Calls(k, Run(k, s, ops), ReleaseSuppressedPlay) == [Call.AvPlay(0, None)]
  {
    var media := MediaInfo(Live, 0, false, false, true, "");
    var a, b, c := SetPlayerDelegate, Op.SetMedia(media, true), Navigate(Seek, 0, None);
    RunThree(k, s, a, b, c);
    hide Run;
    ReleaseReplays(k, After(k, After(k, After(k, s, a), b), c));
  }

  // ---- a suppression outlives its media -----------------------------------------------------

  /** Setting media does not end a suppression: the first play of new media is held
      back if, and only if, the new media is live and enriched and an earlier
      navigation is still unlifted. */
  lemma SuppressionLeaks(k: Setup, s: State, media: MediaInfo, made: bool, position: UInt64, labels: Option<Dict>)
    requires s.echoEnabled
    ensures var t := After(k, s, Op.SetMedia(media, made));
            PlayAccepted(t, position) ==>
              (Calls(k, t, Play(position, labels)) == [] <==> media.IsLive() && media.isEnriched && s.av.suppressing)
  {
    hide Exceeds, SanitiseOptional;
  }

  /** A run in which this happens: a seek on one programme swallows the first play
      of the next. */
  lemma LeakExample(k: Setup, s: State)
    requires IsFresh(s) && s.echoEnabled
    ensures var media := MediaInfo(Live, 0, false, false, true, "");
            var ops := [Op.SetMedia(media, true), Navigate(Seek, 0, None), Op.SetMedia(media, true)];
            var t := Run(k, s, ops);
            Reports(t) && t.av.suppressing && Calls(k, t, Play(0, None)) == []
  {
    var media := MediaInfo(Live, 0, false, false, true, "");
    var a, b, c := Op.SetMedia(media, true), Navigate(Seek, 0, None), Op.SetMedia(media, true);
    RunThree(k, s, a, b, c);
    hide Run;
  }
}
