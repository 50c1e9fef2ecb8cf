/** Observers of a log: a state carried along the calls, one at a time. */
module Folds {
  import opened EchoTypes
  import opened Machine

  function Fold<M>(next: (M, Call) -> M, m: M, calls: seq<Call>): M {
    if calls == [] then m else next(Fold(next, m, calls[..|calls| - 1]), calls[|calls| - 1])
  }

  lemma {:induction false} FoldConcat<M>(next: (M, Call) -> M, m: M, a: seq<Call>, b: seq<Call>)
    ensures Fold(next, m, a + b) == Fold(next, Fold(next, m, a), b)
  {
    if b == [] {
      assert a + b == a;
    } else {
      FoldConcat(next, m, a, b[..|b| - 1]);
      assert (a + b)[..|a + b| - 1] == a + b[..|b| - 1];
    }
  }

  lemma {:induction false} FoldUnmoved<M>(next: (M, Call) -> M, m: M, calls: seq<Call>)
    requires forall c :: c in calls ==> next(m, c) == m
    ensures Fold(next, m, calls) == m
  {
    if calls != [] { FoldUnmoved(next, m, calls[..|calls| - 1]); }
  }

  lemma FoldOne<M>(next: (M, Call) -> M, m: M, c: Call)
    ensures Fold(next, m, [c]) == next(m, c)
  {
    assert [c][..0] == [];
  }

  /** A state that is never left was not yet reached before. */
  lemma {:induction false} NotStuckBefore<M>(next: (M, Call) -> M, m: M, sink: M, calls: seq<Call>, n: nat)
    requires forall c :: next(sink, c) == sink
    requires n <= |calls| && Fold(next, m, calls) != sink
    ensures Fold(next, m, calls[..n]) != sink
  {
    if n < |calls| {
      NotStuckBefore(next, m, sink, calls[..|calls| - 1], n);
      assert calls[..|calls| - 1][..n] == calls[..n];
    } else {
      assert calls[..n] == calls;
    }
  }

  /** What the delegates hear of a log: everything not meant for the user store. */
  function Heard(log: seq<Call>): seq<Call> {
    if log == [] then [] else
      var last := log[|log| - 1];
      Heard(log[..|log| - 1]) + (if last.ToStore() then [] else [last])
  }

  /** The rest of the log: what the user store was told. */
  function ToldStore(log: seq<Call>): seq<Call> {
    if log == [] then [] else
      var last := log[|log| - 1];
      ToldStore(log[..|log| - 1]) + (if last.ToStore() then [last] else [])
  }

  lemma HeardAppend(log: seq<Call>, c: Call)
    ensures Heard(log + [c]) == if c.ToStore() then Heard(log) else Heard(log) + [c]
    ensures ToldStore(log + [c]) == if c.ToStore() then ToldStore(log) + [c] else ToldStore(log)
  {
    assert (log + [c])[..|log|] == log;
  }

  ghost predicate IgnoresStore<M(!new)>(next: (M, Call) -> M) {
    forall m, c: Call :: c.ToStore() ==> next(m, c) == m
  }

  lemma {:induction false} FoldHeard<M(!new)>(next: (M, Call) -> M, m: M, log: seq<Call>)
    requires IgnoresStore(next)
    ensures Fold(next, m, Heard(log)) == Fold(next, m, log)
  {
    if log != [] {
      var front, last := log[..|log| - 1], log[|log| - 1];
      FoldHeard(next, m, front);
      if last.ToStore() {
        assert Heard(log) == Heard(front);
      } else {
        FoldConcat(next, m, Heard(front), [last]);
        FoldOne(next, Fold(next, m, Heard(front)), last);
      }
    }
  }

  /** One operation as an observer sees it. */
  function Watch<M>(next: (M, Call) -> M, k: Setup, s: State, m: M, op: Op): M {
    Fold(next, m, Calls(k, s, op))
  }

  /** Every operation of the run is taken in a state where `fine` allows it. */
  ghost predicate Along(k: Setup, s: State, ops: seq<Op>, fine: (State, Op) -> bool) {
    forall i :: 0 <= i < |ops| ==> fine(Run(k, s, ops[..i]), ops[i])
  }

  lemma AlongFront(k: Setup, s: State, ops: seq<Op>, fine: (State, Op) -> bool)
    requires Along(k, s, ops, fine) && ops != []
    ensures Along(k, s, ops[..|ops| - 1], fine)
    ensures fine(Run(k, s, ops[..|ops| - 1]), ops[|ops| - 1])
  {
    var front := ops[..|ops| - 1];
    forall i | 0 <= i < |front| ensures fine(Run(k, s, front[..i]), front[i]) {
      assert front[..i] == ops[..i];
    }
  }

  /** Every allowed step keeps the agreement between client and observer. */
  ghost predicate StepsKeep<M(!new)>(
      next: (M, Call) -> M, agree: (State, M) -> bool, fine: (State, Op) -> bool, k: Setup)
  {
    forall t, n, op :: agree(t, n) && fine(t, op) ==> agree(After(k, t, op), Watch(next, k, t, n, op))
  }

  /** What every allowed step keeps holds after every run. */
  lemma {:induction false} RunKeeps<M(!new)>(
      next: (M, Call) -> M, agree: (State, M) -> bool, fine: (State, Op) -> bool,
      k: Setup, s: State, m: M, ops: seq<Op>)
    requires agree(s, m) && Along(k, s, ops, fine)
    requires StepsKeep(next, agree, fine, k)
    ensures agree(Run(k, s, ops), Fold(next, m, Log(k, s, ops)))
  {
    if ops != [] {
      var front, op := ops[..|ops| - 1], ops[|ops| - 1];
      AlongFront(k, s, ops, fine);
      RunKeeps(next, agree, fine, k, s, m, front);
      FoldConcat(next, m, Log(k, s, front), Calls(k, Run(k, s, front), op));
      assert agree(After(k, Run(k, s, front), op), Watch(next, k, Run(k, s, front), Fold(next, m, Log(k, s, front)), op));
    }
  }

  /** The same for a property of the client alone. */
  lemma {:induction false} StateRunKeeps(
      inv: State -> bool, fine: (State, Op) -> bool, k: Setup, s: State, ops: seq<Op>)
    requires inv(s) && Along(k, s, ops, fine)
    requires forall t, op :: inv(t) && fine(t, op) ==> inv(After(k, t, op))
    ensures inv(Run(k, s, ops))
  {
    if ops != [] {
      AlongFront(k, s, ops, fine);
      StateRunKeeps(inv, fine, k, s, ops[..|ops| - 1]);
    }
  }

  predicate Always(s: State, op: Op) { true }

  lemma RunThree(k: Setup, s: State, a: Op, b: Op, c: Op)
    ensures Run(k, s, [a, b, c]) == After(k, After(k, After(k, s, a), b), c)
  {
    hide After;
    assert [a, b, c][..2] == [a, b] && [a, b][..1] == [a] && [a][..0] == [];
    assert Run(k, s, [a]) == After(k, s, a);
    assert Run(k, s, [a, b]) == After(k, After(k, s, a), b);
  }

  /** A run of three operations, as an observer sees it. */
  lemma WatchThree<M>(next: (M, Call) -> M, k: Setup, s: State, m: M, a: Op, b: Op, c: Op)
    ensures var t := After(k, s, a);
            var u := After(k, t, b);
            Fold(next, m, Log(k, s, [a, b, c])) ==
            Watch(next, k, u, Watch(next, k, t, Watch(next, k, s, m, a), b), c)
  {
    hide After, Calls;
    var t := After(k, s, a);
    var u := After(k, t, b);
    assert [a, b, c][..2] == [a, b] && [a, b][..1] == [a] && [a][..0] == [];
    assert Run(k, s, []) == s && Log(k, s, []) == [];
    assert Run(k, s, [a]) == t && Log(k, s, [a]) == Calls(k, s, a);
    assert Run(k, s, [a, b]) == u && Log(k, s, [a, b]) == Calls(k, s, a) + Calls(k, t, b);
    FoldConcat(next, m, Calls(k, s, a), Calls(k, t, b));
    FoldConcat(next, m, Log(k, s, [a, b]), Calls(k, u, c));
  }

  // ---- what the composite operations are made of ------------------------------------

  /** Calls that only maintain labels or hand over a broker. */
  predicate Housekeeping(c: Call) { c.RemoveLabels? || c.AddLabels? || c.SetBroker? || c.LiveEnrichmentFailed? }

  ghost predicate IgnoresHousekeeping<M(!new)>(next: (M, Call) -> M) {
    forall m, c :: Housekeeping(c) ==> next(m, c) == m
  }

  lemma RemovalsOnlyRemove(k: Setup, removed: seq<string>)
    ensures forall c :: c in RemovalCalls(k, removed) ==> c.RemoveLabels?
  {}

  lemma {:induction false} RemovalsOnlyRemoveAll(k: Setup, keys: seq<string>)
    ensures forall c :: c in Removals(k, keys) ==> c.RemoveLabels?
  {
    if keys != [] { RemovalsOnlyRemoveAll(k, keys[..|keys| - 1]); }
  }

  lemma EssRemovalsOnlyRemove(k: Setup)
    ensures forall c :: c in EssRemovals(k) ==> c.RemoveLabels?
  {
    RemovalsOnlyRemoveAll(k, EssKeys(k));
  }

  lemma RemovalsNext(k: Setup, keys: seq<string>, n: nat)
    requires n < |keys|
    ensures Removals(k, keys[..n + 1]) == Removals(k, keys[..n]) + RemovalCalls(k, [keys[n]])
  {
    assert keys[..n + 1][..n] == keys[..n];
  }

  lemma EssRemovalsInTurn(k: Setup)
    ensures EssRemovals(k) ==
            RemovalCalls(k, [k.keys.mediaTimestamp]) + RemovalCalls(k, [k.keys.essEnabled])
            + RemovalCalls(k, [k.keys.essSuccess]) + RemovalCalls(k, [k.keys.essError])
            + RemovalCalls(k, [k.keys.essStatusCode]) + RemovalCalls(k, [k.keys.essEnriched])
  {
    hide RemovalCalls;
    var keys := EssKeys(k);
    assert Removals(k, keys[..0]) == [];
    RemovalsNext(k, keys, 0);
    RemovalsNext(k, keys, 1);
    RemovalsNext(k, keys, 2);
    RemovalsNext(k, keys, 3);
    RemovalsNext(k, keys, 4);
    RemovalsNext(k, keys, 5);
    assert keys[..6] == keys;
  }

  lemma FoldClose<M(!new)>(next: (M, Call) -> M, k: Setup, m: M)
    requires IgnoresHousekeeping(next)
    ensures Fold(next, m, CloseCalls(k)) == next(m, Call.ClearMedia)
  {
    EssRemovalsOnlyRemove(k);
    FoldUnmoved(next, m, EssRemovals(k));
    FoldConcat(next, m, EssRemovals(k), [Call.ClearMedia]);
    FoldOne(next, m, Call.ClearMedia);
  }

  lemma FoldDisable<M(!new)>(next: (M, Call) -> M, k: Setup, m: M)
    requires IgnoresHousekeeping(next)
    ensures Fold(next, m, CloseCalls(k) + [Call.Disable]) == next(next(m, Call.ClearMedia), Call.Disable)
  {
    FoldClose(next, k, m);
    FoldConcat(next, m, CloseCalls(k), [Call.Disable]);
    FoldOne(next, next(m, Call.ClearMedia), Call.Disable);
  }

  lemma FoldOpen<M(!new)>(next: (M, Call) -> M, k: Setup, a: Av, media: MediaInfo, made: bool, m: M)
    requires IgnoresHousekeeping(next)
    ensures Fold(next, m, OpenCalls(k, a, media, made)) == next(next(m, Call.ClearMedia), Call.SetMedia(media))
  {
    var added := [AddLabelCall(k, k.keys.essEnabled, BoolText(k.essEnabled))];
    var broker := InitBrokerCalls(k, a.(media := Some(media)), made);
    var cleared := next(m, Call.ClearMedia);
    FoldClose(next, k, m);
    FoldConcat(next, m, CloseCalls(k), added);
    FoldUnmoved(next, cleared, added);
    FoldConcat(next, m, CloseCalls(k) + added, broker);
    FoldUnmoved(next, cleared, broker);
    FoldConcat(next, m, CloseCalls(k) + added + broker, [Call.SetMedia(media)]);
    FoldOne(next, cleared, Call.SetMedia(media));
  }

  /** Setting a user tells the store and the delegates only about users. */
  predicate AboutUser(c: Call) {
    || c.ToStore() || c.UpdateDeviceID? || c.ClearCache? || c.UserStateChange? || c.UpdateBBCUserLabels?
    || (c.UserAction? && c.origin.UserReport?)
  }

  lemma SetUserOnlyAboutUser(k: Setup, on: bool, u: Users, user: User, e: UserEnv)
    ensures forall c :: c in SetUserCalls(k, on, u, user, e) ==> AboutUser(c)
  {}

  lemma PendingOnlyAboutUser(k: Setup, u: Users, e: UserEnv)
    ensures forall c :: c in PendingCalls(k, u, e) ==> AboutUser(c)
  {
    if u.pending.Some? { SetUserOnlyAboutUser(k, true, u, u.pending.value, e); }
  }

  lemma FoldStart<M(!new)>(next: (M, Call) -> M, k: Setup, s: State, e: UserEnv, m: M)
    requires Starts(s)
    requires forall c :: AboutUser(c) ==> next(next(m, Call.Start), c) == next(m, Call.Start)
    ensures Fold(next, m, StartCalls(k, s, e)) == next(m, Call.Start)
  {
    PendingOnlyAboutUser(k, s.users, e);
    FoldConcat(next, m, [Call.Start], PendingCalls(k, s.users, e));
    FoldOne(next, m, Call.Start);
    FoldUnmoved(next, next(m, Call.Start), PendingCalls(k, s.users, e));
  }

  /** Enabling is an enable call, then either a start or the user that was waiting. */
  lemma FoldEnable<M(!new)>(next: (M, Call) -> M, k: Setup, s: State, e: UserEnv, m: M)
    requires !s.echoEnabled
    requires s.hasStarted ==>
               forall c :: AboutUser(c) ==> next(next(m, Call.Enable), c) == next(m, Call.Enable)
    requires !s.hasStarted && k.autoStart ==>
               forall c :: AboutUser(c) ==>
                 next(next(next(m, Call.Enable), Call.Start), c) == next(next(m, Call.Enable), Call.Start)
    ensures Fold(next, m, EnableCalls(k, s, e)) ==
            if !s.hasStarted && k.autoStart then next(next(m, Call.Enable), Call.Start) else next(m, Call.Enable)
  {
    var enabled := next(m, Call.Enable);
    FoldOne(next, m, Call.Enable);
    if s.hasStarted {
      PendingOnlyAboutUser(k, s.users, e);
      FoldConcat(next, m, [Call.Enable], PendingCalls(k, s.users, e));
      FoldUnmoved(next, enabled, PendingCalls(k, s.users, e));
    } else if k.autoStart {
      FoldConcat(next, m, [Call.Enable], StartCalls(k, s.(echoEnabled := true), e));
      FoldStart(next, k, s.(echoEnabled := true), e, enabled);
    }
  }

  ghost predicate Quiet<M(!new)>(next: (M, Call) -> M, m: M) {
    forall c :: AboutUser(c) ==> next(m, c) == m
  }

  lemma FoldSetUser<M(!new)>(next: (M, Call) -> M, k: Setup, on: bool, u: Users, user: User, e: UserEnv, m: M)
    requires on ==> Quiet(next, m)
    ensures Fold(next, m, SetUserCalls(k, on, u, user, e)) == m
  {
    var calls := SetUserCalls(k, on, u, user, e);
    assert forall c :: c in calls ==> AboutUser(c) by { SetUserOnlyAboutUser(k, on, u, user, e); }
    if on { FoldUnmovedByUsers(next, m, calls); }
  }

  lemma FoldUnmovedByUsers<M(!new)>(next: (M, Call) -> M, m: M, calls: seq<Call>)
    requires Quiet(next, m) && forall c :: c in calls ==> AboutUser(c)
    ensures Fold(next, m, calls) == m
  {
    FoldUnmoved(next, m, calls);
  }

  lemma FoldHousekeeping<M(!new)>(next: (M, Call) -> M, m: M, calls: seq<Call>)
    requires IgnoresHousekeeping(next) && forall c :: c in calls ==> Housekeeping(c)
    ensures Fold(next, m, calls) == m
  {
    FoldUnmoved(next, m, calls);
  }

  // ---- one operation, digested -------------------------------------------------------

  /** The observer does not care about user calls at the moments they are made. */
  ghost predicate UsersQuiet<M(!new)>(next: (M, Call) -> M, k: Setup, s: State, m: M, op: Op) {
    && (op.SetBBCUser? && EventsOn(s) ==> Quiet(next, m))
    && (op.Start? && Starts(s) ==> Quiet(next, next(m, Call.Start)))
    && (op.Enable? && !s.echoEnabled && s.hasStarted ==> Quiet(next, next(m, Call.Enable)))
    && (op.Enable? && !s.echoEnabled && !s.hasStarted && k.autoStart ==>
          Quiet(next, next(next(m, Call.Enable), Call.Start)))
  }

  /** Operations made of several calls. */
  predicate Compound(op: Op) {
    op.SetMedia? || op.Disable? || op.SetBBCUser? || op.Start? || op.Enable? || op.RemoveLabels? || op.SetEssError?
  }

  /** Operations that play or navigate. */
  predicate Playback(op: Op) { op.Play? || op.Navigate? || op.ReleaseSuppressedPlay? }

  /** Operations that report something without changing the playback. */
  predicate Reporting(op: Op) {
    op.AvUserAction? || op.SendHeartbeat? || op.ViewEvent? || op.UserAction? || op.ErrorEvent?
  }

  /** Operations that pass something on. */
  predicate Plain(op: Op) {
    || op.FlushCache? || op.ClearCache? || op.AddLabels? || op.Setting? || op.LiveTimestampUpdate?
    || op.SetEssSuccess? || op.SetCounterName?
  }

  predicate Other(op: Op) { !Compound(op) && !Playback(op) && !Reporting(op) && !Plain(op) }

  /** What an observer that ignores housekeeping and users makes of a compound operation. */
  function Digest<M>(next: (M, Call) -> M, k: Setup, s: State, m: M, op: Op): M
    requires Compound(op)
  {
    match op
    case SetMedia(media, _) => if s.echoEnabled then next(next(m, Call.ClearMedia), Call.SetMedia(media)) else m
    case Disable => if s.echoEnabled then next(next(m, Call.ClearMedia), Call.Disable) else m
    case Start(_) => if Starts(s) then next(m, Call.Start) else m
    case Enable(_) =>
      if s.echoEnabled then m
      else if !s.hasStarted && k.autoStart then next(next(m, Call.Enable), Call.Start)
      else next(m, Call.Enable)
    case _ => m
  }

  lemma {:induction false} WatchCompound<M(!new)>(next: (M, Call) -> M, k: Setup, s: State, m: M, op: Op)
    requires Compound(op) && IgnoresHousekeeping(next) && UsersQuiet(next, k, s, m, op)
    ensures Watch(next, k, s, m, op) == Digest(next, k, s, m, op)
  {
    match op
    case SetMedia(media, made) => if s.echoEnabled { FoldOpen(next, k, s.av, media, made, m); }
    case Disable => if s.echoEnabled { FoldDisable(next, k, m); }
    case RemoveLabels(removed) =>
      RemovalsOnlyRemove(k, removed);
      FoldHousekeeping(next, m, RemovalCalls(k, removed));
    case SetEssError(error, code) => FoldHousekeeping(next, m, EssErrorCalls(k, error, code));
    case SetBBCUser(user, env) => FoldSetUser(next, k, EventsOn(s), s.users, user, env, m);
    case Start(env) => if Starts(s) { FoldStart(next, k, s, env, m); }
    case Enable(env) => if !s.echoEnabled { FoldEnable(next, k, s, env, m); }
  }

  lemma {:induction false} WatchSimple<M(!new)>(next: (M, Call) -> M, k: Setup, s: State, m: M, op: Op)
    requires !Compound(op)
    ensures |Calls(k, s, op)| <= 1
    ensures Watch(next, k, s, m, op) == if Calls(k, s, op) == [] then m else next(m, Calls(k, s, op)[0])
  {
    if Calls(k, s, op) != [] {
      FoldOne(next, m, Calls(k, s, op)[0]);
    }
  }
}
