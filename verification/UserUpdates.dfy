/** Users handed over at any time, and what becomes of them: each is given to the
    user store at most once, in order, and only if it was not replaced while events
    were off. */
module UserUpdates {
  import opened EchoTypes
  import opened Machine
  import opened Folds

  /** The user an operation gives to the user store, if it gives one. */
  function Applied(k: Setup, s: State, op: Op): Option<User> {
    if !k.idv5Enabled then None else
      match op
      case SetBBCUser(user, _) => if EventsOn(s) then Some(user) else None
      case Start(_) => if Starts(s) then s.users.pending else None
      case Enable(_) => if !s.echoEnabled && (s.hasStarted || k.autoStart) then s.users.pending else None
      case _ => None
  }

  function Given(users: seq<User>, c: Call): seq<User> { if c.StoreUser? then users + [c.user] else users }

  function AsSeq(user: Option<User>): seq<User> { if user.Some? then [user.value] else [] }

  lemma RegisterGivesOnce(k: Setup, user: User, e: UserEnv, users: seq<User>)
    ensures Fold(Given, users, RegisterCalls(k, user, e)) == users + [user]
  {
    hide Fold;
    var first := [Call.StoreUser(user)];
    var device := if e.deviceId.Some? then [Call.UpdateDeviceID(e.deviceId.value)] else [];
    var reset := if k.resetOnUserStateChange then ResetUserDataCalls(e) else [];
    FoldOne(Given, users, Call.StoreUser(user));
    FoldUnmoved(Given, users + [user], device);
    FoldUnmoved(Given, users + [user], reset);
    FoldConcat(Given, users, first, device);
    FoldConcat(Given, users, first + device, reset);
  }

  lemma ApplyGivesOnce(k: Setup, u: Users, user: User, e: UserEnv, users: seq<User>)
    ensures Fold(Given, users, ApplyUserCalls(k, u, user, e)) == users + [user]
  {
    hide Fold, RegisterCalls, UserReportCall;
    var tail := if TakesResetPath(k, e) then [Call.UserStateChange, Call.StoreTransition(e.transition)]
                else [Call.UpdateBBCUserLabels(user)]
                     + (if ReportsUser(e) then UserReportCalls(k, e, u.postponed.Some?) else []);
    ReportNeverStores(k, e, u.postponed.Some?);
    RegisterGivesOnce(k, user, e, users);
    FoldUnmoved(Given, users + [user], tail);
    FoldConcat(Given, users, RegisterCalls(k, user, e), tail);
  }

  lemma ReportNeverStores(k: Setup, e: UserEnv, postponed: bool)
    ensures forall c :: c in UserReportCalls(k, e, postponed) ==> !c.StoreUser?
  {}

  lemma PendingGives(k: Setup, u: Users, e: UserEnv, users: seq<User>)
    ensures Fold(Given, users, PendingCalls(k, u, e)) == users + if k.idv5Enabled then AsSeq(u.pending) else []
  {
    if u.pending.Some? && k.idv5Enabled { ApplyGivesOnce(k, u, u.pending.value, e, users); }
    hide ApplyUserCalls;
  }

  lemma {:induction false} UserOpGives(k: Setup, s: State, op: Op, users: seq<User>)
    requires op.SetBBCUser? || op.Start? || op.Enable?
    ensures Watch(Given, k, s, users, op) == users + AsSeq(Applied(k, s, op))
  {
    hide ApplyUserCalls, PendingCalls;
    match op
    case SetBBCUser(user, env) =>
      if EventsOn(s) && k.idv5Enabled { ApplyGivesOnce(k, s.users, user, env, users); }
    case Start(env) =>
      if Starts(s) { LeadThenPending(k, s.users, env, users, Call.Start); }
    case Enable(env) =>
      if !s.echoEnabled && s.hasStarted { LeadThenPending(k, s.users, env, users, Call.Enable); }
      else if !s.echoEnabled && k.autoStart {
        LeadThenPending(k, s.users, env, users, Call.Start);
        FoldConcat(Given, users, [Call.Enable], [Call.Start] + PendingCalls(k, s.users, env));
        FoldOne(Given, users, Call.Enable);
      } else if !s.echoEnabled {
        FoldOne(Given, users, Call.Enable);
      }
  }

  lemma LeadThenPending(k: Setup, u: Users, e: UserEnv, users: seq<User>, lead: Call)
    requires !lead.StoreUser?
    ensures Fold(Given, users, [lead] + PendingCalls(k, u, e)) ==
            users + if k.idv5Enabled then AsSeq(u.pending) else []
  {
    PendingGives(k, u, e, users);
    FoldConcat(Given, users, [lead], PendingCalls(k, u, e));
    FoldOne(Given, users, lead);
    hide PendingCalls;
  }

  lemma {:induction false} OtherOpGivesNone(k: Setup, s: State, op: Op, users: seq<User>)
    requires !op.SetBBCUser? && !op.Start? && !op.Enable?
    ensures Watch(Given, k, s, users, op) == users && Applied(k, s, op).None?
  {
    hide Watch, Fold, Decimal, OpenCalls;
    if Compound(op) {
      WatchCompound(Given, k, s, users, op);
      hide Calls;
    } else {
      WatchSimple(Given, k, s, users, op);
      SimpleNeverStores(k, s, op);
      hide Calls;
    }
  }

  lemma {:induction false} SimpleNeverStores(k: Setup, s: State, op: Op)
    requires !Compound(op)
    ensures forall c :: c in Calls(k, s, op) ==> !c.ToStore()
  {
    hide Decimal;
  }

  // ---- the users a run was given -------------------------------------------------------

  /** A user handed over, and whether events were on at some moment from then until
      the next user was handed over. */
  datatype Handed = Handed(user: User, live: bool)

  function MarkLast(handed: seq<Handed>, on: bool): seq<Handed>
    requires handed != []
  {
    var n := |handed| - 1;
    handed[n := handed[n].(live := handed[n].live || on)]
  }

  /** Every user handed over in the run, the constructor's first. */
  function HandedOver(k: Setup, s: State, ops: seq<Op>): (handed: seq<Handed>)
    requires s.users.pending.Some?
    ensures handed != []
  {
    if ops == [] then [Handed(s.users.pending.value, EventsOn(s))] else
      var op, on := ops[|ops| - 1], EventsOn(Run(k, s, ops));
      var before := HandedOver(k, s, ops[..|ops| - 1]);
      if op.SetBBCUser? then before + [Handed(op.user, on)] else MarkLast(before, on)
  }

  function Survivors(handed: seq<Handed>): seq<User> {
    if handed == [] then [] else
      var last := handed[|handed| - 1];
      Survivors(handed[..|handed| - 1]) + (if last.live then [last.user] else [])
  }

  lemma SurvivorsAppend(handed: seq<Handed>, h: Handed)
    ensures Survivors(handed + [h]) == Survivors(handed) + if h.live then [h.user] else []
  {
    assert (handed + [h])[..|handed|] == handed;
  }

  lemma SurvivorsMark(handed: seq<Handed>, on: bool)
    requires handed != []
    ensures var last := handed[|handed| - 1];
            Survivors(MarkLast(handed, on)) == Survivors(handed) + if on && !last.live then [last.user] else []
  {
    hide Survivors;
    var front, last := handed[..|handed| - 1], handed[|handed| - 1];
    assert handed == front + [last];
    assert MarkLast(handed, on) == front + [last.(live := last.live || on)];
    SurvivorsAppend(front, last);
    SurvivorsAppend(front, last.(live := last.live || on));
  }

  /** The last user handed over is either in the store or still waiting. */
  predicate Settled(s: State, handed: seq<Handed>) {
    handed != []
    && var last := handed[|handed| - 1];
       && (EventsOn(s) ==> last.live)
       && (last.live ==> s.users.pending.None? && s.users.stored == last.user)
       && (!last.live ==> s.users.pending == Some(last.user))
  }

  /** Applying a user here would postpone its report and leave it waiting. */
  predicate HitsResetPath(k: Setup, op: Op) {
    (op.SetBBCUser? || op.Start? || op.Enable?) && TakesResetPath(k, op.env)
  }

  predicate UsersUntouched(k: Setup, s: State, op: Op) {
    var t := After(k, s, op);
    t.users.pending == s.users.pending && t.users.stored == s.users.stored
  }

  lemma {:induction false} QuietStep(k: Setup, s: State, op: Op)
    requires !op.SetBBCUser? && !op.Start? && !op.Enable?
    ensures UsersUntouched(k, s, op) && (EventsOn(After(k, s, op)) ==> EventsOn(s))
  {
    hide OpenMedia, CloseMedia, PlayMedia, Mark, Navigated, SetLength;
  }

  lemma ApplyStores(k: Setup, u: Users, user: User, e: UserEnv)
    ensures var t := ApplyUser(k, u, user, e);
            t.stored == user && t.pending == if TakesResetPath(k, e) then u.pending else None
  {}

  lemma {:induction false} UserStep(k: Setup, s: State, op: Op)
    requires op.SetBBCUser? || op.Start? || op.Enable?
    requires k.idv5Enabled && !HitsResetPath(k, op)
    ensures var t := After(k, s, op);
            if op.SetBBCUser? then
              EventsOn(t) == EventsOn(s)
              && (if EventsOn(s) then t.users.pending.None? && t.users.stored == op.user
                  else t.users.pending == Some(op.user))
            else if !EventsOn(s) && EventsOn(t) then
              t.users.pending.None?
              && t.users.stored == if s.users.pending.Some? then s.users.pending.value else s.users.stored
            else UsersUntouched(k, s, op) && EventsOn(t) == EventsOn(s)
    ensures var t := After(k, s, op);
            Applied(k, s, op) == if op.SetBBCUser? then (if EventsOn(s) then Some(op.user) else None)
                                 else if !EventsOn(s) && EventsOn(t) then s.users.pending else None
  {
    if op.SetBBCUser? { ApplyStores(k, s.users, op.user, op.env); }
    else if s.users.pending.Some? { ApplyStores(k, s.users, s.users.pending.value, op.env); }
    hide ApplyUser;
  }

  lemma {:induction false} SettledStep(k: Setup, s: State, op: Op, handed: seq<Handed>)
    requires k.idv5Enabled && !HitsResetPath(k, op) && Settled(s, handed)
    ensures var t := After(k, s, op);
            var now := if op.SetBBCUser? then handed + [Handed(op.user, EventsOn(t))] else MarkLast(handed, EventsOn(t));
            Settled(t, now) && Survivors(now) == Survivors(handed) + AsSeq(Applied(k, s, op))
  {
    if op.SetBBCUser? || op.Start? || op.Enable? { UserStep(k, s, op); } else { QuietStep(k, s, op); }
    var on := EventsOn(After(k, s, op));
    SurvivorsMark(handed, on);
    if op.SetBBCUser? { SurvivorsAppend(handed, Handed(op.user, on)); }
    hide After, Survivors;
  }

  /** Deferred users, last write wins. With the user feature on, and no user
      arriving by the reset path: over any interleaving of any operations, the users
      given to the store are exactly the survivors, once each and in order; and a
      client with events on has nothing waiting and has stored the last user ever
      handed over. A user replaced while events were off is never given. */
  lemma {:induction false} DeferredUsers(k: Setup, s: State, ops: seq<Op>)
    requires IsFresh(s) && k.idv5Enabled
    requires forall i :: 0 <= i < |ops| ==> !HitsResetPath(k, ops[i])
    ensures var t, handed := Run(k, s, ops), HandedOver(k, s, ops);
            && Fold(Given, [], Log(k, s, ops)) == Survivors(handed)
            && Settled(t, handed)
            && (EventsOn(t) ==> t.users.pending.None? && t.users.stored == handed[|handed| - 1].user)
  {
    hide After, Calls, Watch, Applied;
    if ops == [] {
      SurvivorsAppend([], Handed(s.users.pending.value, EventsOn(s)));
    } else {
      var front, op := ops[..|ops| - 1], ops[|ops| - 1];
      DeferredUsers(k, s, front);
      var t, given := Run(k, s, front), Fold(Given, [], Log(k, s, front));
      SettledStep(k, t, op, HandedOver(k, s, front));
      StepGives(k, t, op, given);
      FoldConcat(Given, [], Log(k, s, front), Calls(k, t, op));
      hide Fold, Settled, Survivors;
    }
  }

  lemma StepGives(k: Setup, s: State, op: Op, users: seq<User>)
    ensures Fold(Given, users, Calls(k, s, op)) == users + AsSeq(Applied(k, s, op))
  {
    if op.SetBBCUser? || op.Start? || op.Enable? { UserOpGives(k, s, op, users); } else { OtherOpGivesNone(k, s, op, users); }
    hide Calls, Applied;
  }

  // ---- where a user is left waiting, and comes back ---------------------------------------

  /** Setting a user while events are on leaves an earlier one waiting exactly when
      the user feature is off or the reset path is taken. */
  lemma WaitingUserClearedIff(k: Setup, s: State, user: User, e: UserEnv)
    requires EventsOn(s)
    ensures After(k, s, SetBBCUser(user, e)).users.pending.None? <==>
            s.users.pending.None? || (k.idv5Enabled && !TakesResetPath(k, e))
  {
    ApplyStores(k, s.users, user, e);
    hide ApplyUser;
  }

  /** Set a user, switch Echo off and on again. */
  function OffAndOn(k: Setup, s: State, user: User, e: UserEnv, e2: UserEnv): State {
    After(k, After(k, After(k, s, SetBBCUser(user, e)), Op.Disable), Op.Enable(e2))
  }

  /** A waiting user can overtake a newer one. Set while events are on, the newer user
      is still the client's after switching off and on if, and only if, nobody else was
      waiting or setting it cleared the one who was. With the user feature on, the
      client's user is the stored one; with the feature off, the one remembered. */
  lemma NewerUserSurvivesIff(k: Setup, s: State, user: User, e: UserEnv, e2: UserEnv)
    requires EventsOn(s)
    ensures var t := OffAndOn(k, s, user, e, e2);
            (if k.idv5Enabled then t.users.stored == user else t.users.previous == Some(user)) <==>
            || s.users.pending.None? || s.users.pending == Some(user)
            || (k.idv5Enabled && !TakesResetPath(k, e))
  {
    hide ResetUserData, CloseMedia;
    var a := After(k, s, SetBBCUser(user, e));
    var b := After(k, a, Op.Disable);
    assert b.users == a.users && b.hasStarted && !b.echoEnabled;
    if k.idv5Enabled {
      ApplyStores(k, s.users, user, e);
      if b.users.pending.Some? { ApplyStores(k, b.users, b.users.pending.value, e2); }
    }
    hide ApplyUser;
  }

  /** It happens: a start that takes the reset path leaves the constructor's user
      waiting, and one more reset makes that user come back over a newer one. */
  lemma StaleUserIsStored(k: Setup, s: State, user: User, e: UserEnv, e2: UserEnv)
    requires IsFresh(s) && s.echoEnabled && k.idv5Enabled && TakesResetPath(k, e)
    requires s.users.pending != Some(user)
    ensures var started := After(k, s, Op.Start(e));
            && EventsOn(started) && started.users.pending == s.users.pending
            && OffAndOn(k, started, user, e, e2).users.stored == s.users.pending.value
  {
    hide CloseMedia, ResetUserData;
    var started := After(k, s, Op.Start(e));
    ApplyStores(k, s.users, s.users.pending.value, e);
    ApplyStores(k, started.users, user, e);
    var a := After(k, started, SetBBCUser(user, e));
    ApplyStores(k, a.users, s.users.pending.value, e2);
    hide ApplyUser;
  }

  /** And with the user feature off, the constructor's user always comes back. */
  lemma StaleUserComesBack(k: Setup, s: State, user: User, start: UserEnv, e: UserEnv, e2: UserEnv)
    requires IsFresh(s) && s.echoEnabled && !k.idv5Enabled
    ensures OffAndOn(k, After(k, s, Op.Start(start)), user, e, e2).users.previous == s.users.pending
  {
    hide CloseMedia;
  }
}
