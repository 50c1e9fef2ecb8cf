/** The timer that expires a user's token. */
module Timers {
  import opened EchoTypes
  import opened Machine
  import opened UserUpdates

  /** Only the newest timer may be valid, and then it belongs to the remembered user. */
  predicate OneTimer(u: Users) {
    && (forall i :: 0 <= i < |u.oldTimers| ==> !u.oldTimers[i].valid)
    && (u.timer.None? ==> u.oldTimers == [])
    && (u.timer.Some? && u.timer.value.valid ==> u.forTimer == Some(u.timer.value.user))
  }

  /** The user whose token the operation schedules, if it schedules one. */
  function Schedules(k: Setup, s: State, op: Op): Option<User> {
    var user := Applied(k, s, op);
    if user.Some? && k.resetOnUserStateChange && op.env.token == Valid && user.value.tokenRefreshTimestamp.Some?
    then user else None
  }

  function LastScheduled(k: Setup, s: State, ops: seq<Op>): Option<User> {
    if ops == [] then None else
      var front, op := ops[..|ops| - 1], ops[|ops| - 1];
      var now := Schedules(k, Run(k, s, front), op);
      if now.Some? then now else LastScheduled(k, s, front)
  }

  /** A pending timer belongs to the user of the most recent schedule. */
  predicate Tracks(u: Users, last: Option<User>) {
    OneTimer(u) && (u.timer.Some? && u.timer.value.valid ==> last == Some(u.timer.value.user))
  }

  lemma ApplyTracks(k: Setup, u: Users, user: User, e: UserEnv, last: Option<User>)
    requires Tracks(u, last)
    ensures var scheduled := k.resetOnUserStateChange && e.token == Valid && user.tokenRefreshTimestamp.Some?;
            Tracks(ApplyUser(k, u, user, e), if scheduled then Some(user) else last)
  {}

  lemma SetTracks(k: Setup, on: bool, u: Users, user: User, e: UserEnv, last: Option<User>)
    requires Tracks(u, last)
    ensures var scheduled := on && k.idv5Enabled && k.resetOnUserStateChange && e.token == Valid
                             && user.tokenRefreshTimestamp.Some?;
            Tracks(SetUser(k, on, u, user, e), if scheduled then Some(user) else last)
  {
    ApplyTracks(k, u, user, e, last);
    hide ApplyUser;
  }

  lemma FiringTracks(u: Users, which: nat, last: Option<User>)
    requires Tracks(u, last)
    ensures Tracks(Fired(u, which), last)
  {}

  lemma {:induction false} StepTracks(k: Setup, s: State, op: Op, last: Option<User>)
    requires Tracks(s.users, last)
    ensures Tracks(After(k, s, op).users, if Schedules(k, s, op).Some? then Schedules(k, s, op) else last)
  {
    match op
    case SetBBCUser(user, env) => SetTracks(k, EventsOn(s), s.users, user, env, last);
    case Start(env) =>
      if s.users.pending.Some? { SetTracks(k, true, s.users, s.users.pending.value, env, last); }
    case Enable(env) =>
      if s.users.pending.Some? { SetTracks(k, true, s.users, s.users.pending.value, env, last); }
    case TimerFires(which) => FiringTracks(s.users, which, last);
    case _ =>
    hide SetUser, Fired, OpenMedia, CloseMedia, PlayMedia, Mark, Navigated;
  }

  lemma {:induction false} RunTracks(k: Setup, s: State, ops: seq<Op>)
    requires s.users.timer.None? && s.users.oldTimers == []
    ensures Tracks(Run(k, s, ops).users, LastScheduled(k, s, ops))
  {
    hide After, Schedules, Tracks;
    if ops == [] {
      assert Tracks(s.users, None) by { EmptyTracks(s.users); }
    } else {
      var front, op := ops[..|ops| - 1], ops[|ops| - 1];
      RunTracks(k, s, front);
      StepTracks(k, Run(k, s, front), op, LastScheduled(k, s, front));
    }
  }

  lemma EmptyTracks(u: Users)
    requires u.timer.None? && u.oldTimers == []
    ensures Tracks(u, None)
  {}

  /** After any run: whichever timer is able to fire is the newest one, and no other
      can; it was made for the remembered user, who is the user of the most recent
      schedule; its firing tells the delegates about exactly that user; and it
      cannot fire a second time. */
  lemma TimerDiscipline(k: Setup, s: State, ops: seq<Op>, which: nat)
    requires s.users.timer.None? && s.users.oldTimers == []
    requires CanFire(Run(k, s, ops).users, which)
    ensures var t := Run(k, s, ops);
            && which == |t.users.oldTimers|
            && t.users.timer.Some?
            && t.users.forTimer == LastScheduled(k, s, ops) == Some(t.users.timer.value.user)
            && Calls(k, t, TimerFires(which)) == [Call.UpdateBBCUserLabels(t.users.timer.value.user)]
            && !CanFire(After(k, t, TimerFires(which)).users, which)
  {
    RunTracks(k, s, ops);
    hide Run, LastScheduled;
  }
}
