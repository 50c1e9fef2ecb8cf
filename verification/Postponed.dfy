/** A user-state change that could not be reported waits in the user store. It is
    reported once, and forgotten only after that. */
module Postponed {
  import opened EchoTypes
  import opened Machine
  import opened Folds

  /** Whether a transition is waiting, as the calls of the client tell it. */
  datatype Slot = Empty | Waiting | Told | Broken

  predicate CarriesReset(c: Call)
    requires c.UserAction?
  {
    c.labels.Some? && DEVICE_ID_RESET in c.labels.value && c.labels.value[DEVICE_ID_RESET] == "1"
  }

  function Next(slot: Slot, c: Call): Slot {
    if slot == Broken then Broken
    else if c.StoreTransition? then (if slot == Told then Broken else Waiting)
    else if c.ClearTransition? then (if slot == Told then Empty else Broken)
    else if c.UserAction? && c.origin.UserReport? then
      if c.origin.postponed then (if slot == Waiting && CarriesReset(c) then Told else Broken)
      else if slot == Empty then Empty else Broken
    else slot
  }

  function SlotOf(u: Users): Slot { if u.postponed.Some? then Waiting else Empty }

  predicate Agree(s: State, slot: Slot) { slot == SlotOf(s.users) }

  /** The key marking background events is not the reset key. */
  predicate KeysApart(k: Setup) { k.keys.isBackground != DEVICE_ID_RESET }

  lemma ReportRead(k: Setup, u: Users, e: UserEnv)
    requires KeysApart(k)
    ensures Fold(Next, SlotOf(u), UserReportCalls(k, e, u.postponed.Some?)) == Empty
  {
    var report := UserReportCall(k, e, u.postponed.Some?);
    FoldOne(Next, SlotOf(u), report);
    if u.postponed.Some? {
      FoldConcat(Next, Waiting, [report], [Call.ClearTransition]);
      FoldOne(Next, Told, Call.ClearTransition);
    }
  }

  lemma ApplyRead(k: Setup, u: Users, user: User, e: UserEnv)
    requires KeysApart(k)
    ensures Fold(Next, SlotOf(u), ApplyUserCalls(k, u, user, e)) == SlotOf(ApplyUser(k, u, user, e))
  {
    hide ReportLabels, UserReportCalls, ResetUserData;
    var slot, opening := SlotOf(u), RegisterCalls(k, user, e);
    assert forall c :: c in opening ==> c.StoreUser? || c.UpdateDeviceID? || c.ClearCache?;
    FoldUnmoved(Next, slot, opening);
    if TakesResetPath(k, e) {
      var tail := [Call.UserStateChange, Call.StoreTransition(e.transition)];
      assert tail == [Call.UserStateChange] + [Call.StoreTransition(e.transition)];
      FoldConcat(Next, slot, [Call.UserStateChange], [Call.StoreTransition(e.transition)]);
      FoldOne(Next, slot, Call.UserStateChange);
      FoldOne(Next, slot, Call.StoreTransition(e.transition));
      FoldConcat(Next, slot, opening, tail);
    } else {
      var report := if ReportsUser(e) then UserReportCalls(k, e, u.postponed.Some?) else [];
      FoldOne(Next, slot, Call.UpdateBBCUserLabels(user));
      ReportRead(k, u, e);
      FoldConcat(Next, slot, [Call.UpdateBBCUserLabels(user)], report);
      FoldConcat(Next, slot, opening, [Call.UpdateBBCUserLabels(user)] + report);
    }
  }

  lemma PendingRead(k: Setup, u: Users, e: UserEnv, lead: Call)
    requires KeysApart(k) && (lead.Start? || lead.Enable?)
    ensures Fold(Next, SlotOf(u), [lead] + PendingCalls(k, u, e)) == SlotOf(SetPending(k, u, e))
  {
    FoldOne(Next, SlotOf(u), lead);
    FoldConcat(Next, SlotOf(u), [lead], PendingCalls(k, u, e));
    if u.pending.Some? && k.idv5Enabled { ApplyRead(k, u, u.pending.value, e); }
    hide ApplyUser, ApplyUserCalls;
  }

  lemma {:induction false} UserOpKeeps(k: Setup, s: State, op: Op)
    requires KeysApart(k) && (op.SetBBCUser? || op.Start? || op.Enable?)
    ensures Watch(Next, k, s, SlotOf(s.users), op) == SlotOf(After(k, s, op).users)
  {
    var slot := SlotOf(s.users);
    hide ApplyUser, ApplyUserCalls, SetPending, PendingCalls;
    match op
    case SetBBCUser(user, env) =>
      if EventsOn(s) && k.idv5Enabled { ApplyRead(k, s.users, user, env); }
    case Start(env) =>
      PendingRead(k, s.users, env, Call.Start);
    case Enable(env) =>
      PendingRead(k, s.users, env, Call.Enable);
      PendingRead(k, s.users, env, Call.Start);
      FoldOne(Next, slot, Call.Enable);
      FoldConcat(Next, slot, [Call.Enable], [Call.Start] + PendingCalls(k, s.users, env));
  }

  lemma IgnoresRest()
    ensures IgnoresHousekeeping(Next)
  {}

  lemma {:induction false} CompoundTells(k: Setup, s: State, slot: Slot, op: Op)
    requires slot == Waiting || slot == Empty
    requires Compound(op) && !op.SetBBCUser? && !op.Start? && !op.Enable?
    ensures Watch(Next, k, s, slot, op) == slot
  {
    hide Watch, IgnoresHousekeeping;
    IgnoresRest();
    WatchCompound(Next, k, s, slot, op);
  }

  lemma {:induction false} SimpleTells(k: Setup, s: State, slot: Slot, op: Op)
    requires slot == Waiting || slot == Empty
    requires !Compound(op)
    ensures Watch(Next, k, s, slot, op) == slot
  {
    SimpleTellsNoTransition(k, s, op);
    hide Watch, Calls;
    WatchSimple(Next, k, s, slot, op);
  }

  lemma {:induction false} OtherOpKeeps(k: Setup, s: State, op: Op)
    requires !op.SetBBCUser? && !op.Start? && !op.Enable?
    ensures Watch(Next, k, s, SlotOf(s.users), op) == SlotOf(After(k, s, op).users)
  {
    hide Watch, After;
    PostponedUntouched(k, s, op);
    if Compound(op) { CompoundTells(k, s, SlotOf(s.users), op); } else { SimpleTells(k, s, SlotOf(s.users), op); }
  }

  lemma {:induction false} PostponedUntouched(k: Setup, s: State, op: Op)
    requires !op.SetBBCUser? && !op.Start? && !op.Enable?
    ensures After(k, s, op).users.postponed == s.users.postponed
  {
    hide OpenMedia, CloseMedia, PlayMedia, Mark, Navigated;
  }

  lemma {:induction false} SimpleTellsNoTransition(k: Setup, s: State, op: Op)
    requires !Compound(op)
    ensures forall c :: c in Calls(k, s, op) ==> !c.ToStore() && (c.UserAction? ==> c.origin.Caller?)
  {
    hide Decimal;
  }

  lemma PostponedSteps(k: Setup)
    requires KeysApart(k)
    ensures StepsKeep(Next, Agree, Always, k)
  {
    hide Watch, After, Calls, SlotOf;
    forall t, slot, op | Agree(t, slot) && Always(t, op) ensures Agree(After(k, t, op), Watch(Next, k, t, slot, op)) {
      if op.SetBBCUser? || op.Start? || op.Enable? { UserOpKeeps(k, t, op); } else { OtherOpKeeps(k, t, op); }
    }
  }

  // ---- what that means for a log -------------------------------------------------------------

  predicate ReportsPostponed(c: Call) { c.UserAction? && c.origin == UserReport(true) }

  predicate StoredBetween(log: seq<Call>, i: int, j: int) {
    exists n :: i < n < j && 0 <= n < |log| && log[n].StoreTransition?
  }

  /** A postponed transition was reported before `j` and has not been cleared since. */
  predicate ReportedBefore(log: seq<Call>, j: int) {
    exists i :: 0 <= i < j && i < |log| && ReportsPostponed(log[i])
                && forall n :: i < n < j && n < |log| ==> !log[n].ClearTransition?
  }

  /** Every report of a postponed transition carries the reset label; between two of
      them a transition was stored; and one is cleared only with a report since the
      previous clearing. */
  predicate Conserved(log: seq<Call>) {
    && (forall i :: 0 <= i < |log| && ReportsPostponed(log[i]) ==> CarriesReset(log[i]))
    && (forall i, j :: 0 <= i < j < |log| && ReportsPostponed(log[i]) && ReportsPostponed(log[j]) ==>
          StoredBetween(log, i, j))
    && (forall j :: 0 <= j < |log| && log[j].ClearTransition? ==> ReportedBefore(log, j))
  }

  /** Every earlier report is followed by a storing, before the end of the log. */
  predicate StoredSinceReports(log: seq<Call>) {
    forall i :: 0 <= i < |log| && ReportsPostponed(log[i]) ==> StoredBetween(log, i, |log|)
  }

  /** What the slot says about the log read so far. */
  predicate SlotMeans(log: seq<Call>, slot: Slot) {
    && slot != Broken
    && (slot == Waiting ==> StoredSinceReports(log))
    && (slot == Told ==> ReportedBefore(log, |log|))
  }

  lemma StoredBetweenGrows(front: seq<Call>, c: Call, i: int, j: int)
    requires 0 <= i < j <= |front| && StoredBetween(front, i, j)
    ensures StoredBetween(front + [c], i, j) && StoredBetween(front + [c], i, |front| + 1)
  {
    var n :| i < n < j && 0 <= n < |front| && front[n].StoreTransition?;
    assert (front + [c])[n].StoreTransition?;
  }

  lemma StoredNow(front: seq<Call>, c: Call, i: int)
    requires 0 <= i < |front| && c.StoreTransition?
    ensures StoredBetween(front + [c], i, |front| + 1)
  {
    assert (front + [c])[|front|].StoreTransition?;
  }

  lemma ReportedBeforeGrows(front: seq<Call>, c: Call, j: int)
    requires 0 <= j <= |front| && ReportedBefore(front, j)
    ensures ReportedBefore(front + [c], j)
    ensures j == |front| && !c.ClearTransition? ==> ReportedBefore(front + [c], |front| + 1)
  {
    hide ReportsPostponed;
    var log := front + [c];
    var i :| 0 <= i < j && i < |front| && ReportsPostponed(front[i])
      && forall n :: i < n < j && n < |front| ==> !front[n].ClearTransition?;
    assert ReportsPostponed(log[i]);
  }

  lemma ReportedNow(front: seq<Call>, c: Call)
    requires ReportsPostponed(c)
    ensures ReportedBefore(front + [c], |front| + 1)
  {
    hide ReportsPostponed;
    assert (front + [c])[|front|] == c;
  }

  lemma SlotGrows(front: seq<Call>, slot: Slot, c: Call)
    requires SlotMeans(front, slot) && Next(slot, c) != Broken
    ensures SlotMeans(front + [c], Next(slot, c))
  {
    if Next(slot, c) == Waiting { WaitingGrows(front, slot, c); }
    if Next(slot, c) == Told { ToldGrows(front, slot, c); }
    hide StoredBetween, ReportedBefore, CarriesReset, Next;
  }

  lemma WaitingGrows(front: seq<Call>, slot: Slot, c: Call)
    requires SlotMeans(front, slot) && Next(slot, c) == Waiting
    ensures StoredSinceReports(front + [c])
  {
    var log := front + [c];
    assert slot == Waiting || c.StoreTransition?;
    assert !ReportsPostponed(c);
    hide StoredBetween, ReportedBefore, CarriesReset, ReportsPostponed, Next;
    forall i | 0 <= i < |log| && ReportsPostponed(log[i]) ensures StoredBetween(log, i, |log|) {
      assert i < |front| && log[i] == front[i];
      if c.StoreTransition? { StoredNow(front, c, i); } else { StoredBetweenGrows(front, c, i, |front|); }
    }
  }

  lemma ToldGrows(front: seq<Call>, slot: Slot, c: Call)
    requires SlotMeans(front, slot) && Next(slot, c) == Told
    ensures ReportedBefore(front + [c], |front| + 1)
  {
    hide StoredBetween, ReportedBefore, CarriesReset;
    if slot == Told { ReportedBeforeGrows(front, c, |front|); } else { ReportedNow(front, c); }
  }

  /** Two reports in the longer log: a transition was stored between them. */
  lemma StoredBetweenReports(front: seq<Call>, slot: Slot, c: Call, i: int, j: int)
    requires SlotMeans(front, slot) && Conserved(front) && Next(slot, c) != Broken
    requires var log := front + [c]; 0 <= i < j < |log| && ReportsPostponed(log[i]) && ReportsPostponed(log[j])
    ensures StoredBetween(front + [c], i, j)
  {
    hide StoredBetween, ReportedBefore, CarriesReset;
    assert (front + [c])[i] == front[i];
    if j < |front| {
      assert (front + [c])[j] == front[j];
      StoredBetweenGrows(front, c, i, j);
    } else {
      assert slot == Waiting;
      StoredUpTo(front, c, i);
    }
  }

  /** What was stored before the end of the log was stored before the next call. */
  lemma StoredUpTo(front: seq<Call>, c: Call, i: int)
    requires 0 <= i && StoredBetween(front, i, |front|)
    ensures StoredBetween(front + [c], i, |front|)
  {
    var n :| i < n < |front| && 0 <= n < |front| && front[n].StoreTransition?;
    assert (front + [c])[n].StoreTransition?;
  }

  lemma ClearedAfterReport(front: seq<Call>, slot: Slot, c: Call, j: int)
    requires SlotMeans(front, slot) && Conserved(front) && Next(slot, c) != Broken
    requires 0 <= j < |front + [c]| && (front + [c])[j].ClearTransition?
    ensures ReportedBefore(front + [c], j)
  {
    hide StoredBetween, ReportedBefore, CarriesReset, ReportsPostponed;
    if j < |front| {
      assert (front + [c])[j] == front[j];
      ReportedBeforeGrows(front, c, j);
    } else {
      assert slot == Told;
      ReportedBeforeGrows(front, c, |front|);
    }
  }

  lemma ReportCarriesReset(front: seq<Call>, slot: Slot, c: Call, i: int)
    requires Conserved(front) && Next(slot, c) != Broken
    requires 0 <= i < |front + [c]| && ReportsPostponed((front + [c])[i])
    ensures CarriesReset((front + [c])[i])
  {
    hide StoredBetween, ReportedBefore, CarriesReset;
    if i < |front| { assert (front + [c])[i] == front[i]; }
  }

  lemma MeaningGrows(front: seq<Call>, slot: Slot, c: Call)
    requires SlotMeans(front, slot) && Conserved(front) && Next(slot, c) != Broken
    ensures SlotMeans(front + [c], Next(slot, c)) && Conserved(front + [c])
  {
    var log := front + [c];
    SlotGrows(front, slot, c);
    forall i | 0 <= i < |log| && ReportsPostponed(log[i]) ensures CarriesReset(log[i]) {
      ReportCarriesReset(front, slot, c, i);
    }
    forall i, j | 0 <= i < j < |log| && ReportsPostponed(log[i]) && ReportsPostponed(log[j]) ensures StoredBetween(log, i, j) {
      StoredBetweenReports(front, slot, c, i, j);
    }
    forall j | 0 <= j < |log| && log[j].ClearTransition? ensures ReportedBefore(log, j) {
      ClearedAfterReport(front, slot, c, j);
    }
    hide SlotMeans, StoredBetween, ReportedBefore, CarriesReset, ReportsPostponed, Next;
  }

  lemma {:induction false} AcceptedMeans(slot: Slot, log: seq<Call>)
    requires slot != Told && Fold(Next, slot, log) != Broken
    ensures SlotMeans(log, Fold(Next, slot, log)) && Conserved(log)
  {
    if log != [] {
      var front, c := log[..|log| - 1], log[|log| - 1];
      assert log == front + [c];
      AcceptedMeans(slot, front);
      MeaningGrows(front, Fold(Next, slot, front), c);
    }
    hide SlotMeans, Conserved;
  }

  /** In every run, from whatever the store held at the beginning, postponed
      transitions are conserved; and after every operation the store holds one exactly
      when the calls say that one is waiting. */
  lemma PostponedConserved(k: Setup, s: State, ops: seq<Op>)
    requires KeysApart(k)
    ensures Conserved(Log(k, s, ops))
    ensures Fold(Next, SlotOf(s.users), Log(k, s, ops)) == SlotOf(Run(k, s, ops).users)
  {
    hide StepsKeep, Conserved, Run, Log, Fold, Next;
    PostponedSteps(k);
    RunKeeps(Next, Agree, Always, k, s, SlotOf(s.users), ops);
    AcceptedMeans(SlotOf(s.users), Log(k, s, ops));
  }

  /** A waiting transition is overwritten, and so never reported, exactly when the
      next user applied takes the reset path too; otherwise that user's report, if
      there is anything to report, is the one that tells and clears it. */
  lemma WaitingTransitionLostIff(k: Setup, u: Users, user: User, e: UserEnv)
    requires u.postponed.Some?
    ensures var calls := ApplyUserCalls(k, u, user, e);
            && (TakesResetPath(k, e) <==> Call.StoreTransition(e.transition) in calls)
            && (!TakesResetPath(k, e) && ReportsUser(e) <==> UserReportCall(k, e, true) in calls)
            && (!TakesResetPath(k, e) && !ReportsUser(e) ==> ApplyUser(k, u, user, e).postponed == u.postponed)
  {
    hide ReportLabels;
  }

  /** It happens: a sign-in and the sign-out after it both reset the device id, and the
      sign-in is never reported. */
  lemma LostTransitionExample(k: Setup, s: State, user: User, first: UserEnv, second: UserEnv)
    requires IsFresh(s) && s.echoEnabled && k.idv5Enabled
    requires TakesResetPath(k, first) && first.transition == SignIn
    requires TakesResetPath(k, second) && second.transition == SignOut
    ensures var started := After(k, s, Op.Start(first));
            && started.users.postponed == Some(SignIn)
            && After(k, started, SetBBCUser(user, second)).users.postponed == Some(SignOut)
            && forall c :: c in Calls(k, s, Op.Start(first)) + Calls(k, started, SetBBCUser(user, second)) ==>
                 !c.UserAction?
  {
    hide ResetUserData;
    ResetReportsNothing(k, s.users, s.users.pending.value, first);
    ResetReportsNothing(k, After(k, s, Op.Start(first)).users, user, second);
    hide ApplyUser, ApplyUserCalls;
  }

  lemma ResetReportsNothing(k: Setup, u: Users, user: User, e: UserEnv)
    requires TakesResetPath(k, e)
    ensures ApplyUser(k, u, user, e).postponed == Some(e.transition)
    ensures forall c :: c in ApplyUserCalls(k, u, user, e) ==> !c.UserAction?
  {}
}
