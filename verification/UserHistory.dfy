/** Every user accounted for, over all runs, those included in which a user's report
    is postponed and the user comes back: who waits, who is given to the user store
    and when, and when the last user handed over is not the one stored. */
module UserHistory {
  import opened EchoTypes
  import opened Machine
  import opened Folds
  import opened UserUpdates

  predicate TurnsOn(k: Setup, s: State, op: Op) { !EventsOn(s) && EventsOn(After(k, s, op)) }

  /** A user handed over while events are off has to wait, in place of any other. */
  predicate Parks(s: State, op: Op) { op.SetBBCUser? && !EventsOn(s) }

  /** A user taken while events are on is applied in full: the user feature is on, and
      the report need not be postponed. */
  predicate AppliesFully(k: Setup, e: UserEnv) { k.idv5Enabled && !TakesResetPath(k, e) }

  /** Nobody waits any longer: a user was applied in full, or a client that had started
      before was switched on again. */
  predicate Settles(k: Setup, s: State, op: Op) {
    || (op.SetBBCUser? && EventsOn(s) && AppliesFully(k, op.env))
    || ((op.Start? || op.Enable?) && TurnsOn(k, s, op) && (s.hasStarted || AppliesFully(k, op.env)))
  }

  /** The client's user: the stored one, or with the user feature off the one remembered. */
  function Current(k: Setup, u: Users): Option<User> { if k.idv5Enabled then Some(u.stored) else u.previous }

  lemma ApplyUserStep(k: Setup, s: State, op: Op)
    requires op.SetBBCUser?
    ensures var t := After(k, s, op);
            && t.hasStarted == s.hasStarted && EventsOn(t) == EventsOn(s)
            && (if EventsOn(s) then Current(k, t.users) == Some(op.user) else Current(k, t.users) == Current(k, s.users))
            && t.users.pending == if Parks(s, op) then Some(op.user) else if Settles(k, s, op) then None else s.users.pending
  {
    ApplyStores(k, s.users, op.user, op.env);
    hide ApplyUser;
  }

  lemma TurnOnStep(k: Setup, s: State, op: Op)
    requires op.Start? || op.Enable?
    ensures var t := After(k, s, op);
            if TurnsOn(k, s, op) then
              && t.hasStarted
              && Current(k, t.users) == (if s.users.pending.Some? then s.users.pending else Current(k, s.users))
              && t.users.pending == (if Settles(k, s, op) then None else s.users.pending)
            else t.users == s.users && t.hasStarted == s.hasStarted && !Settles(k, s, op)
                 && (EventsOn(t) ==> EventsOn(s))
  {
    if s.users.pending.Some? { ApplyStores(k, s.users, s.users.pending.value, op.env); }
    hide ApplyUser;
  }

  lemma RestStep(k: Setup, s: State, op: Op)
    requires !op.SetBBCUser? && !op.Start? && !op.Enable?
    ensures UsersUntouched(k, s, op) && After(k, s, op).users.previous == s.users.previous
    ensures After(k, s, op).hasStarted == s.hasStarted
    ensures !TurnsOn(k, s, op) && !Parks(s, op) && !Settles(k, s, op)
  {
    hide OpenMedia, CloseMedia, PlayMedia, Mark, Navigated, SetLength;
  }

  /** What one operation does to users, whatever the operation. */
  lemma {:induction false} StepUsers(k: Setup, s: State, op: Op)
    ensures var t := After(k, s, op);
            && t.users.pending == (if Parks(s, op) then Some(op.user) else if Settles(k, s, op) then None else s.users.pending)
            && Current(k, t.users) == (if op.SetBBCUser? && EventsOn(s) then Some(op.user)
                                       else if TurnsOn(k, s, op) && s.users.pending.Some? then s.users.pending
                                       else Current(k, s.users))
            && (s.hasStarted ==> t.hasStarted)
            && (t.hasStarted && !s.hasStarted ==> TurnsOn(k, s, op))
            && (op.SetBBCUser? ==> !TurnsOn(k, s, op))
  {
    if op.SetBBCUser? { ApplyUserStep(k, s, op); }
    else if op.Start? || op.Enable? { TurnOnStep(k, s, op); }
    else { RestStep(k, s, op); }
    hide After, Settles;
  }

  // ---- who waits -----------------------------------------------------------------------

  predicate ParksAt(k: Setup, s: State, ops: seq<Op>, i: int)
    requires 0 <= i < |ops|
  {
    Parks(Run(k, s, ops[..i]), ops[i])
  }

  predicate SettlesAt(k: Setup, s: State, ops: seq<Op>, i: int)
    requires 0 <= i < |ops|
  {
    Settles(k, Run(k, s, ops[..i]), ops[i])
  }

  /** The user who began to wait at moment `i`; the constructor's user is that of moment -1. */
  predicate BeginsToWait(k: Setup, s: State, ops: seq<Op>, i: int, user: User)
    requires -1 <= i < |ops|
  {
    if i == -1 then s.users.pending == Some(user) else ParksAt(k, s, ops, i) && ops[i].user == user
  }

  /** `user` began to wait at `i`, and since then nobody took the place and nothing settled it. */
  predicate WaitsSince(k: Setup, s: State, ops: seq<Op>, i: int, user: User)
    requires -1 <= i < |ops|
  {
    && BeginsToWait(k, s, ops, i, user)
    && forall j :: i < j < |ops| ==> !ParksAt(k, s, ops, j) && !SettlesAt(k, s, ops, j)
  }

  predicate Waits(k: Setup, s: State, ops: seq<Op>, user: User) {
    exists i :: -1 <= i < |ops| && WaitsSince(k, s, ops, i, user)
  }

  lemma SameMoments(k: Setup, s: State, ops: seq<Op>, n: nat, i: nat)
    requires i < n <= |ops|
    ensures ParksAt(k, s, ops[..n], i) == ParksAt(k, s, ops, i)
    ensures SettlesAt(k, s, ops[..n], i) == SettlesAt(k, s, ops, i)
  {
    hide Run, Parks, Settles;
    assert ops[..n][..i] == ops[..i];
  }

  lemma SameBeginning(k: Setup, s: State, ops: seq<Op>, n: nat, i: int, user: User)
    requires n <= |ops| && -1 <= i < n
    ensures BeginsToWait(k, s, ops[..n], i, user) == BeginsToWait(k, s, ops, i, user)
  {
    if i >= 0 { SameMoments(k, s, ops, n, i); }
    hide ParksAt;
  }

  lemma WaitsGrows(k: Setup, s: State, ops: seq<Op>, user: User)
    requires ops != []
    ensures var n := |ops| - 1;
            Waits(k, s, ops, user) <==>
            if ParksAt(k, s, ops, n) then ops[n].user == user
            else !SettlesAt(k, s, ops, n) && Waits(k, s, ops[..n], user)
  {
    hide ParksAt, SettlesAt, BeginsToWait;
    var n := |ops| - 1;
    var front := ops[..n];
    forall i | 0 <= i < n
      ensures ParksAt(k, s, front, i) == ParksAt(k, s, ops, i) && SettlesAt(k, s, front, i) == SettlesAt(k, s, ops, i)
    {
      SameMoments(k, s, ops, n, i);
    }
    forall i | -1 <= i < n ensures BeginsToWait(k, s, front, i, user) == BeginsToWait(k, s, ops, i, user) {
      SameBeginning(k, s, ops, n, i, user);
    }
    BeginsIsParks(k, s, ops, n, user);
    if Waits(k, s, front, user) && !ParksAt(k, s, ops, n) && !SettlesAt(k, s, ops, n) {
      var i :| -1 <= i < n && WaitsSince(k, s, front, i, user);
      assert WaitsSince(k, s, ops, i, user);
    }
    if BeginsToWait(k, s, ops, n, user) {
      assert WaitsSince(k, s, ops, n, user);
    }
    if Waits(k, s, ops, user) {
      var i :| -1 <= i < |ops| && WaitsSince(k, s, ops, i, user);
      if i < n { assert WaitsSince(k, s, front, i, user); }
    }
  }

  lemma BeginsIsParks(k: Setup, s: State, ops: seq<Op>, i: nat, user: User)
    requires i < |ops|
    ensures BeginsToWait(k, s, ops, i, user) <==> ParksAt(k, s, ops, i) && ops[i].user == user
  {}

  /** The field kept for the waiting user is the history of the run. */
  lemma {:induction false} WaitingIsHistory(k: Setup, s: State, ops: seq<Op>, user: User)
    ensures Run(k, s, ops).users.pending == Some(user) <==> Waits(k, s, ops, user)
  {
    if ops == [] {
      assert Waits(k, s, ops, user) <==> WaitsSince(k, s, ops, -1, user);
    } else {
      var n := |ops| - 1;
      WaitingIsHistory(k, s, ops[..n], user);
      WaitsGrows(k, s, ops, user);
      StepUsers(k, Run(k, s, ops[..n]), ops[n]);
      hide Waits, After, Settles;
    }
  }

  // ---- who is given to the store ---------------------------------------------------------

  function GivenInTurn(k: Setup, s: State, ops: seq<Op>): seq<User> {
    if ops == [] then [] else
      var front, op := ops[..|ops| - 1], ops[|ops| - 1];
      GivenInTurn(k, s, front) + AsSeq(Applied(k, Run(k, s, front), op))
  }

  lemma {:induction false} StoreIsGivenInTurn(k: Setup, s: State, ops: seq<Op>)
    ensures Fold(Given, [], Log(k, s, ops)) == GivenInTurn(k, s, ops)
  {
    hide Calls, After, Applied;
    if ops != [] {
      var front, op := ops[..|ops| - 1], ops[|ops| - 1];
      StoreIsGivenInTurn(k, s, front);
      StepGives(k, Run(k, s, front), op, Fold(Given, [], Log(k, s, front)));
      FoldConcat(Given, [], Log(k, s, front), Calls(k, Run(k, s, front), op));
      hide Fold;
    }
  }

  lemma AppliedIff(k: Setup, s: State, op: Op, user: User)
    ensures Applied(k, s, op) == Some(user) <==>
            k.idv5Enabled
            && ((op.SetBBCUser? && EventsOn(s) && op.user == user) || (TurnsOn(k, s, op) && s.users.pending == Some(user)))
  {
    if op.SetBBCUser? { ApplyUserStep(k, s, op); }
    else if op.Start? || op.Enable? { TurnOnStep(k, s, op); }
    else { RestStep(k, s, op); }
    hide SetUser, SetPending;
  }

  /** Every user accounted for. Over any run, the users given to the store are, in order,
      those applied at each operation; and an operation applies a user if, and only if,
      the user feature is on and it hands that user over while events are on, or it
      turns events on while that user has been waiting. A user whose report was
      postponed may thus be given again; one replaced while waiting never is. */
  lemma EveryUserAccountedFor(k: Setup, s: State, ops: seq<Op>, n: nat, user: User)
    requires n < |ops|
    ensures Fold(Given, [], Log(k, s, ops)) == GivenInTurn(k, s, ops)
    ensures var t := Run(k, s, ops[..n]);
            Applied(k, t, ops[n]) == Some(user) <==>
            k.idv5Enabled
            && ((ops[n].SetBBCUser? && EventsOn(t) && ops[n].user == user)
                || (TurnsOn(k, t, ops[n]) && Waits(k, s, ops[..n], user)))
  {
    StoreIsGivenInTurn(k, s, ops);
    WaitingIsHistory(k, s, ops[..n], user);
    AppliedIff(k, Run(k, s, ops[..n]), ops[n], user);
    hide Run, Waits, Applied, TurnsOn, Fold;
  }

  // ---- last write wins, exactly when ---------------------------------------------------------

  /** The last user handed over, the constructor's included. */
  function Latest(s: State, ops: seq<Op>): User
    requires s.users.pending.Some?
  {
    if ops == [] then s.users.pending.value
    else if ops[|ops| - 1].SetBBCUser? then ops[|ops| - 1].user
    else Latest(s, ops[..|ops| - 1])
  }

  /** Events come on at `j` while someone other than the last user handed over waits. */
  predicate BringsBackAt(k: Setup, s: State, ops: seq<Op>, j: int)
    requires s.users.pending.Some? && 0 <= j < |ops|
  {
    var t := Run(k, s, ops[..j]);
    TurnsOn(k, t, ops[j]) && t.users.pending.Some? && t.users.pending.value != Latest(s, ops[..j])
  }

  predicate Overtaken(k: Setup, s: State, ops: seq<Op>)
    requires s.users.pending.Some?
  {
    exists j :: 0 <= j < |ops| && BringsBackAt(k, s, ops, j) && forall n :: j < n < |ops| ==> !ops[n].SetBBCUser?
  }

  lemma SameBringing(k: Setup, s: State, ops: seq<Op>, n: nat, j: nat)
    requires s.users.pending.Some? && j < n <= |ops|
    ensures BringsBackAt(k, s, ops[..n], j) == BringsBackAt(k, s, ops, j)
  {
    hide Run, TurnsOn, Latest;
    assert ops[..n][..j] == ops[..j];
  }

  lemma OvertakenGrows(k: Setup, s: State, ops: seq<Op>)
    requires s.users.pending.Some? && ops != []
    ensures var n := |ops| - 1;
            Overtaken(k, s, ops) <==>
            BringsBackAt(k, s, ops, n) || (Overtaken(k, s, ops[..n]) && !ops[n].SetBBCUser?)
  {
    hide BringsBackAt;
    var n := |ops| - 1;
    var front := ops[..n];
    forall j | 0 <= j < n ensures BringsBackAt(k, s, front, j) == BringsBackAt(k, s, ops, j) {
      SameBringing(k, s, ops, n, j);
    }
    if Overtaken(k, s, front) && !ops[n].SetBBCUser? {
      var j :| 0 <= j < n && BringsBackAt(k, s, front, j) && forall m :: j < m < n ==> !front[m].SetBBCUser?;
      assert BringsBackAt(k, s, ops, j);
    }
    if Overtaken(k, s, ops) && !BringsBackAt(k, s, ops, n) {
      var j :| 0 <= j < |ops| && BringsBackAt(k, s, ops, j) && forall m :: j < m < |ops| ==> !ops[m].SetBBCUser?;
      assert BringsBackAt(k, s, front, j);
    }
  }

  /** Either the latest user still waits, or it is the client's user unless overtaken. */
  predicate Kept(k: Setup, t: State, latest: User, overtaken: bool) {
    && (!t.hasStarted ==> t.users.pending == Some(latest))
    && (overtaken ==> t.users.pending.None?)
    && ((t.users.pending == Some(latest) && !EventsOn(t)) || (Current(k, t.users) == Some(latest) <==> !overtaken))
  }

  lemma {:induction false} StepKeepsLatest(k: Setup, s: State, op: Op, latest: User, overtaken: bool)
    requires Kept(k, s, latest, overtaken)
    ensures var now := if op.SetBBCUser? then op.user else latest;
            var brings := TurnsOn(k, s, op) && s.users.pending.Some? && s.users.pending.value != latest;
            Kept(k, After(k, s, op), now, brings || (overtaken && !op.SetBBCUser?))
  {
    StepUsers(k, s, op);
    if op.SetBBCUser? { ApplyUserStep(k, s, op); }
    else if op.Start? || op.Enable? { TurnOnStep(k, s, op); }
    else { RestStep(k, s, op); }
    hide After;
  }

  lemma {:induction false} RunKeepsLatest(k: Setup, s: State, ops: seq<Op>)
    requires IsFresh(s)
    ensures Kept(k, Run(k, s, ops), Latest(s, ops), Overtaken(k, s, ops))
  {
    if ops != [] {
      var n := |ops| - 1;
      RunKeepsLatest(k, s, ops[..n]);
      OvertakenGrows(k, s, ops);
      StepKeepsLatest(k, Run(k, s, ops[..n]), ops[n], Latest(s, ops[..n]), Overtaken(k, s, ops[..n]));
      hide After, Overtaken, Kept, TurnsOn;
    }
  }

  /** Last write wins, exactly when: the user of a client with events on is the last one
      ever handed over if, and only if, events have not come on since then for someone
      else who had been waiting. */
  lemma LastWriteWinsIff(k: Setup, s: State, ops: seq<Op>)
    requires IsFresh(s)
    ensures EventsOn(Run(k, s, ops)) ==>
              (Current(k, Run(k, s, ops).users) == Some(Latest(s, ops)) <==> !Overtaken(k, s, ops))
  {
    RunKeepsLatest(k, s, ops);
    hide Run, Latest, Overtaken;
  }
}
