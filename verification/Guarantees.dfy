/** The theorems about runs, said about a client object: wherever a run of calls has
    taken it, this is what each of its delegates has heard. */
module Guarantees {
  import opened EchoTypes
  import opened Machine
  import opened Folds
  import opened Client
  import Session
  import Discipline
  import Brokers
  import History
  import Timers

  lemma EveryDelegateHearsSessions(client: EchoClient, origin: State, ops: seq<Op>, d: Delegate)
    requires client.Valid() && client.At(origin, ops) && IsFresh(origin) && d in client.delegates
    requires Along(client.setup, origin, ops, Session.QueriesBetweenMedia)
    ensures Session.Read(d.heard) == if client.media != null then Session.HasMedia else Session.NoMedia
    ensures forall n :: 0 <= n <= |d.heard| ==> Session.Read(d.heard[..n]) != Session.Rejected
  {
    hide Run, Log, Heard, Along, Session.Read;
    Session.SessionRefinement(client.setup, origin, ops);
  }

  lemma EveryDelegateHearsDisciplinedCalls(client: EchoClient, origin: State, ops: seq<Op>, d: Delegate)
    requires client.Valid() && client.At(origin, ops) && IsFresh(origin) && d in client.delegates
    ensures Discipline.Disciplined(origin.echoEnabled, d.heard)
    ensures client.mediaActive <==> Discipline.PlayOpen(d.heard)
    ensures client.hasStarted <==> Discipline.Contains(d.heard, Discipline.IsStart)
    ensures client.cacheMode == Fold(Discipline.LastMode, origin.cacheMode, d.heard)
  {
    hide Run, Log, Heard, Fold, Discipline.Disciplined, Discipline.PlayOpen, Discipline.Contains;
    Discipline.EveryRunIsDisciplined(client.setup, origin, ops);
  }

  /** While a play delivered to a delegate has not been ended, the client's cache mode
      is the one the delegate had been told before that play. */
  lemma CacheModeHeldWhilePlaying(client: EchoClient, origin: State, ops: seq<Op>, d: Delegate, i: nat)
    requires client.Valid() && client.At(origin, ops) && IsFresh(origin) && d in client.delegates
    requires i < |d.heard| && d.heard[i].AvPlay? && forall n :: i < n < |d.heard| ==> !d.heard[n].AvEnd?
    ensures client.cacheMode == Fold(Discipline.LastMode, origin.cacheMode, d.heard[..i])
  {
    hide Run, Log, Heard, Fold;
    Discipline.CacheModeHeldWhilePlaying(client.setup, origin, ops, i);
  }

  /** Of all broker objects the client ever made, the one that may be running is its own
      current one, and only while Echo is on and media is set. */
  lemma OnlyTheClientsBrokerRuns(client: EchoClient, origin: State, ops: seq<Op>)
    requires client.Valid() && client.At(origin, ops) && IsFresh(origin)
    ensures forall b: Broker :: b in client.Brokers() && b.running ==>
              b == client.broker && client.echoEnabled && client.media != null
    ensures !client.echoEnabled ==> client.broker == null
  {
    hide Run, Log, Heard, Client.BrokerInfos;
    Brokers.OnlyTheCurrentBrokerRuns(client.setup, origin, ops);
    var all := Brokers.AllBrokers(client.AvView());
    forall i | 0 <= i < |client.Brokers()| ensures |all| == |client.Brokers()| && all[i] == client.Brokers()[i].Info() {
      Client.BrokerInfosAt(client.droppedBrokers, i);
    }
  }

  /** Of all timer objects the client ever made, the one still armed is its current one,
      made for the remembered user, who is the user of the most recent schedule. */
  lemma OnlyTheNewestTimerIsArmed(client: EchoClient, origin: State, ops: seq<Op>)
    requires client.Valid() && client.At(origin, ops) && IsFresh(origin)
    ensures forall t: Timer :: t in client.Timers() && t.valid ==>
              t == client.timer
              && client.userForTimer == Some(t.user) == Timers.LastScheduled(client.setup, origin, ops)
  {
    hide Run, Log, Heard, Client.TimerInfos, Timers.LastScheduled;
    Timers.RunTracks(client.setup, origin, ops);
    forall i | 0 <= i < |client.oldTimers| ensures !client.oldTimers[i].valid {
      Client.TimerInfosAt(client.oldTimers, i);
    }
  }

  /** The client's broker object runs exactly when, since it was made, a play was taken, directly
      or by a release, and no navigation since; and its timer object is armed exactly when the last
      token scheduled had time left and nothing has disarmed it. */
  lemma TheBrokerRunsIff(client: EchoClient, origin: State, ops: seq<Op>)
    requires client.Valid() && client.At(origin, ops) && IsFresh(origin)
    ensures client.broker != null && client.broker.running <==>
            History.HeldSince(client.setup, origin, ops, false, History.SetsGoing, History.BringsToRest)
    ensures client.timer != null && client.timer.valid <==>
            History.HeldSince(client.setup, origin, ops, false, (t, op) => History.Arms(client.setup, t, op),
                              (t, op) => History.Disarms(client.setup, t, op))
  {
    hide Run, Log, Heard, History.HeldSince, Client.BrokerInfos, Client.TimerInfos;
    History.BrokerRunsIff(client.setup, origin, ops);
    History.TimerIsArmedIff(client.setup, origin, ops);
    assert !History.Running(origin);
  }
}
