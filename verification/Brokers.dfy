/** Which broker may be running, and which marks the current media may carry. */
module Brokers {
  import opened EchoTypes
  import opened Machine
  import opened Folds

  /** Every broker ever made, in order of creation. */
  function AllBrokers(a: Av): seq<BrokerInfo> {
    a.droppedBrokers + (if a.broker.Some? then [a.broker.value] else [])
  }

  predicate AllStopped(brokers: seq<BrokerInfo>) { forall i :: 0 <= i < |brokers| ==> !brokers[i].running }

  predicate Owned(s: State) {
    && AllStopped(s.av.droppedBrokers)
    && (s.av.broker.Some? && s.av.broker.value.running ==> s.echoEnabled && s.av.media.Some?)
    && (!s.echoEnabled ==> s.av.broker.None?)
  }

  lemma CloseKeeps(a: Av)
    requires AllStopped(a.droppedBrokers)
    ensures var t := CloseMedia(a);
            AllStopped(t.droppedBrokers) && t.broker.None? && |AllBrokers(t)| == |AllBrokers(a)|
  {}

  lemma OpenKeeps(k: Setup, a: Av, media: MediaInfo, made: bool)
    requires AllStopped(a.droppedBrokers)
    ensures var t := OpenMedia(k, a, media, made);
            && AllStopped(t.droppedBrokers)
            && (t.broker.Some? ==> !t.broker.value.running)
            && |AllBrokers(t)| == |AllBrokers(a)| + (if a.hasPlayer && made then 1 else 0)
  {
    CloseKeeps(a);
  }

  lemma {:induction false} StepKeepsOwned(k: Setup, s: State, op: Op)
    requires Owned(s)
    ensures Owned(After(k, s, op))
  {
    hide SetUser, SetPending, Fired, CloseMedia, OpenMedia, AllStopped;
    if op.Disable? { CloseKeeps(s.av); }
    if op.SetMedia? { OpenKeeps(k, s.av, op.media, op.brokerMade); }
  }

  /** In every run, at most one of all the brokers ever made is running, and it is
      the client's current one; a running broker means Echo is on and media is set;
      a client that is off holds no broker. */
  lemma OnlyTheCurrentBrokerRuns(k: Setup, s: State, ops: seq<Op>)
    requires Owned(s)
    ensures var t := Run(k, s, ops);
            var all := AllBrokers(t.av);
            && (forall i :: 0 <= i < |all| && all[i].running ==>
                  i == |all| - 1 && t.av.broker == Some(all[i]) && t.echoEnabled && t.av.media.Some?)
            && (!t.echoEnabled ==> t.av.broker.None?)
  {
    hide After;
    forall t, op | Owned(t) && Always(t, op) ensures Owned(After(k, t, op)) { StepKeepsOwned(k, t, op); }
    StateRunKeeps(Owned, Always, k, s, ops);
  }

  // ---- playing and buffering ------------------------------------------------------------

  predicate Marked(media: MediaInfo) { !(media.isPlaying && media.isBuffering) }

  predicate MediaMarked(s: State) { s.av.media.Some? ==> Marked(s.av.media.value) }

  /** Media handed to the client does not start out both playing and buffering. */
  predicate BringsMarked(s: State, op: Op) {
    (op.SetMedia? ==> Marked(op.media)) && (op.LiveMediaUpdate? ==> Marked(op.media))
  }

  lemma {:induction false} StepKeepsMarks(k: Setup, s: State, op: Op)
    requires MediaMarked(s) && BringsMarked(s, op)
    ensures MediaMarked(After(k, s, op))
  {
    hide SetUser, SetPending, Fired;
  }

  /** No interleaving of plays, pauses, buffers and callbacks leaves the current
      media both playing and buffering. */
  lemma {:induction false} NeverPlayingAndBuffering(k: Setup, s: State, ops: seq<Op>)
    requires s.av.media.None? && Along(k, s, ops, BringsMarked)
    ensures MediaMarked(Run(k, s, ops))
  {
    hide After;
    forall t, op | MediaMarked(t) && BringsMarked(t, op) ensures MediaMarked(After(k, t, op)) {
      StepKeepsMarks(k, t, op);
    }
    StateRunKeeps(MediaMarked, BringsMarked, k, s, ops);
  }
}
