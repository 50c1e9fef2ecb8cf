/** With live media, the positions callers pass do not matter. */
module NonInterference {
  import opened EchoTypes
  import opened Labels
  import opened Machine
  import opened Folds

  /** The operation with the caller's position erased. */
  function Blind(op: Op): Op {
    match op
    case Play(_, labels) => Op.Play(0, labels)
    case Navigate(kind, _, labels) => Op.Navigate(kind, 0, labels)
    case AvUserAction(actionType, actionName, _, labels) => Op.AvUserAction(actionType, actionName, 0, labels)
    case SendHeartbeat(name, _) => Op.SendHeartbeat(name, 0)
    case _ => op
  }

  /** Whatever is playing is live and has a broker, and the next media will too. */
  predicate LiveWithBroker(s: State) {
    s.av.hasPlayer && (s.av.media.Some? ==> s.av.media.value.IsLive() && s.av.broker.Some?)
  }

  /** Only live media is set, with a broker made for it, and brokers call back only while current. */
  predicate LiveOnly(s: State, op: Op) {
    && (op.SetMedia? ==> op.media.IsLive() && op.brokerMade)
    && (op.LiveMediaUpdate? ==> op.media.IsLive() && s.av.broker.Some?)
  }

  lemma {:induction false} PositionIgnored(k: Setup, s: State, op: Op)
    requires LiveWithBroker(s)
    ensures After(k, s, op) == After(k, s, Blind(op)) && Calls(k, s, op) == Calls(k, s, Blind(op))
  {
    if op.Play? || op.Navigate? || op.AvUserAction? || op.SendHeartbeat? {
      hide SanitiseOptional, NavigationCall, Mark, Navigated;
    }
  }

  lemma MediaKeepsLive(k: Setup, s: State, op: Op)
    requires LiveWithBroker(s) && LiveOnly(s, op)
    requires op.SetMedia? || op.Disable? || op.SetMediaLength? || op.LiveMediaUpdate? || op.PlayheadMoves?
    ensures LiveWithBroker(After(k, s, op))
  {
    hide PlayMedia, Mark, Navigated, SetUser, SetPending, Fired;
  }

  lemma PlaybackKeepsLive(k: Setup, s: State, op: Op)
    requires LiveWithBroker(s) && Playback(op)
    ensures LiveWithBroker(After(k, s, op))
  {
    hide OpenMedia, CloseMedia, SetUser, SetPending, Fired, SanitiseOptional;
  }

  /** Nothing else touches the playback session, but for the player delegate. */
  lemma RestKeepsLive(k: Setup, s: State, op: Op)
    requires LiveWithBroker(s) && !Playback(op)
    requires !op.SetMedia? && !op.Disable? && !op.SetMediaLength? && !op.LiveMediaUpdate? && !op.PlayheadMoves?
    ensures LiveWithBroker(After(k, s, op))
  {
    hide OpenMedia, CloseMedia, PlayMedia, Mark, Navigated, SetUser, SetPending, Fired;
  }

  lemma {:induction false} StepKeepsLive(k: Setup, s: State, op: Op)
    requires LiveWithBroker(s) && LiveOnly(s, op)
    ensures LiveWithBroker(After(k, s, op))
  {
    if op.SetMedia? || op.Disable? || op.SetMediaLength? || op.LiveMediaUpdate? || op.PlayheadMoves? {
      MediaKeepsLive(k, s, op);
    } else if Playback(op) {
      PlaybackKeepsLive(k, s, op);
    } else {
      RestKeepsLive(k, s, op);
    }
    hide After, LiveWithBroker, LiveOnly;
  }

  /** Two runs over live media that differ only in the positions the callers pass
      leave the client in the same state and the delegates with the same log. */
  lemma {:induction false} CallerPositionsDoNotInterfere(k: Setup, s: State, one: seq<Op>, other: seq<Op>)
    requires LiveWithBroker(s) && Along(k, s, one, LiveOnly)
    requires |one| == |other| && forall i :: 0 <= i < |one| ==> Blind(one[i]) == Blind(other[i])
    ensures Run(k, s, one) == Run(k, s, other) && Log(k, s, one) == Log(k, s, other)
    ensures LiveWithBroker(Run(k, s, one))
  {
    hide After, Calls, LiveOnly, Blind;
    if one != [] {
      var n := |one| - 1;
      AlongFront(k, s, one, LiveOnly);
      assert LiveOnly(Run(k, s, one[..n]), one[n]);
      CallerPositionsDoNotInterfere(k, s, one[..n], other[..n]);
      var t := Run(k, s, one[..n]);
      StepKeepsLive(k, t, one[n]);
      PositionIgnored(k, t, one[n]);
      PositionIgnored(k, t, other[n]);
    }
  }

  /** The exact reach of this for a single play of live media: the caller's position
      is ignored if, and only if, there is a broker or the play is held back. */
  lemma PlayIgnoresPositionIff(k: Setup, s: State, labels: Option<Dict>)
    requires Reports(s) && s.av.media.value.IsLive()
    ensures (forall p, q :: PlayCalls(k, s, p, labels) == PlayCalls(k, s, q, labels))
            <==> s.av.broker.Some? || Holds(s.av)
  {
    hide SanitiseOptional;
    if !(s.av.broker.Some? || Holds(s.av)) {
      assert PlayCalls(k, s, 0, labels)[0] != PlayCalls(k, s, 1, labels)[0];
    }
  }
}
