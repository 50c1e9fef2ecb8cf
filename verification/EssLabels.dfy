/** The labels the client itself keeps on the delegates while live media plays. */
module EssLabels {
  import opened EchoTypes
  import opened Labels
  import opened Machine
  import opened Folds

  /** The persistent labels a delegate holds. */
  function Hold(held: Dict, c: Call): Dict {
    if c.AddLabels? then held + c.added
    else if c.RemoveLabels? then held - (set key | key in c.removed)
    else held
  }

  function Clean(k: Setup, key: string): string { k.cleanser.cleanKey(key) }

  function CleanAll(k: Setup, keys: seq<string>): set<string> { set key | key in keys :: Clean(k, key) }

  /** The keys reserved for the schedule service, as delegates see them. */
  function Reserved(k: Setup): set<string> { CleanAll(k, EssKeys(k)) }

  /** Reserved keys survive cleaning, and the error, the status code and the flag stay apart
      from the others. */
  predicate KeysSurvive(k: Setup) {
    && "" !in Reserved(k)
    && Clean(k, k.keys.essStatusCode) !in
       {Clean(k, k.keys.mediaTimestamp), Clean(k, k.keys.essEnabled), Clean(k, k.keys.essSuccess), Clean(k, k.keys.essError)}
    && Clean(k, k.keys.essEnabled) !in
       {Clean(k, k.keys.mediaTimestamp), Clean(k, k.keys.essSuccess), Clean(k, k.keys.essError)}
  }

  lemma SanitiseSingle(c: Cleanser, key: string, v: string)
    ensures Sanitise(c, map[key := v]) == map[c.cleanKey(key) := c.cleanValue(c.cleanKey(key), v)]
  {
    var d := map[key := v];
    var out := Sanitise(c, d);
    OwnValue(c, d, c.order(d), key);
    forall clean | clean in out ensures clean == c.cleanKey(key) {
      var from := SanitisedFrom(c, d, c.order(d), clean);
    }
  }

  lemma RemovalHold(k: Setup, key: string, held: Dict)
    requires Clean(k, key) != ""
    ensures Fold(Hold, held, RemovalCalls(k, [key])) == held - {Clean(k, key)}
  {
    assert CleanKeys(k.cleanser, []) == [] && [key][..0] == [];
    assert CleanKeys(k.cleanser, [key]) == [Clean(k, key)];
    FoldOne(Hold, held, Call.RemoveLabels([Clean(k, key)]));
    assert (set x | x in [Clean(k, key)]) == {Clean(k, key)};
  }

  lemma CleanAllGrows(k: Setup, front: seq<string>, last: string)
    ensures CleanAll(k, front + [last]) == CleanAll(k, front) + {Clean(k, last)}
  {}

  lemma MinusTwice(held: Dict, a: set<string>, b: set<string>)
    ensures held - a - b == held - (a + b)
  {}

  lemma {:induction false} RemovalsHold(k: Setup, keys: seq<string>, held: Dict)
    requires "" !in CleanAll(k, keys)
    ensures Fold(Hold, held, Removals(k, keys)) == held - CleanAll(k, keys)
  {
    if keys == [] {
      assert CleanAll(k, keys) == {};
    } else {
      var front, last := keys[..|keys| - 1], keys[|keys| - 1];
      assert keys == front + [last];
      CleanAllGrows(k, front, last);
      hide CleanAll, RemovalCalls, Hold, Clean;
      RemovalsHold(k, front, held);
      FoldConcat(Hold, held, Removals(k, front), RemovalCalls(k, [last]));
      RemovalHold(k, last, held - CleanAll(k, front));
      MinusTwice(held, CleanAll(k, front), {Clean(k, last)});
    }
  }

  lemma EssRemovalsHold(k: Setup, held: Dict)
    requires "" !in Reserved(k)
    ensures Fold(Hold, held, EssRemovals(k)) == held - Reserved(k)
  {
    RemovalsHold(k, EssKeys(k), held);
  }

  lemma AddHold(k: Setup, key: string, v: string, held: Dict)
    ensures Hold(held, AddLabelCall(k, key, v)) == held[Clean(k, key) := k.cleanser.cleanValue(Clean(k, key), v)]
  {
    SanitiseSingle(k.cleanser, key, v);
    hide Sanitise;
  }

  function Flag(k: Setup): string { k.cleanser.cleanValue(Clean(k, k.keys.essEnabled), BoolText(k.essEnabled)) }

  lemma CloseHold(k: Setup, held: Dict, last: seq<Call>)
    requires "" !in Reserved(k) && forall c :: c in last ==> !c.AddLabels? && !c.RemoveLabels?
    ensures Fold(Hold, held, CloseCalls(k) + last) == held - Reserved(k)
  {
    EssRemovalsHold(k, held);
    FoldOne(Hold, held - Reserved(k), Call.ClearMedia);
    FoldConcat(Hold, held, EssRemovals(k), [Call.ClearMedia]);
    FoldConcat(Hold, held, CloseCalls(k), last);
    FoldUnmoved(Hold, held - Reserved(k), last);
    hide EssRemovals, Reserved;
  }

  lemma OpenHold(k: Setup, a: Av, media: MediaInfo, made: bool, held: Dict)
    requires "" !in Reserved(k)
    ensures Fold(Hold, held, OpenCalls(k, a, media, made)) == (held - Reserved(k))[Clean(k, k.keys.essEnabled) := Flag(k)]
  {
    hide CloseCalls, Reserved, Sanitise, EssKeys;
    var added := [AddLabelCall(k, k.keys.essEnabled, BoolText(k.essEnabled))];
    var broker := InitBrokerCalls(k, a.(media := Some(media)), made);
    var cleared := held - Reserved(k);
    var flagged := cleared[Clean(k, k.keys.essEnabled) := Flag(k)];
    CloseHold(k, held, []);
    assert CloseCalls(k) + [] == CloseCalls(k);
    FoldOne(Hold, cleared, added[0]);
    AddHold(k, k.keys.essEnabled, BoolText(k.essEnabled), cleared);
    FoldConcat(Hold, held, CloseCalls(k), added);
    FoldUnmoved(Hold, flagged, broker);
    FoldConcat(Hold, held, CloseCalls(k) + added, broker);
    FoldOne(Hold, flagged, Call.SetMedia(media));
    FoldConcat(Hold, held, CloseCalls(k) + added + broker, [Call.SetMedia(media)]);
  }

  lemma OnlyTheFlagLeft(k: Setup, held: Dict)
    ensures var flag := Clean(k, k.keys.essEnabled);
            var now := (held - Reserved(k))[flag := Flag(k)];
            now.Keys * Reserved(k) == {flag} && now - Reserved(k) == held - Reserved(k)
  {
    assert k.keys.essEnabled in EssKeys(k);
    hide Clean, Flag, EssKeys;
  }

  /** Right after media is set, whatever happened before: the only reserved label the
      delegates hold is the flag saying whether the schedule service is on. */
  lemma OnlyTheFlagAfterSetMedia(k: Setup, s: State, media: MediaInfo, made: bool, held: Dict)
    requires s.echoEnabled && "" !in Reserved(k)
    ensures var now := Watch(Hold, k, s, held, Op.SetMedia(media, made));
            && now.Keys * Reserved(k) == {Clean(k, k.keys.essEnabled)}
            && now[Clean(k, k.keys.essEnabled)] == Flag(k)
            && now - Reserved(k) == held - Reserved(k)
  {
    OpenHold(k, s.av, media, made, held);
    OnlyTheFlagLeft(k, held);
    hide OpenCalls, Reserved, Clean, Flag, Fold;
  }

  // ---- over whole runs ----------------------------------------------------------------------

  /** Callers keep off the reserved keys, and a broker calls back only while it is current. */
  ghost predicate Considerate(k: Setup, s: State, op: Op) {
    && (op.AddLabels? ==> forall key :: key in op.added ==> Clean(k, key) !in Reserved(k))
    && (op.RemoveLabels? ==> forall key :: key in op.removed ==> Clean(k, key) !in Reserved(k))
    && (op.LiveTimestampUpdate? || op.SetEssError? || op.SetEssSuccess? ==> s.av.broker.Some?)
  }

  predicate Tidy(k: Setup, s: State, held: Dict) {
    var reserved := held.Keys * Reserved(k);
    && (!s.echoEnabled ==> s.av.broker.None? && reserved == {})
    && (s.av.broker.None? ==> reserved <= {Clean(k, k.keys.essEnabled)})
    && (Clean(k, k.keys.essEnabled) in held ==> held[Clean(k, k.keys.essEnabled)] == Flag(k))
    && (Clean(k, k.keys.essStatusCode) in held ==> Clean(k, k.keys.essError) in held)
  }

  lemma {:induction false} LeavesLabels(k: Setup, s: State, op: Op)
    requires !op.SetMedia? && !op.Disable? && !op.AddLabels? && !op.RemoveLabels?
    requires !op.LiveTimestampUpdate? && !op.SetEssError? && !op.SetEssSuccess?
    ensures forall c :: c in Calls(k, s, op) ==> !c.AddLabels? && !c.RemoveLabels?
  {
    hide SetUserCalls, PendingCalls, SanitiseOptional;
    match op
    case SetBBCUser(user, env) => SetUserOnlyAboutUser(k, EventsOn(s), s.users, user, env);
    case Start(env) => PendingOnlyAboutUser(k, s.users, env);
    case Enable(env) => PendingOnlyAboutUser(k, s.users, env);
    case _ =>
  }

  lemma {:induction false} QuietTidy(k: Setup, s: State, held: Dict, op: Op)
    requires Tidy(k, s, held)
    requires !op.SetMedia? && !op.Disable? && !op.AddLabels? && !op.RemoveLabels?
    requires !op.LiveTimestampUpdate? && !op.SetEssError? && !op.SetEssSuccess?
    ensures Tidy(k, After(k, s, op), Watch(Hold, k, s, held, op))
  {
    LeavesLabels(k, s, op);
    FoldUnmoved(Hold, held, Calls(k, s, op));
    BrokerStays(k, s, op);
    hide After, Calls, Fold;
  }

  lemma PlaybackKeepsBroker(k: Setup, a: Av, position: UInt64, labels: Option<Dict>, kind: Navigation)
    ensures PlayMedia(k, a, position, labels).broker.Some? == a.broker.Some?
    ensures Mark(kind, Navigated(a)).broker.Some? == a.broker.Some?
  {
    hide SanitiseOptional;
  }

  /** None of these operations drops or makes a broker, and none switches Echo off. */
  lemma {:induction false} BrokerStays(k: Setup, s: State, op: Op)
    requires !op.SetMedia? && !op.Disable?
    ensures var t := After(k, s, op); t.av.broker.Some? == s.av.broker.Some? && (s.echoEnabled ==> t.echoEnabled)
  {
    if op.Play? { PlaybackKeepsBroker(k, s.av, op.position, op.labels, Seek); }
    if op.Navigate? { PlaybackKeepsBroker(k, s.av, op.position, op.labels, op.kind); }
    if Releases(s) { PlaybackKeepsBroker(k, Released(s).av, s.av.broker.value.position, s.av.suppressedLabels, Seek); }
    hide SetUser, SetPending, Fired, PlayMedia, Mark, Navigated;
  }

  /** Reserved keys removed and the flag set: tidy for any client that is on. */
  lemma FlagOnly(k: Setup, held: Dict, s: State)
    requires KeysSurvive(k)
    ensures var now := (held - Reserved(k))[Clean(k, k.keys.essEnabled) := Flag(k)];
            now.Keys * Reserved(k) <= {Clean(k, k.keys.essEnabled)} && Clean(k, k.keys.essStatusCode) !in now
  {
    assert k.keys.essStatusCode in EssKeys(k);
    assert Clean(k, k.keys.essStatusCode) in Reserved(k);
  }

  lemma NoneLeft(k: Setup, held: Dict)
    ensures var now := held - Reserved(k);
            now.Keys * Reserved(k) == {}
            && Clean(k, k.keys.essEnabled) !in now && Clean(k, k.keys.essStatusCode) !in now
  {
    assert k.keys.essStatusCode in EssKeys(k) && k.keys.essEnabled in EssKeys(k);
    assert Clean(k, k.keys.essStatusCode) in Reserved(k) && Clean(k, k.keys.essEnabled) in Reserved(k);
  }

  lemma MediaTidy(k: Setup, s: State, held: Dict, op: Op)
    requires KeysSurvive(k) && Tidy(k, s, held) && (op.SetMedia? || op.Disable?)
    ensures Tidy(k, After(k, s, op), Watch(Hold, k, s, held, op))
  {
    hide OpenCalls, CloseCalls, EssKeys, CleanAll;
    if s.echoEnabled {
      if op.SetMedia? {
        OpenHold(k, s.av, op.media, op.brokerMade, held);
        FlagOnly(k, held, s);
      } else {
        CloseHold(k, held, [Call.Disable]);
        NoneLeft(k, held);
      }
    }
  }

  lemma SanitisedKeys(k: Setup, d: Dict)
    requires forall key :: key in d ==> Clean(k, key) !in Reserved(k)
    ensures Sanitise(k.cleanser, d).Keys !! Reserved(k)
  {
    forall clean | clean in Sanitise(k.cleanser, d) ensures clean !in Reserved(k) {
      var key := SanitisedFrom(k.cleanser, d, k.cleanser.order(d), clean);
    }
  }

  lemma {:induction false} CleanedKeys(k: Setup, keys: seq<string>)
    requires forall key :: key in keys ==> Clean(k, key) !in Reserved(k)
    ensures forall clean :: clean in CleanKeys(k.cleanser, keys) ==> clean !in Reserved(k)
  {
    hide Reserved;
    if keys != [] {
      var front, last := keys[..|keys| - 1], keys[|keys| - 1];
      assert last in keys && forall key :: key in front ==> key in keys;
      CleanedKeys(k, front);
    }
  }

  /** What matters to tidiness is how the reserved keys are held. */
  lemma SameReserved(k: Setup, s: State, held: Dict, now: Dict)
    requires Tidy(k, s, held)
    requires forall key :: key in Reserved(k) ==> (key in now <==> key in held) && (key in held ==> now[key] == held[key])
    ensures Tidy(k, s, now)
  {
    assert now.Keys * Reserved(k) == held.Keys * Reserved(k);
  }

  lemma AddTidy(k: Setup, s: State, held: Dict, added: Dict)
    requires Tidy(k, s, held) && forall key :: key in added ==> Clean(k, key) !in Reserved(k)
    ensures Tidy(k, s, Hold(held, Call.AddLabels(Sanitise(k.cleanser, added))))
  {
    SanitisedKeys(k, added);
    SameReserved(k, s, held, held + Sanitise(k.cleanser, added));
    hide Sanitise, Reserved, Tidy;
  }

  lemma RemoveTidy(k: Setup, s: State, held: Dict, removed: seq<string>)
    requires Tidy(k, s, held) && forall key :: key in removed ==> Clean(k, key) !in Reserved(k)
    ensures Tidy(k, s, Hold(held, Call.RemoveLabels(CleanKeys(k.cleanser, removed))))
  {
    CleanedKeys(k, removed);
    SameReserved(k, s, held, held - (set key | key in CleanKeys(k.cleanser, removed)));
    hide CleanKeys, Reserved, Tidy;
  }

  lemma CallerTidy(k: Setup, s: State, held: Dict, op: Op)
    requires Tidy(k, s, held) && Considerate(k, s, op) && (op.AddLabels? || op.RemoveLabels?)
    ensures Tidy(k, s, Fold(Hold, held, Calls(k, s, op)))
  {
    hide Hold, CleanKeys, Sanitise, Tidy, Reserved;
    if op.AddLabels? {
      AddTidy(k, s, held, op.added);
      FoldOne(Hold, held, Call.AddLabels(Sanitise(k.cleanser, op.added)));
    } else {
      RemoveTidy(k, s, held, op.removed);
      FoldOne(Hold, held, Call.RemoveLabels(CleanKeys(k.cleanser, op.removed)));
    }
  }

  lemma EssErrorHold(k: Setup, error: EssError, code: string, held: Dict)
    ensures var first := held[Clean(k, k.keys.essError) :=
                              k.cleanser.cleanValue(Clean(k, k.keys.essError), EssErrorText(k, error))];
            Fold(Hold, held, EssErrorCalls(k, error, code)) ==
            if error == StatusCode
            then first[Clean(k, k.keys.essStatusCode) := k.cleanser.cleanValue(Clean(k, k.keys.essStatusCode), code)]
            else first
  {
    var one := [AddLabelCall(k, k.keys.essError, EssErrorText(k, error))];
    var two := if error == StatusCode then [AddLabelCall(k, k.keys.essStatusCode, code)] else [];
    var h1 := Hold(held, one[0]);
    AddHold(k, k.keys.essError, EssErrorText(k, error), held);
    AddHold(k, k.keys.essStatusCode, code, h1);
    FoldOne(Hold, held, one[0]);
    if error == StatusCode { FoldOne(Hold, h1, two[0]); }
    FoldConcat(Hold, held, one, two);
    FoldConcat(Hold, held, one + two, [Call.LiveEnrichmentFailed]);
    FoldOne(Hold, Fold(Hold, held, one + two), Call.LiveEnrichmentFailed);
    hide AddLabelCall;
  }

  /** A label kept by the broker's callbacks, held while there is a broker. */
  lemma KeptTidy(k: Setup, s: State, held: Dict, key: string, v: string)
    requires KeysSurvive(k) && Tidy(k, s, held) && s.av.broker.Some?
    requires Clean(k, key) != Clean(k, k.keys.essEnabled)
    requires Clean(k, key) == Clean(k, k.keys.essStatusCode) ==> Clean(k, k.keys.essError) in held
    ensures Tidy(k, s, held[Clean(k, key) := v])
  {}

  lemma CallbackTidy(k: Setup, s: State, held: Dict, op: Op)
    requires KeysSurvive(k) && Tidy(k, s, held) && s.av.broker.Some?
    requires op.LiveTimestampUpdate? || op.SetEssError? || op.SetEssSuccess?
    ensures Tidy(k, s, Fold(Hold, held, Calls(k, s, op)))
  {
    hide AddLabelCall, EssErrorCalls, Decimal, EssErrorText, Fold, Tidy, Reserved, EssKeys, CleanAll, Clean;
    match op
    case LiveTimestampUpdate(millis) =>
      var text := Decimal(millis as int);
      AddHold(k, k.keys.mediaTimestamp, text, held);
      FoldOne(Hold, held, AddLabelCall(k, k.keys.mediaTimestamp, text));
      KeptTidy(k, s, held, k.keys.mediaTimestamp, k.cleanser.cleanValue(Clean(k, k.keys.mediaTimestamp), text));
    case SetEssSuccess(success) =>
      AddHold(k, k.keys.essSuccess, BoolText(success), held);
      FoldOne(Hold, held, AddLabelCall(k, k.keys.essSuccess, BoolText(success)));
      KeptTidy(k, s, held, k.keys.essSuccess, k.cleanser.cleanValue(Clean(k, k.keys.essSuccess), BoolText(success)));
    case SetEssError(error, code) =>
      var text := k.cleanser.cleanValue(Clean(k, k.keys.essError), EssErrorText(k, error));
      EssErrorHold(k, error, code, held);
      KeptTidy(k, s, held, k.keys.essError, text);
      KeptTidy(k, s, held[Clean(k, k.keys.essError) := text], k.keys.essStatusCode,
               k.cleanser.cleanValue(Clean(k, k.keys.essStatusCode), code));
  }

  /** Over any run in which callers keep off the reserved keys and brokers call back
      only while current: a client that is off leaves no reserved label behind, one
      without a broker leaves at most the flag, the flag always has its configured
      value, and a status code is never held without an error. */
  lemma {:induction false} LabelHygiene(k: Setup, s: State, ops: seq<Op>)
    requires KeysSurvive(k) && s.av.broker.None?
    requires Along(k, s, ops, (t, op) => Considerate(k, t, op))
    ensures Tidy(k, Run(k, s, ops), Fold(Hold, map[], Log(k, s, ops)))
  {
    hide After, Calls, Tidy, Considerate;
    var fine := (t, op) => Considerate(k, t, op);
    if ops == [] {
      assert Tidy(k, s, map[]) by { NothingIsTidy(k, s); }
    } else {
      var front, op := ops[..|ops| - 1], ops[|ops| - 1];
      AlongFront(k, s, ops, fine);
      assert Considerate(k, Run(k, s, front), op);
      assert Along(k, s, front, fine);
      LabelHygiene(k, s, front);
      var t, held := Run(k, s, front), Fold(Hold, map[], Log(k, s, front));
      FoldConcat(Hold, map[], Log(k, s, front), Calls(k, t, op));
      StepTidy(k, t, held, op);
    }
  }

  lemma NothingIsTidy(k: Setup, s: State)
    requires s.av.broker.None?
    ensures Tidy(k, s, map[])
  {}

  lemma {:induction false} StepTidy(k: Setup, s: State, held: Dict, op: Op)
    requires KeysSurvive(k) && Tidy(k, s, held) && Considerate(k, s, op)
    ensures Tidy(k, After(k, s, op), Fold(Hold, held, Calls(k, s, op)))
  {
    if op.SetMedia? || op.Disable? { MediaTidy(k, s, held, op); }
    else if op.AddLabels? || op.RemoveLabels? { CallerTidy(k, s, held, op); }
    else if op.LiveTimestampUpdate? || op.SetEssError? || op.SetEssSuccess? { CallbackTidy(k, s, held, op); }
    else { QuietTidy(k, s, held, op); }
    hide Tidy, After, Calls, Considerate, KeysSurvive, Fold;
  }

  // ---- adding and removing -------------------------------------------------------------------

  /** Removing a label by the key it was added with removes it if, and only if, the
      key does not clean to nothing: such a label is passed on but can never be removed. */
  lemma RemovedIff(k: Setup, s: State, key: string, v: string, held: Dict)
    ensures var added := Watch(Hold, k, s, held, Op.AddLabels(map[key := v]));
            var removed := Watch(Hold, k, s, added, Op.RemoveLabels([key]));
            Clean(k, key) in added && (Clean(k, key) !in removed <==> Clean(k, key) != "")
  {
    hide Sanitise, Clean, RemovalCalls, Hold, Fold;
    AddedHold(k, s, key, v, held);
    RemovedHold(k, s, key, Watch(Hold, k, s, held, Op.AddLabels(map[key := v])));
  }

  lemma AddedHold(k: Setup, s: State, key: string, v: string, held: Dict)
    ensures Clean(k, key) in Watch(Hold, k, s, held, Op.AddLabels(map[key := v]))
  {
    AddHold(k, key, v, held);
    FoldOne(Hold, held, AddLabelCall(k, key, v));
    hide Sanitise;
  }

  lemma RemovedHold(k: Setup, s: State, key: string, held: Dict)
    ensures Watch(Hold, k, s, held, Op.RemoveLabels([key])) == if Clean(k, key) == "" then held else held - {Clean(k, key)}
  {
    if Clean(k, key) != "" {
      RemovalHold(k, key, held);
    } else {
      assert CleanKeys(k.cleanser, []) == [] && [key][..0] == [];
      assert CleanKeys(k.cleanser, [key]) == [];
    }
    hide CleanKeys;
  }
}
