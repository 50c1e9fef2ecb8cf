# Echo client

A Dafny model of `EchoClient`, the object an application drives to report playback and
page events to a list of analytics delegates, and proofs about what those delegates
hear. The client copies the media it is given, makes a broker that follows its
playhead, holds plays back while the schedule of live enriched media catches up, keeps
users that arrive while events are off, and watches the expiry of a user's token.

* `EchoTypes.dfy` - values: media, users, brokers, timers, calls to the outside, operations.
* `Positions.dfy`, `Labels.dfy`, `Config.dfy` - position arithmetic on 64-bit unsigned
  milliseconds, label sanitising, layered configuration and its validation.
* `Machine.dfy` - what an operation does, twice over: the state it leaves (`After`) and
  the calls it makes (`Calls`). A run is a sequence of operations: public calls, broker
  callbacks, moves of the playhead, firing timers.
* `Client.dfy` - the client as a class over mutable delegates, media, brokers, timers
  and user store. Each method is proved against the machine: `Did(op)` says that the
  object's fields went to the state of the machine, that exactly the machine's calls were
  made, that all delegates have heard the same calls in the same order, that of the media
  objects callers ever handed over at most the one the client worked on has changed (and
  it works on one only if a broker put it in place), and that the lists of all brokers and
  timers the client ever had only grow. The inner methods (`Report...`, `TurnOn`, ...) are the bodies of public ones after their guards.
* `Folds.dfy` - observers: a state carried along a log, and how an invariant that relates
  client and observer is kept along runs.
* `Session`, `Discipline`, `Brokers`, `Reporting`, `NonInterference`, `Suppression`,
  `UserUpdates`, `UserHistory`, `Timers`, `Postponed`, `EssLabels` (`.dfy`) - one family of
  theorems each, over all runs. `Guarantees.dfy` says some of them about client and delegate objects.
* `Effects.dfy` - what each operation does, spelled out call by call with literal conditions, and
  `History.dfy` - what each part of the state says about the operations of the run so far. They
  fix what the machine means, whatever functions it is put together from.

Where a plausible claim is not true of the code, a lemma states exactly when it is:
`DeviceIdQueryBreaksSession`, `ZeroLengthIsNotForwarded`, `SuppressionLeaks`,
`WaitingUserClearedIff`, `NewerUserSurvivesIff`, `WaitingTransitionLostIff`, `RemovedIff`,
`ReportableIff`, `PlayIgnoresPositionIff`, `IdempotentIff`, `OrderIrrelevantIffNoConflict`,
`LastWriteWinsIff`, `ReleaseDeliversIff`; `LeakExample`, `PhantomPlayExample`,
`DeviceIdQueryExample`, `StaleUserIsStored`, `StaleUserComesBack` and `LostTransitionExample` are runs in which it happens.

Where code and naming or comments disagree, the model follows the code: the rule called
`noWhiteSpace` (lines 1184-1189) only refuses names that are blank altogether; setting or
clearing media does not end a suppression (lines 355-376); a live media update is not
guarded by Echo being on (lines 168-178).

Assumptions about what lies outside the client: a clone equals its original; media is
live exactly when its consumption mode is live; the user store holds one user and at most
one postponed transition, and says that one is waiting exactly when it holds one; what
it answers otherwise, and what the clock says, is arbitrary at each use (`UserEnv`); the
label cleanser is any function, idempotent only where a theorem says so; delegates do not
call back; the key that marks background events is not `device_id_reset` (`KeysApart`).

## Model

| member | source | states |
|---|---|---|
| Session.SessionRefinement | Echo/EchoClient.swift:335-397 | In every run that asks for the device id only between media, what each delegate hears is accepted at every moment by the automaton NoMedia/HasMedia (media is set only after a clear, playback events and lengths only while there is media), and the client holds media exactly when the automaton is in HasMedia. |
| Session.DeviceIdQueryBreaksSession | Echo/EchoClient.swift:224-238 | Asking for the ComScore device id keeps client and delegates in step if and only if there is no media; with media, the next navigation passed on is rejected by the automaton. |
| Session.DeviceIdQueryExample | Echo/EchoClient.swift:224-238 | A run from a fresh client in which this happens: a seek after the id was asked for in the middle of a media. |
| Session.ZeroLengthIsNotForwarded | Echo/EchoClient.swift:378-397 | After a new on-demand length the delegates know the client's length if and only if the length is positive or the old one was already zero. |
| Discipline.EveryRunIsDisciplined | Echo/EchoClient.swift:138-140 | Any calls in any order on a fresh client: events are heard only while Echo is on, `start` at most once, user updates only after it, application actions only after a counter name, and the cache mode is fixed from a play to the next end; the flags `echoEnabled`, `hasStarted`, `counterNameSet`, `mediaActive` and the cache mode are exact summaries of the log. |
| Discipline.CacheModeHeldWhilePlaying | Echo/EchoClient.swift:691-705 | Over any run, from a delivered play until the next delivered end the client's cache mode is the one the delegates had been told before the play. |
| Discipline.AutoStarts | Echo/EchoClient.swift:997-1016 | A client that starts by itself has started whenever it is enabled, after every operation of every run. |
| Brokers.OnlyTheCurrentBrokerRuns | Echo/EchoClient.swift:149-166 | In every run at most one of all brokers ever made is running; it is the client's current one, Echo is on and media is set; a client that is off holds no broker. |
| Brokers.NeverPlayingAndBuffering | Echo/EchoClient.swift:452-453 | If no media handed over starts out both playing and buffering, the current media never is, in any run. |
| Reporting.EveryReportIsWellPositioned | Echo/EchoClient.swift:670-689 | In any state with a broker, every delivered playback event of live media is at the broker's position; a delivered on-demand play leaves a second of known media; any other on-demand report is at the end or at least a second before it. |
| Reporting.ReportableIff | Echo/EchoClient.swift:657-663 | An on-demand navigation is reported at a sensible position if and only if there is a broker or the caller's position was one. |
| Reporting.OnDemandPlayPassedOnIff | Echo/EchoClient.swift:425-438 | An on-demand play with a broker is passed on, at the position asked for, if and only if a second of known media is left there. |
| NonInterference.CallerPositionsDoNotInterfere | Echo/EchoClient.swift:425-438 | Two runs over live media with a player delegate that differ only in the positions callers pass leave equal states and equal logs. |
| NonInterference.PlayIgnoresPositionIff | Echo/EchoClient.swift:425-438 | A single live play ignores the caller's position if and only if there is a broker or the play is held back. |
| Suppression.FlagIsHistory | Echo/EchoClient.swift:681-686 | After every run the suppression flag is set if and only if some navigation on live enriched media has not been lifted since by a live update or an effective release. |
| Suppression.PlayDeliveredIff | Echo/EchoClient.swift:446-455 | A play of live enriched media is delivered, once, if and only if no navigation is left unlifted. |
| Suppression.SuppressionCoalesces | Echo/EchoClient.swift:201-210 | After a navigation on live enriched media, any mix of operations inside the session delivers no play; the release delivers exactly one, at the broker's position, with the labels a direct delivery of the last suppressed play would carry; a second release delivers nothing. |
| Suppression.HeldLabelsAreHistory | Echo/EchoClient.swift:446-448 | After every run the labels kept for a release are those of the last play held in that run, whatever became of its media and its suppression. |
| Suppression.ReleaseDeliversIff | Echo/EchoClient.swift:201-210 | After every run a release delivers a play if and only if a navigation is left unlifted, Echo is on, and there are a broker and media that can be played there; the play is the last one held in the run, and one without labels if none ever was. |
| Suppression.PhantomPlayExample | Echo/EchoClient.swift:201-210 | A run from a fresh client in which, after nothing but a seek, the release delivers a play nobody asked for. |
| Suppression.SuppressionLeaks | Echo/EchoClient.swift:355-376 | Suppression outlives its media: the first play of new media is swallowed if and only if that media is live and enriched and a navigation is still unlifted. |
| Suppression.LeakExample | Echo/EchoClient.swift:335-376 | A concrete run in which a seek on one programme swallows the first play of the next. |
| UserUpdates.DeferredUsers | Echo/EchoClient.swift:789-862 | The runs in which no user takes the reset path: the users given to the store are exactly those not replaced while events were off, once each and in order. For all other runs see EveryUserAccountedFor and LastWriteWinsIff. |
| UserHistory.EveryUserAccountedFor | Echo/EchoClient.swift:789-862 | Over every run, replays included: the store is given, in order, the users applied at each operation; an operation applies a user if and only if the user feature is on and it hands that user over while events are on, or turns events on while that user waits. |
| UserHistory.WaitingIsHistory | Echo/EchoClient.swift:789-862 | After every run, the user feature on or off: a user waits if and only if that user was handed over while events were off (or at construction) and since then nobody was parked instead, no user was applied in full, and a started client was not switched on again. |
| UserHistory.LastWriteWinsIff | Echo/EchoClient.swift:997-1044 | After every run, with events on: the client's user (the stored one, or with the user feature off the one remembered) is the last one ever handed over if and only if events have not come on since then for somebody else who waited. |
| UserUpdates.WaitingUserClearedIff | Echo/EchoClient.swift:789-862 | Setting a user while events are on clears the waiting one if and only if the user feature is on and the reset path is not taken. |
| UserUpdates.NewerUserSurvivesIff | Echo/EchoClient.swift:795-839 | In every state with events on, the user feature on or off: a user set now is still the client's after switching off and on if and only if nobody else waited, or the feature is on and the user did not take the reset path. |
| UserUpdates.StaleUserIsStored | Echo/EchoClient.swift:837-839 | A run from a fresh client in which an older waiting user ends up stored, with the user feature on. |
| UserUpdates.StaleUserComesBack | Echo/EchoClient.swift:795-798 | A run from a fresh client in which this happens with the user feature off. |
| Postponed.PostponedConserved | Echo/EchoClient.swift:762-787 | In every run, from any content of the store: a postponed transition is cleared only after being reported, two reports have a storing between them, every such report carries `device_id_reset`, and the store holds a transition exactly when the calls say so. |
| Postponed.WaitingTransitionLostIff | Echo/EchoClient.swift:834-839 | A waiting transition is overwritten if and only if the next applied user takes the reset path; otherwise it is reported with that user if there is anything to report, and kept if not. |
| Postponed.LostTransitionExample | Echo/EchoClient.swift:834-839 | A run from a fresh client in which a sign-in is overwritten by a sign-out and nothing is ever reported. |
| Timers.TimerDiscipline | Echo/EchoClient.swift:1219-1256 | After every run the only timer that can fire is the newest; it was made for the remembered user, who is the user of the most recent schedule; firing tells exactly that user; it cannot fire twice. |
| EssLabels.OnlyTheFlagAfterSetMedia | Echo/EchoClient.swift:335-376 | Whatever happened before, right after media is set the only reserved label held is the ESS-enabled flag, with its configured value, and no other label is touched. |
| EssLabels.LabelHygiene | Echo/EchoClient.swift:180-199 | Over any run with considerate callers and brokers: off means no reserved label is held, no broker means at most the flag, the flag has its configured value, and a status code is held only with an error. |
| EssLabels.RemovedIff | Echo/EchoClient.swift:889-902 | A label is removed by the key it was added with if and only if that key does not clean to nothing. |
| History.EchoIsOnIff | Echo/EchoClient.swift:997-1029 | After every run Echo is on if and only if it was last switched on, or was on at first and never switched off. |
| History.HasStartedIff | Echo/EchoClient.swift:1031-1044 | After every run the client has started if and only if a start came while Echo was on, or it was switched on and starts by itself. |
| History.ActionIsHeardIff | Echo/EchoClient.swift:942-964 | After every run a user action of the application is heard if and only if Echo was last switched on and a counter name was given before, by itself or with a view that was heard. |
| History.BrokerRunsIff | Echo/EchoClient.swift:437 | After every run the broker is running if and only if, since it was made, a play was taken, held back or not, directly or by a release, and no navigation since. |
| History.HasBrokerIff | Echo/EchoClient.swift:149-166 | After every run there is a broker if and only if the last media set while Echo was on got one and Echo was not switched off since. |
| History.TimerIsArmedIff | Echo/EchoClient.swift:1219-1241 | After every run a timer is waiting to fire if and only if the last token scheduled had time left and since then none was scheduled, none expired and it has not fired. |
| History.ScheduleMakesTimerIff | Echo/EchoClient.swift:1219-1241 | At any moment of a run, applying a user with a valid token and a refresh time, by setting, starting or enabling, makes a valid timer for that user if and only if time is left; the user is remembered; no earlier timer can fire. A token just expired leaves no valid timer. |
| Effects.NavigationMakes | Echo/EchoClient.swift:458-635 | Each of the six navigations is heard as itself, once, with its rate, sanitised labels, and a position by cases: the broker's, the caller's if reportable, else the length, or the caller's without a broker. |
| Effects.NavigationLeaves | Echo/EchoClient.swift:670-689 | The broker stops, a suppression begins on live enriched media, pausing and buffering set their marks, ending removes the media; nothing else changes. |
| Effects.UserActionMakes | Echo/EchoClient.swift:637-668 | A user action, and a heartbeat, is heard once, with type, name, position and labels in their places. |
| Effects.PlayMakes | Echo/EchoClient.swift:411-456 | A play that is taken is heard once, unless it waits for a release; at the broker's position for live media and at the caller's otherwise. |
| Effects.PlayLeaves | Echo/EchoClient.swift:437-455 | A play that is taken sets the broker going at its position; a waiting one leaves its labels and any other one its marks; one that is not taken leaves nothing. |
| Effects.BrokerGoesIff | Echo/EchoClient.swift:425-438 | With Echo on, media and a broker, a play sets the broker going if and only if the media is live or a second of it is left at the position. |
| Effects.ReleaseIsPlay | Echo/EchoClient.swift:201-210 | A release is the held play made again at the broker's position with the suppression lifted, or nothing. |
| Effects.SetMediaMakes | Echo/EchoClient.swift:335-376 | The calls of setting media, one by one: six removals, clear, the flag, the broker if one is made, the media. |
| Effects.SetMediaLeaves | Echo/EchoClient.swift:149-166 | The current broker is new, stopped, at 0, and live if and only if the media is live and the ESS URL is known; the former one is stopped. |
| Effects.OneBrokerIsHandedOver | Echo/EchoClient.swift:149-166 | Exactly one broker is handed to the delegates, right before the media, with its kind. |
| Effects.DisableDoes | Echo/EchoClient.swift:1018-1029 | Media is cleared before `disable` is heard; media and broker are gone. |
| Effects.SetMediaLengthDoes | Echo/EchoClient.swift:378-397 | A length is taken for on-demand media only, and told unless it is zero. |
| Effects.SetEssErrorMakes | Echo/EchoClient.swift:185-195 | The error label, the status code label for status-code errors only, and last, once and in every case, that enrichment failed. |
| Effects.LiveMediaUpdateDoes | Echo/EchoClient.swift:168-178 | Heard in every state; replaces the media and ends a suppression. |
| Effects.EssLabelsMake | Echo/EchoClient.swift:180-199 | The timestamp and success labels, with their texts. |
| Effects.PlainEventsMake | Echo/EchoClient.swift:922-980 | Views, errors and flushing are heard if and only if Echo is on, with cleaned names and labels. |
| Effects.SettingsMake | Echo/EchoClient.swift:691-744 | Settings are heard even while Echo is off, the cache mode only while nothing plays. |
| Effects.SetBBCUserMakes | Echo/EchoClient.swift:802-862 | All calls of setting a user while events are on, first to last, with the conditions of each. |
| Effects.UserIsReportedIff | Echo/EchoClient.swift:774-862 | A change of user is reported, once, if and only if there is a transition or a reset reason and the reset path is not taken; with type, name and labels by case. |
| Effects.SetBBCUserLeaves | Echo/EchoClient.swift:802-862 | The stored, previous, waiting user and postponed transition it leaves. |
| Effects.SetBBCUserOtherwise | Echo/EchoClient.swift:789-800 | With events off the user waits; with the user feature off it is only remembered; nothing is told. |
| Effects.StartDoes | Echo/EchoClient.swift:1031-1044 | Starting is heard once while on, and the waiting user is then set like any other. |
| Effects.EnableDoes | Echo/EchoClient.swift:997-1016 | Enabling is heard; a client that had started then sets the waiting user, who waits no longer, and another starts if it starts by itself. |
| Positions.ExceedsMeaning | Echo/EchoClient.swift:1199-1213 | The unsigned test, which never subtracts below zero, is the integer comparison position + 1000 >= length for a known length. |
| Positions.ClampLaws | Echo/EchoClient.swift:1110-1118 | The clamp yields a reportable position, fixes exactly the reportable ones, is idempotent and monotone, and stays within a known length. |
| Positions.Millis | Echo/EchoClient.swift:180-183 | For seconds that fit, the whole number of milliseconds, cut towards zero. |
| Machine.DecimalReadsBack | Echo/EchoClient.swift:180-183 | The text of a timestamp label reads back as the timestamp and has no superfluous leading zero. |
| Labels.OrderIrrelevantIffNoConflict | Echo/EchoClient.swift:1050-1061 | The sanitised dictionary is the same for every order of walking the labels if and only if no two keys clean to the same text with different values. |
| Labels.LastKeyWins | Echo/EchoClient.swift:1050-1061 | Of keys that clean to the same text, the last one walked decides the value. |
| Labels.CleanKeysOneByOne | Echo/EchoClient.swift:982-995 | Keys to remove are cleaned one by one, in order, and those that clean to nothing are dropped. |
| Labels.SanitiseTwice | Echo/EchoClient.swift:1050-1061 | With an idempotent cleanser, sanitising twice is sanitising once. |
| Labels.SanitiseLabels | Echo/EchoClient.swift:1050-1061 | The loop builds the dictionary the specification gives for the walked order. |
| Labels.SanitiseKeys | Echo/EchoClient.swift:982-995 | The loop keeps the cleaned keys, in order, without those that clean to nothing. |
| Config.CollateConfig | Echo/EchoClient.swift:1063-1095 | The layered merging, with the user's values walked in any order, computes the collated configuration. |
| Config.CollatedIsHighest | Echo/EchoClient.swift:1063-1095 | For every key the collated value is that of the highest layer defining it: library, non-empty user values, profile, delegates from AT Internet down to ComScore, Echo's defaults. |
| Config.IdempotentIff | Echo/EchoClient.swift:1063-1095 | With filled lower layers, collating the result again changes nothing if and only if the profile the result names brings no missing key. |
| Config.IdempotentWhenOnlyTheUserNamesAProfile | Echo/EchoClient.swift:1063-1095 | So collation is idempotent whenever no lower layer sets the profile key. |
| Config.RequiredKeysArePresent | Echo/EchoClient.swift:1097-1108 | The keys that validation requires, and the ESS URL, are always present after collation. |
| Config.ValidIff | Echo/EchoClient.swift:1127-1197 | A configuration is accepted if and only if the application name is not blank and the highest layer of each checked key holds a permitted value. |
| Config.ValidKeyByKey | Echo/EchoClient.swift:1127-1162 | The same, spelled out key by key with the values each may hold. |
| Config.SettingsIff | Echo/EchoClient.swift:90-125 | Each setting of a client, its cache mode and its initial switch, as an equivalence on the highest layer that defines its key. |
| Config.DefaultSettings | Echo/EchoClient.swift:1097-1108 | With nothing configured: on, starting by itself, offline caching, no schedule service, no user feature. |
| Client.CreateClient | Echo/EchoClient.swift:74-147 | A client results if and only if the configuration is acceptable; otherwise no delegate is called and no user is stored. It is a fresh client of the collated configuration, started if enabled and auto-starting, and it always knows the ESS URL. |
| Client.EchoClient.constructor | Echo/EchoClient.swift:118-141 | The new client is valid, with the user waiting, and is at the end of the empty run or of the run consisting of one start. |
| Client.EchoClient.Continues | Echo/EchoClient.swift:335-668 | A method that does an operation takes the run one step further, so that the theorems about runs hold of client objects. |
| Guarantees.EveryDelegateHearsSessions | Echo/EchoClient.swift:335-397 | Each delegate object of a client has heard a word the session automaton accepts, and the client's `media` says in which state it is. |
| Guarantees.EveryDelegateHearsDisciplinedCalls | Echo/EchoClient.swift:138-140 | Each delegate object's log is disciplined; `mediaActive`, `hasStarted` and the cache mode are exact summaries of it. |
| Guarantees.OnlyTheClientsBrokerRuns | Echo/EchoClient.swift:149-166 | Of all broker objects a client ever had (the list only grows), the only one that may be running is its current one, and only while Echo is on and media is set. |
| Guarantees.OnlyTheNewestTimerIsArmed | Echo/EchoClient.swift:1219-1256 | Of all timer objects a client ever had (the list only grows), the only one that may be valid is its current one; its user is the remembered one and that of the most recent schedule. |
| Guarantees.TheBrokerRunsIff | Echo/EchoClient.swift:437 | The client's broker object runs, and its timer object is valid, exactly as the history of the run says. |
| Guarantees.CacheModeHeldWhilePlaying | Echo/EchoClient.swift:691-705 | While a play heard by a delegate object has not been ended, the client's cache mode is what that delegate had been told before the play. |
| Client.TellAll | Echo/EchoClient.swift:373-375 | Every delegate, whatever their number, hears the call exactly once. |
| Client.EchoClient.SetMedia | Echo/EchoClient.swift:335-353 | With Echo on, the former broker object is stopped and among those dropped, the client works on a fresh copy, and every object a caller ever handed over stays as it was, but for the one worked on until then; all delegates hear the same calls. |
| Client.EchoClient.ClearMedia | Echo/EchoClient.swift:355-376 | Drops media and broker; the former broker object is stopped and among those dropped; the six labels are removed in order and the delegates cleared. |
| Client.EchoClient.MakeBroker | Echo/EchoClient.swift:149-166 | With a player delegate and media, what the factory makes becomes the broker, live or on-demand, and is handed to all delegates; if it makes none, there is none. |
| Client.EchoClient.SetMediaLength | Echo/EchoClient.swift:378-397 | Ignored without media or for live media; otherwise the client's copy gets the length, and every delegate is told unless it is zero. No caller's media object changes. |
| Client.EchoClient.AvPlayEvent | Echo/EchoClient.swift:411-456 | A play past the end of on-demand media changes nothing; else the broker is set going, and the play is kept for release while suppressing or heard by every delegate, which makes the session active and marks the client's copy as playing. |
| Client.EchoClient.AvNavigationEvent | Echo/EchoClient.swift:670-689 | Stops the broker, gives the position to report and starts a suppression on live enriched media. |
| Client.EchoClient.AvPauseEvent | Echo/EchoClient.swift:458-486 | With Echo on and media set, every delegate hears one pause at the reported position (the broker's for live media, clamped for on-demand media) with sanitised labels, the broker is stopped, the client's copy of the media is marked as not playing; otherwise nothing changes. |
| Client.EchoClient.AvBufferEvent | Echo/EchoClient.swift:488-518 | With Echo on and media set, every delegate hears one buffer at the reported position (the broker's for live media, clamped for on-demand media) with sanitised labels, the broker is stopped, the client's copy is marked as buffering and not playing; otherwise nothing changes. |
| Client.EchoClient.AvEndEvent | Echo/EchoClient.swift:520-551 | With Echo on and media set, every delegate hears one end at the reported position (the broker's for live media, clamped for on-demand media) with sanitised labels, the broker is stopped, the media is let go of and the session is no longer active; otherwise nothing changes. |
| Client.EchoClient.AvRewindEvent | Echo/EchoClient.swift:553-579 | With Echo on and media set, every delegate hears one rewind with the rate given at the reported position (the broker's for live media, clamped for on-demand media) with sanitised labels, the broker is stopped; otherwise nothing changes. |
| Client.EchoClient.AvFastForwardEvent | Echo/EchoClient.swift:581-607 | With Echo on and media set, every delegate hears one fast-forward with the rate given at the reported position (the broker's for live media, clamped for on-demand media) with sanitised labels, the broker is stopped; otherwise nothing changes. |
| Client.EchoClient.AvSeekEvent | Echo/EchoClient.swift:609-635 | With Echo on and media set, every delegate hears one seek at the reported position (the broker's for live media, clamped for on-demand media) with sanitised labels, the broker is stopped; otherwise nothing changes. |
| Client.EchoClient.AvUserActionEvent | Echo/EchoClient.swift:637-668 | With Echo on and media set, every delegate hears one user action at the broker's position for live media, at the clamped one for on-demand media; the client's state does not change. |
| Client.EchoClient.PositionExceedsMediaLength | Echo/EchoClient.swift:1199-1213 | Without underflow: true if and only if the length is known and less than a second of it is left, or exactly one. |
| Client.EchoClient.PreventPositionExceedingMediaLength | Echo/EchoClient.swift:1110-1118 | The result is a position worth reporting: the caller's own if it was one, else the length. |
| Client.EchoClient.LiveMediaUpdate | Echo/EchoClient.swift:168-178 | Ends a suppression, replaces the media and tells every delegate, even while Echo is off, whatever object is given; the client then works on a caller's object if and only if it was given one. |
| Client.EchoClient.LiveTimestampUpdate | Echo/EchoClient.swift:180-183 | Every delegate is given the timestamp label, cleaned, with the seconds turned into whole milliseconds in decimal; the state does not change. |
| Client.EchoClient.SetEssError | Echo/EchoClient.swift:185-195 | Every delegate is given the error label, then the status code label only for status-code errors, then told that enrichment failed. |
| Client.EchoClient.SetEssSuccess | Echo/EchoClient.swift:197-199 | Every delegate is given the success label with `true` or `false`. |
| Client.EchoClient.ReleaseSuppressedPlay | Echo/EchoClient.swift:201-210 | With Echo on, a broker and a suppression, the flag is lifted and the held play is made again at the broker's position; otherwise nothing changes. |
| Client.EchoClient.SendHeartbeat | Echo/EchoClient.swift:212-214 | A user action of the heartbeat type, heard under the same conditions and at the same position as any other. |
| Client.EchoClient.GetComScoreDeviceID | Echo/EchoClient.swift:224-238 | Clears every delegate's media and returns the id of the last delegate that knows one. |
| Client.EchoClient.SetCacheMode | Echo/EchoClient.swift:691-701 | While no session is active, client and every delegate take the mode; otherwise nothing changes. |
| Client.EchoClient.SetCounterName | Echo/EchoClient.swift:735-744 | Every delegate hears the cleaned name, and user actions are allowed from now on. |
| Client.EchoClient.ViewEvent | Echo/EchoClient.swift:922-940 | With Echo on, every delegate hears the view and user actions are allowed from now on; otherwise nothing changes. |
| Client.EchoClient.UserActionEvent | Echo/EchoClient.swift:942-964 | Heard by every delegate if and only if Echo is on and a counter name has been set. |
| Client.EchoClient.ErrorEvent | Echo/EchoClient.swift:966-980 | With Echo on, every delegate hears the error with sanitised labels; otherwise nothing. |
| Client.EchoClient.AddLabels | Echo/EchoClient.swift:875-883 | Every delegate is given the sanitised labels, even while Echo is off. |
| Client.EchoClient.RemoveLabels | Echo/EchoClient.swift:889-898 | Every delegate hears the cleaned keys, and nothing at all when every key cleans to nothing. |
| Client.EchoClient.UserShouldUpdate | Echo/EchoClient.swift:789-800 | A user is kept waiting with events off, or only remembered with the user feature off. |
| Client.EchoClient.SetBBCUser | Echo/EchoClient.swift:802-862 | The waiting user, previous user, timer, stored user and postponed transition become what the machine says, and store and delegates are told in its order; labels of the report are the same for every delegate. |
| Client.EchoClient.ReportToEach | Echo/EchoClient.swift:774-787 | Although the label dictionary is changed on the way, every delegate hears the same report. |
| Client.EchoClient.ResetUserData | Echo/EchoClient.swift:746-760 | Clears the cache and schedules the expiry of a valid token, or removes the schedule of one that has just expired. |
| Client.EchoClient.ScheduleTokenExpiry | Echo/EchoClient.swift:1219-1241 | The former timer object is invalid and kept track of, the user is remembered and, if time is left, one new timer is made for that user. |
| Client.EchoClient.TimerFires | Echo/EchoClient.swift:1243-1250 | Any valid timer object is spent by firing; every delegate hears of the remembered user, who is then forgotten. |
| Client.EchoClient.Enable | Echo/EchoClient.swift:997-1016 | From off to on: every delegate hears `enable`, then a client that had started sets the waiting user and clears it, and one that starts by itself starts. |
| Client.EchoClient.Disable | Echo/EchoClient.swift:1018-1029 | From on to off: media is cleared and the former broker object is stopped and dropped before every delegate hears `disable`; a client that is off does nothing. |
| Client.EchoClient.Start | Echo/EchoClient.swift:1031-1044 | Only while on and only once: every delegate hears `start`, then the waiting user is set. |

## Left out

- Delegates, brokers, playhead, schedule, user store and `BBCUser` themselves: only the calls and answers the client sees.
- New brokers are at position 0 until the playhead moves.
- The player delegate's identity: only whether one has been set.
- The spelling of label keys, the raw values of enumerations and the cleansing rules: parameters.
- The order in which Swift walks a dictionary: one unspecified order per dictionary; that the order does not matter is proved separately, exactly when it does not.
- Calls carry media as values: that brokers and delegates keep a reference to the client's copy, and see it change, is not captured.
- Client.EchoClient.PassOn: one operation for all setters that only pass a value on (destination, producer, player name and state, volume, language, trace id, managed labels, foreground and background); their own checks of the value are not modelled.
- Client.EchoClient.LiveTimestampUpdate: seconds are real numbers, so the rounding of the floating-point product is not modelled.
- Client.CreateClient: before the configuration is checked the code also clears web-view cookies and has the delegates made; here the delegates are given, and that order is not captured.
- Client.EchoClient.GetComScoreDeviceID: only delegates given a ComScore id answer; how the delegate obtains it is not modelled.
- Device id, web-view cookies, debug levels, version queries and the deprecated empty setters.
- Notifications, the run loop and threads: each public call, callback or firing is one step.
- UserUpdates.DeferredUsers: excludes users that take the reset path, after which a user may be given again; UserHistory covers every run.
