# compotube MVU engine in Dafny

compotube is an Android YouTube client built on a Model-View-Update loop. A
screen holds one immutable model. User actions and platform callbacks become
events. A pure `update(model, event)` turns each event into a change: a new
model and an ordered list of effects. A runner executes those effects against
the platform: toasts, logs, shared preferences, the account chooser, the
permission check and the YouTube search. The loop exists in several
historical variants, and each is modelled here in its own module:

- `CoreMvu`, `CoreMain`: the `core` module. Its `Change` is a plain effect
  list. A model replacement travels as a leading `Modify(newModel)` effect.
  The update throws on an unknown permission-check code and on a stored
  string that is not JSON, so it returns a `Result`.
- `Runtime`: the runner of the core update, a class (`RuntimeState`). It
  catches failures around the update and around each effect. A `Modify` is
  installed only when its payload is a model. `CheckPermission` answers with a
  follow-up event on the queue. `LoadPref` reads the stored string, but its
  callback, as written, drops the event it builds, so the saved model is
  never restored (see "## Findings"). The runner's specification functions
  take a `PrefWiring`: `AsWritten`, which the class follows, or `Intended`,
  the corrected callback.
- `KitsMvu`, `KitsMain`: the `kits` variant. Its change carries the model
  directly, and its update catches its own failures. `Attempt` is the body of
  the `try`; `Update` adds the catch-all.
- `MainScreen`: the runner of the kits update, a class (`ScreenState`). It
  commits the new model, then executes the effects. `onDestroy` runs with
  inert callbacks. The executor has no branch for `GetAppContext` or
  `ActForResult`. As a result, a login request does nothing on this screen
  (`MainScreen.LoginRequestedIgnored`).
- `AppMvu`, `ProgramsMain`, `MainMain`: the generic `mvu` change and the two
  small update functions that use it.
- `MainActivity`: the self-contained loop inside the activity. Its dispatch
  installs the model, then shows each toast (`ActivityState`).

Shared pieces:

- `Wrappers`: `Option` and `Result`.
- `Platform`: throwables and how they print; the Android constants
  `PERMISSION_GRANTED` = 0, `PERMISSION_DENIED` = -1,
  `android.permission.GET_ACCOUNTS`, `authAccount`, `RESULT_OK` = -1; the
  activity result with its extras; decimal rendering of counts.
- `Json`: the part of `org.json` the serialisers use. An object is a map from
  names to strings or JSON null. `put` of a null removes the name. `isNull`
  holds for a missing name and for JSON null. `optString` gives `""` for a
  missing name. A stored preference is either the text of an object or a
  malformed string.

Runners are modelled twice, and the two are tied together. A specification
function (`AfterEffect`, `AfterEffects`, `AfterEvent`, `AfterCollect`) gives
the state after each step. Each method of the runner class ensures that its
`Snapshot()` equals that function of the old snapshot. The lemmas then state
the properties about the functions.

The source names the account-chooser result event `AccountChosen` in
`Runtime.kt`, but `ActivityResultReceived` in the core `Main`. The two are
modelled as one event. Likewise, `MainScreen.kt` dispatches
`LifecycleCreated` and `LifecycleDestroyed`, while the kits `Main` defines
`Init` and `Dispose`; they are modelled as those events. The effect union of
the kits variant is defined from the constructors that `kits/Main.kt` and
`MainScreen.kt` use. The `mvu/Mvu.kt` file shows only `Toast` and `Log`.

## Model

| member | source | states |
|---|---|---|
| CoreMvu.ChangeTo | core/src/main/java/me/cpele/compotube/core/Mvu.kt:5-10 | the effects are `Modify(newModel)` followed by the given effects in argument order |
| CoreMvu.ChangeOf | core/src/main/java/me/cpele/compotube/core/Mvu.kt:12 | the effects are exactly the given ones, in order, with nothing inserted |
| CoreMvu.NoModifyInstallsNothing | core/src/main/java/me/cpele/compotube/core/Mvu.kt:12 | an effect list without `Modify` installs no model and requests all of its effects |
| CoreMvu.ChangeToInstalls | core/src/main/java/me/cpele/compotube/core/Mvu.kt:5-10 | a change built with a new model installs exactly that model and requests exactly the other effects |
| CoreMvu.LastModify | core/src/main/java/me/cpele/compotube/core/Mvu.kt:5-10 | definition: the model a change installs when its effects run in order; specified by `ChangeToInstalls`, `NoModifyInstallsNothing` and `Runtime.RunnerInstallsLastModify` |
| CoreMvu.Requests | core/src/main/java/me/cpele/compotube/core/Mvu.kt:5-12 | definition: the effects of a change other than `Modify`; specified by `ChangeToInstalls` and `ChangeOfInstallsNothing` |
| CoreMvu.EffectText | core/src/main/java/me/cpele/compotube/core/Mvu.kt:15-26 | definition: the data-class `toString` of an effect; used by the runner's failure reports (`Runtime.Lift` keeps it unchanged) |
| CoreMvu.ChangeOfInstallsNothing | core/src/main/java/me/cpele/compotube/core/Mvu.kt:12 | a change built from effects alone installs no model |
| Platform.AccountNameOf | core/src/main/java/me/cpele/compotube/core/Main.kt:190-191 | the name is present exactly when the result has data carrying `authAccount`, and is that extra |
| Platform.NatTextReadsBack | core/src/main/java/me/cpele/compotube/core/Main.kt:165 | the printed item count reads back as the count |
| Platform.JoinSnoc | app/src/main/java/me/cpele/compotube/mvu/Mvu.kt:5 | the printed list of n+1 items is the list of n, then ", " unless it was empty, then the last item |
| Platform.NullableText | core/src/main/java/me/cpele/compotube/core/Main.kt:195 | a missing name prints as `null`, a present one as itself |
| Json.Put | core/src/main/java/me/cpele/compotube/core/Main.kt:200-204 | putting null removes the name, putting a string sets it, and other names are unchanged |
| Json.OptString | core/src/main/java/me/cpele/compotube/core/Main.kt:214 | a missing name gives `""`, a string member gives its string |
| Json.GetStringOrNull | core/src/main/java/me/cpele/compotube/core/Main.kt:219-227 | null exactly when the member is missing or JSON null, otherwise the member's string; `kits/Main.kt:209-214` defines the same helper |
| CoreMain.Update | core/src/main/java/me/cpele/compotube/core/Main.kt:138-148 | definition; specified by `UpdateFailsOnlyOnBadInput`, `QueryChangedInstallsQuery`, `QuerySentChecksPermission`, `PermissionCheckedBranches`, `AccountChosenInstallsAccount`, `ResponseReceivedReports`, `LifecycleUsesOneKey`, `StrPrefLoadedRestores` |
| CoreMain.RequestPermissionOrSearch | core/src/main/java/me/cpele/compotube/core/Main.kt:150-159 | definition; specified by `PermissionCheckedBranches` |
| CoreMain.UpdateResults | core/src/main/java/me/cpele/compotube/core/Main.kt:161-168 | definition; specified by `ResponseReceivedReports` |
| CoreMain.SearchChange | core/src/main/java/me/cpele/compotube/core/Main.kt:170-173 | definition; specified by the granted case of `PermissionCheckedBranches` |
| CoreMain.UpdateQuery | core/src/main/java/me/cpele/compotube/core/Main.kt:175-184 | definition; specified by `QueryChangedInstallsQuery` |
| CoreMain.UpdateAccount | core/src/main/java/me/cpele/compotube/core/Main.kt:186-198 | definition; specified by `AccountChosenInstallsAccount` |
| CoreMain.Serialize | core/src/main/java/me/cpele/compotube/core/Main.kt:200-204 | definition; specified by `SerializeRoundTrip` |
| CoreMain.Deserialize | core/src/main/java/me/cpele/compotube/core/Main.kt:206-217 | definition; specified by `SerializeRoundTrip` and `DeserializeEdgeCases` |
| CoreMain.EventText | core/src/main/java/me/cpele/compotube/core/Main.kt:121-136 | definition: the `toString` of an event, used in the failure reports of `Runtime.UpdateFailureReported` |
| CoreMain.DefaultModelLoggedOut | core/src/main/java/me/cpele/compotube/core/Main.kt:34-41 | the default model has query `""` and no account and is logged out; logged in exactly when an account name is present |
| CoreMain.UpdateFailsOnlyOnBadInput | core/src/main/java/me/cpele/compotube/core/Main.kt:140-159 | update throws if and only if the permission code is neither granted nor denied, or the stored string is not JSON |
| CoreMain.QueryChangedInstallsQuery | core/src/main/java/me/cpele/compotube/core/Main.kt:175-184 | the effects are `[Modify(query := v, account kept), Log("You're looking for v")]`; the model installed is that one |
| CoreMain.QuerySentChecksPermission | core/src/main/java/me/cpele/compotube/core/Main.kt:144 | the only effect is `CheckPermission(GET_ACCOUNTS)`; no model is installed |
| CoreMain.PermissionCheckedBranches | core/src/main/java/me/cpele/compotube/core/Main.kt:150-173 | granted gives `[Toast("Query sent: q"), Search(q)]` for the current query, denied gives `[RequestPermission(GET_ACCOUNTS)]`, and any other code throws `IllegalStateException` with the code |
| CoreMain.AccountChosenInstallsAccount | core/src/main/java/me/cpele/compotube/core/Main.kt:186-198 | the effects are `[Modify(account := n, query kept), Toast("Account chosen: n"), SelectAccount(n)]`; the new model is logged in exactly when n is present |
| CoreMain.ResponseReceivedReports | core/src/main/java/me/cpele/compotube/core/Main.kt:161-168 | a missing response counts 0; the effects are exactly the count toast and the log; no model is installed |
| CoreMain.LifecycleUsesOneKey | core/src/main/java/me/cpele/compotube/core/Main.kt:139-147 | creation loads with a null default and destruction saves the serialised model, both under the class name |
| CoreMain.SerializeRoundTrip | core/src/main/java/me/cpele/compotube/core/Main.kt:200-217 | deserialising a serialised model gives it back, a missing account included |
| CoreMain.DeserializeEdgeCases | core/src/main/java/me/cpele/compotube/core/Main.kt:206-217 | null gives the default model; a malformed string throws `IllegalArgumentException("Error parsing JSON: …")` |
| CoreMain.StrPrefLoadedRestores | core/src/main/java/me/cpele/compotube/core/Main.kt:140 | a loaded saved model is installed with no other effect; nothing stored installs the default model |
| CoreMain.LoginScenario | core/src/main/java/me/cpele/compotube/core/Main.kt:140-198 | from the default model, login asks for the chooser and a chosen account is installed, announced and selected |
| Runtime.Lift | app/src/main/java/me/cpele/compotube/Runtime.kt:173-180 | only a `Modify` stays a `Modify`, carrying its model as a model payload; every other effect keeps its constructor and fields, and prints the same |
| Runtime.LiftAll | app/src/main/java/me/cpele/compotube/Runtime.kt:150-151 | every effect of the change reaches the executor, in order |
| Runtime.AfterEffect | app/src/main/java/me/cpele/compotube/Runtime.kt:167-220 | definition: the state after `execute`, per effect; specified by `EffectFrame`, `LoadPrefDropped`, `CheckPermissionAnswers`, `RequestPermissionDropped`, `ForeignModifySkipped` |
| Runtime.AfterEffects | app/src/main/java/me/cpele/compotube/Runtime.kt:151-156 | definition: the effects executed left to right; specified by `AfterEffectsSnoc`, `AfterEffectsAppend`, `RunnerInstallsLastModify` |
| Runtime.AfterEvent | app/src/main/java/me/cpele/compotube/Runtime.kt:145-165 | definition: `handleEvent`; specified by `HandledEventFollowsUpdate`, `UpdateFailureReported` |
| Runtime.AfterCollect | app/src/main/java/me/cpele/compotube/Runtime.kt:68-75 | definition: one step of `collectEvents`; used by `RestartLosesModel` and `SearchScenario` |
| Runtime.AfterEffectsSnoc | app/src/main/java/me/cpele/compotube/Runtime.kt:151-156 | executing one more effect after a list is executing the extended list |
| Runtime.AfterEffectsAppend | app/src/main/java/me/cpele/compotube/Runtime.kt:151-156 | effects run strictly in list order |
| Runtime.EffectFrame | app/src/main/java/me/cpele/compotube/Runtime.kt:172-217 | only a `Modify` carrying a model changes the model; `CheckPermission` appends exactly its `PermissionChecked`, `LoadPref` appends nothing as written, and no other effect dispatches; only `SavePref` changes the preferences; only `SelectAccount` changes the selected account; requests are only appended |
| Runtime.LoadPrefDropped | app/src/main/java/me/cpele/compotube/Runtime.kt:186-194 | as written, `LoadPref` leaves the whole state unchanged: the event its callback builds is discarded |
| Runtime.LoadPrefAnswers | app/src/main/java/me/cpele/compotube/Runtime.kt:186-194 | with the corrected wiring (the callback written on one line, as MainScreen.kt:134 has it), `LoadPref` dispatches `StrPrefLoaded` with the stored value, or the default when nothing is stored |
| Runtime.CheckPermissionAnswers | app/src/main/java/me/cpele/compotube/Runtime.kt:205-209 | `CheckPermission` dispatches `PermissionChecked` with granted or denied |
| Runtime.RequestPermissionDropped | app/src/main/java/me/cpele/compotube/Runtime.kt:216-220 | `RequestPermission` changes nothing but one warning carrying a `NotImplementedError` |
| Runtime.ForeignModifySkipped | app/src/main/java/me/cpele/compotube/Runtime.kt:173-220 | a `Modify` without a model is reported with `IllegalArgumentException`; the model stays and later effects still run |
| Runtime.RunnerInstallsLastModify | app/src/main/java/me/cpele/compotube/Runtime.kt:150-156 | after running a change, the model is its last `Modify`'s model, or unchanged when there is none |
| Runtime.HandledEventFollowsUpdate | app/src/main/java/me/cpele/compotube/Runtime.kt:149-156 | a handled event leaves the model the update's change installs |
| Runtime.UpdateFailureReported | app/src/main/java/me/cpele/compotube/Runtime.kt:149-164 | if update throws, no effect runs; only the toast and the warning "Failure handling event …" are added |
| Runtime.MalformedPrefReported | app/src/main/java/me/cpele/compotube/Runtime.kt:149-164 | a malformed stored string keeps the model and dispatches nothing |
| Runtime.DestroySaves | app/src/main/java/me/cpele/compotube/Runtime.kt:88-95 | handling `LifecycleDestroyed` saves the serialised model under the class name and changes nothing else |
| Runtime.CreatedLoads | app/src/main/java/me/cpele/compotube/Runtime.kt:83-86 | handling `LifecycleCreated` executes exactly `LoadPref(class name, null)` |
| Runtime.RestartLosesModel | app/src/main/java/me/cpele/compotube/Runtime.kt:190-193 | as written, a runtime created over the saved preferences queues nothing and collects to the default model, so any non-default saved model is lost |
| Runtime.RestartRestoresModel | app/src/main/java/me/cpele/compotube/Runtime.kt:82-95 | with the corrected wiring, destroying saves the model, and a new runtime over the saved preferences, once created and collected, has the same model |
| Runtime.SearchScenario | app/src/main/java/me/cpele/compotube/Runtime.kt:145-215 | with the permission granted: query change, send, collected check and response give the log, the toast and search for the query, and the count toast |
| Runtime.RuntimeState.constructor | app/src/main/java/me/cpele/compotube/Runtime.kt:117-141 | a fresh runtime: default model, nothing queued or requested, no account selected |
| Runtime.RuntimeState.Dispatch | app/src/main/java/me/cpele/compotube/Runtime.kt:134 | the event is appended to the queue, nothing else changes |
| Runtime.RuntimeState.LoadStrPref | app/src/main/java/me/cpele/compotube/Runtime.kt:186-194 | the event handed to the callback is `StrPrefLoaded` of the stored value, or the default; the state is not changed |
| Runtime.RuntimeState.CheckPermission | app/src/main/java/me/cpele/compotube/Runtime.kt:222-226 | the check result is dispatched as `PermissionChecked` |
| Runtime.RuntimeState.SelectAccount | app/src/main/java/me/cpele/compotube/Runtime.kt:228-230 | the selected account becomes the given name, nothing else changes |
| Runtime.RuntimeState.Execute | app/src/main/java/me/cpele/compotube/Runtime.kt:167-220 | the new state is `AfterEffect` of the old one, as written: a `LoadPref` dispatches nothing |
| Runtime.RuntimeState.ExecuteAll | app/src/main/java/me/cpele/compotube/Runtime.kt:151-156 | the new state is `AfterEffects` of the old one: each effect executed in list order |
| Runtime.RuntimeState.HandleEvent | app/src/main/java/me/cpele/compotube/Runtime.kt:145-165 | the new state is `AfterEvent` of the old one: the effects of the update run in order, or the failure is reported |
| Runtime.RuntimeState.CollectNext | app/src/main/java/me/cpele/compotube/Runtime.kt:68-75 | the oldest queued event is removed and handled |
| Runtime.RuntimeState.OnCreate | app/src/main/java/me/cpele/compotube/Runtime.kt:83-86 | `LifecycleCreated` is queued |
| Runtime.RuntimeState.OnDestroy | app/src/main/java/me/cpele/compotube/Runtime.kt:88-97 | `LifecycleDestroyed` is handled at once, without the queue |
| Runtime.RuntimeState.OnActivityResult | app/src/main/java/me/cpele/compotube/Runtime.kt:109-114 | the chooser's result is queued as the account event |
| Runtime.RuntimeState.OnSearchResponse | app/src/main/java/me/cpele/compotube/Runtime.kt:246-248 | the response is queued as `ResponseReceived` |
| KitsMain.Attempt | app/src/main/java/me/cpele/compotube/kits/Main.kt:126-177 | definition: the body of the `try`; specified by `FailureKeepsModel` and the per-event lemmas |
| KitsMain.Update | app/src/main/java/me/cpele/compotube/kits/Main.kt:124-188 | definition; specified by `FailureKeepsModel`, `OnlyThreeEventsChangeModel`, `InitAndDisposeShareKey`, `StrPrefLoadedCases`, `AccountChosenSetsAccount`, `QueryChangedSetsQuery`, `QuerySentSearches`, `MissingResultCountsZero` |
| KitsMain.ModelToJsonStr | app/src/main/java/me/cpele/compotube/kits/Main.kt:190-194 | definition; specified by `JsonRoundTrip` |
| KitsMain.ModelFromJsonStr | app/src/main/java/me/cpele/compotube/kits/Main.kt:196-207 | definition; specified by `JsonRoundTrip` and `StrPrefLoadedCases` |
| KitsMain.EventText | app/src/main/java/me/cpele/compotube/kits/Main.kt:112-122 | definition: the `toString` of an event, used in the failure report of `FailureKeepsModel` |
| KitsMain.DefaultModelLoggedOut | app/src/main/java/me/cpele/compotube/kits/Main.kt:40-47 | the default model has query `""` and no account; logged in exactly when an account name is present |
| KitsMain.FailureKeepsModel | app/src/main/java/me/cpele/compotube/kits/Main.kt:124-188 | the body fails exactly on a malformed stored string; then the model is kept and the effects are the failure toast and the log carrying the throwable |
| KitsMain.OnlyThreeEventsChangeModel | app/src/main/java/me/cpele/compotube/kits/Main.kt:124-177 | only a chosen account, a query change or a loaded preference can change the model |
| KitsMain.InitAndDisposeShareKey | app/src/main/java/me/cpele/compotube/kits/Main.kt:127-176 | `Init` keeps the model and only loads; `Dispose` keeps it and only saves its JSON; both use the class name |
| KitsMain.JsonRoundTrip | app/src/main/java/me/cpele/compotube/kits/Main.kt:190-214 | reading back a written model gives it back, a missing account included |
| KitsMain.StrPrefLoadedCases | app/src/main/java/me/cpele/compotube/kits/Main.kt:129-130 | null gives the default model and a saved model comes back, both with no effects; a malformed string keeps the model and reports the failure |
| KitsMain.AccountChosenSetsAccount | app/src/main/java/me/cpele/compotube/kits/Main.kt:143-148 | the account name becomes the extracted one, the query stays, exactly one toast, and no `SelectAccount` |
| KitsMain.QueryChangedSetsQuery | app/src/main/java/me/cpele/compotube/kits/Main.kt:149-156 | the query becomes v, the account stays, and exactly one log |
| KitsMain.QuerySentSearches | app/src/main/java/me/cpele/compotube/kits/Main.kt:157-162 | the model is kept; the effects are `[Toast("Query sent: q"), Search(q)]`, with no permission check |
| KitsMain.MissingResultCountsZero | app/src/main/java/me/cpele/compotube/kits/Main.kt:163-171 | a null result, or one without items, is reported as 0 results |
| AppMvu.ChangeText | app/src/main/java/me/cpele/compotube/mvu/Mvu.kt:4-5 | definition; specified by `ChangeTextShapes` and `ChangeTextSnoc` |
| AppMvu.ChangeTextSnoc | app/src/main/java/me/cpele/compotube/mvu/Mvu.kt:4-5 | for any effect list, adding an effect at the end prints it last inside the brackets, after ", " unless it is the first |
| AppMvu.EffectsTextSnoc | app/src/main/java/me/cpele/compotube/mvu/Mvu.kt:5 | `contentToString` of a list with one more effect at the end prints it last between the brackets, after ", " unless the list was empty |
| AppMvu.ChangeTextShapes | app/src/main/java/me/cpele/compotube/mvu/Mvu.kt:3-6 | a change prints as `Change(model=…, effects=[…])`, with `[]` when it has no effects |
| MainScreen.AfterEffect | app/src/main/java/me/cpele/compotube/MainScreen.kt:121-147 | definition: the state after `execute`, per effect; specified by `EffectsKeepModel`, `InertDispatchesNothing`, `LoginRequestedIgnored` |
| MainScreen.AfterEffects | app/src/main/java/me/cpele/compotube/MainScreen.kt:109-118 | definition: the effects executed left to right; specified by `AfterEffectsSnoc` |
| MainScreen.AfterEvent | app/src/main/java/me/cpele/compotube/MainScreen.kt:97-119 | definition: commit, then the effects; specified by `ModelCommittedFirst`, `InertKeepsModelAndQueue`, `DestroyPersists` |
| MainScreen.AfterCollect | app/src/main/java/me/cpele/compotube/MainScreen.kt:82-89 | definition: one step of the collector; used by `RestartRestoresModel` |
| MainScreen.AfterEffectsSnoc | app/src/main/java/me/cpele/compotube/MainScreen.kt:109-118 | executing one more effect after a list is executing the extended list |
| MainScreen.EffectsKeepModel | app/src/main/java/me/cpele/compotube/MainScreen.kt:121-147 | no effect changes the model; requests are only appended |
| MainScreen.InertDispatchesNothing | app/src/main/java/me/cpele/compotube/MainScreen.kt:67-76 | with the inert callbacks, no effect list dispatches anything |
| MainScreen.ModelCommittedFirst | app/src/main/java/me/cpele/compotube/MainScreen.kt:107-108 | after a live handling, the model is the one the update produced |
| MainScreen.InertKeepsModelAndQueue | app/src/main/java/me/cpele/compotube/MainScreen.kt:64-78 | handling with the inert callbacks changes neither the model nor the queue |
| MainScreen.DestroyPersists | app/src/main/java/me/cpele/compotube/MainScreen.kt:64-78 | `onDestroy` saves the model's JSON under the class name and changes nothing else |
| MainScreen.RestartRestoresModel | app/src/main/java/me/cpele/compotube/MainScreen.kt:58-78 | a new screen over the saved preferences, once it has collected `Init` and the loaded preference, has the destroyed screen's model |
| MainScreen.QuerySentQueuesResponse | app/src/main/java/me/cpele/compotube/MainScreen.kt:158-161 | on the path where the search service answers, sending requests the search for the query and queues `ResultReceived` with its response |
| MainScreen.LoginRequestedIgnored | app/src/main/java/me/cpele/compotube/MainScreen.kt:129-146 | a login request leaves the whole screen state unchanged |
| MainScreen.AccountChosenNotSelected | app/src/main/java/me/cpele/compotube/MainScreen.kt:145-151 | a chosen account reaches the model but not the credential's selected account |
| MainScreen.ScreenState.constructor | app/src/main/java/me/cpele/compotube/MainScreen.kt:41 | a fresh screen: default model, nothing queued or requested, no account selected |
| MainScreen.ScreenState.Dispatch | app/src/main/java/me/cpele/compotube/MainScreen.kt:87 | the live callback appends the event; the inert one changes nothing |
| MainScreen.ScreenState.LoadStrPref | app/src/main/java/me/cpele/compotube/MainScreen.kt:168-177 | the stored value or the default is dispatched as `StrPrefLoaded` |
| MainScreen.ScreenState.SaveStrPref | app/src/main/java/me/cpele/compotube/MainScreen.kt:163-166 | the value is stored under the name, nothing else changes |
| MainScreen.ScreenState.Search | app/src/main/java/me/cpele/compotube/MainScreen.kt:158-161 | the search is requested and its response dispatched as `ResultReceived` |
| MainScreen.ScreenState.ChooseAccount | app/src/main/java/me/cpele/compotube/MainScreen.kt:153-156 | the chooser is launched by the live callback only |
| MainScreen.ScreenState.HandleAccountName | app/src/main/java/me/cpele/compotube/MainScreen.kt:149-151 | the selected account becomes the given name |
| MainScreen.ScreenState.Execute | app/src/main/java/me/cpele/compotube/MainScreen.kt:121-147 | the new state is `AfterEffect` of the old one |
| MainScreen.ScreenState.ExecuteAll | app/src/main/java/me/cpele/compotube/MainScreen.kt:109-118 | the new state is `AfterEffects` of the old one: each effect executed in list order |
| MainScreen.ScreenState.HandleEvent | app/src/main/java/me/cpele/compotube/MainScreen.kt:97-119 | the new state is `AfterEvent` of the old one: model committed, then the effects in order |
| MainScreen.ScreenState.CollectNext | app/src/main/java/me/cpele/compotube/MainScreen.kt:82-89 | the oldest queued event is removed and handled with the live callbacks |
| MainScreen.ScreenState.OnCreate | app/src/main/java/me/cpele/compotube/MainScreen.kt:59-62 | the initialising event is queued |
| MainScreen.ScreenState.OnDestroy | app/src/main/java/me/cpele/compotube/MainScreen.kt:64-78 | the disposing event is handled at once with the inert callbacks; the model and the queue stay |
| MainScreen.ScreenState.OnActivityResult | app/src/main/java/me/cpele/compotube/MainScreen.kt:38-40 | the chooser's result is queued as `AccountChosen` |
| ProgramsMain.Update | app/src/main/java/me/cpele/compotube/programs/Main.kt:70-77 | definition; specified by `QueryChangedLogs`, `QuerySentAnnounces`, `QueryChangesCompose`, `ReplayLastWriteWins` |
| ProgramsMain.DefaultModelEmpty | app/src/main/java/me/cpele/compotube/programs/Main.kt:29 | the default query is `""` |
| ProgramsMain.QueryChangedLogs | app/src/main/java/me/cpele/compotube/programs/Main.kt:72-75 | the query becomes v, with exactly `Log("You're looking for v")` |
| ProgramsMain.QuerySentAnnounces | app/src/main/java/me/cpele/compotube/programs/Main.kt:76 | the model is kept, with exactly `Toast("Query sent: q")` |
| ProgramsMain.QueryChangesCompose | app/src/main/java/me/cpele/compotube/programs/Main.kt:72-73 | two query changes leave the second value; repeating one gives the same change |
| ProgramsMain.ReplayLastWriteWins | app/src/main/java/me/cpele/compotube/programs/Main.kt:70-77 | after any events, the query is the last value changed to, or the starting one |
| MainMain.Update | app/src/main/java/me/cpele/compotube/main/Main.kt:33-36 | definition; specified by `QueryChangedNoEffects`, `ReplayLastWriteWins`, `QueryChangedIdempotent` |
| MainMain.DefaultModelEmpty | app/src/main/java/me/cpele/compotube/main/Main.kt:17 | the default query is `""` |
| MainMain.QueryChangedNoEffects | app/src/main/java/me/cpele/compotube/main/Main.kt:35 | the query becomes v, with no effects |
| MainMain.ReplayLastWriteWins | app/src/main/java/me/cpele/compotube/main/Main.kt:33-36 | a non-empty run of query changes ends on the last value |
| MainMain.QueryChangedIdempotent | app/src/main/java/me/cpele/compotube/main/Main.kt:35 | applying the same query change twice equals applying it once |
| MainActivity.Update | app/src/main/java/me/cpele/compotube/MainActivity.kt:82-85 | definition; specified by `QueryChangedNoEffects` |
| MainActivity.ChangeText | app/src/main/java/me/cpele/compotube/MainActivity.kt:56-59 | definition; specified by `QueryChangedNoEffects` |
| MainActivity.DefaultModelEmpty | app/src/main/java/me/cpele/compotube/MainActivity.kt:66 | the default query is `""` |
| MainActivity.QueryChangedNoEffects | app/src/main/java/me/cpele/compotube/MainActivity.kt:82-85 | the query becomes v, with no effects, and the change prints as `Change(model=Model(query=v), effects=[])` |
| MainActivity.ActivityState.constructor | app/src/main/java/me/cpele/compotube/MainActivity.kt:36 | the remembered model starts as the default one |
| MainActivity.ActivityState.ShowToasts | app/src/main/java/me/cpele/compotube/MainActivity.kt:40-44 | every toast is shown, in list order; the model is untouched |
| MainActivity.ActivityState.Dispatch | app/src/main/java/me/cpele/compotube/MainActivity.kt:37-45 | the model becomes the update's model, and the change's toasts are shown in order |

## Findings

| source | as written | input that shows it | evidently intended | confidence | as-written member | corrected member |
|---|---|---|---|---|---|---|
| app/src/main/java/me/cpele/compotube/Runtime.kt:190-193 | the `onPrefLoaded` lambda puts `platform.dispatch` on one line and `(Main.Event.StrPrefLoaded(it))` on the next; Kotlin ends the expression at the line break before `(`, so the event is built and discarded and nothing is dispatched | a runtime whose preferences hold a saved model with a non-empty query: after `LifecycleCreated` the queue is empty and the model stays the default | the loaded string is dispatched as `StrPrefLoaded`, as the one-line callback at MainScreen.kt:134 does, so a restart restores the saved model | high; not executed | Runtime.RestartLosesModel | Runtime.RestartRestoresModel |

## Left out

- The views (`View`, `Finder`, `AccountChooser`), layout and focus handling: they are user interface only.
- Platform services are reduced to the requests the runners record, or to injected answers: preferences, toasts, `android.util.Log`, the credential and the YouTube client. Requests are `ShowToast`, `WriteLog`, `LaunchAccountChooser`, `StartSearch` and `SearchSent`; answers are the stored preferences, the granted permissions and the search service. A platform call that itself fails is not modelled.
- The string forms of objects that print with an identity hash (singleton events, `Intent`, `Context`, a search response) are abstract texts. A JSON object's text is represented by the object itself: no character-level JSON or escaping.
- The cause attached to the `IllegalArgumentException` thrown for malformed JSON is not modelled.
- Concurrency: the coroutine that runs the core search, and the conflation of the `MutableStateFlow` that carries dispatched events. Dispatch appends to a sequential queue, and the collector takes one event at a time.
- Runtime.RuntimeState.OnSearchResponse: takes the item count directly. `Runtime.search` builds its result list by mapping over the response object itself, not its `items`, and that mapping is not modelled.
- MainScreen.ScreenState.Search: the network call of the kits screen is an injected total function; its failures, which would escape `handleEvent` there, are not modelled.
- The chooser intent of `AppContextReceived` in the kits variant is the application context and the read-only YouTube scope; the credential's back-off policy is not modelled.
- The permission request after a denied check has no follow-up: the runner's `RequestPermission` branch is not implemented, and the model records exactly that.
- Parcel-based state restoration (`rememberSaveable`) is not modelled; a restart restores the model through the saved preference only.
