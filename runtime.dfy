/**
 * The effect runner of the core module. A `RuntimeState` owns the single
 * model; `HandleEvent` runs the core update on it and executes the resulting
 * effects one by one, in order. A `Modify` effect installs its model; checking
 * a permission dispatches the result onto the event queue. Loading a
 * preference reads the stored string, but its callback, as written, drops the
 * event it builds (see `PrefWiring`). Failures are swallowed at two
 * boundaries: around the update (reported with a toast and a warning) and
 * around each effect (reported with a warning, the remaining effects still
 * run). The platform is reduced to what the runner records or reads: the
 * toasts, log lines, chooser launches and searches it requests, the stored
 * preferences, the credential's selected account and the granted permissions.
 */
module Runtime {
  import opened Wrappers
  import opened Platform
  import opened Json
  import opened CoreMvu
  import CoreMain

  /** What a `Modify` carries once it reaches `execute`: the payload is checked with `is Main.Model`. */
  datatype Payload = ModelPayload(model: CoreMain.Model) | OtherPayload(text: string)

  function PayloadText(p: Payload): string {
    match p
    case ModelPayload(m) => CoreMain.ModelText(m)
    case OtherPayload(text) => text
  }

  /** An effect of the core update as `execute` receives it. */
  function Lift(effect: Effect<CoreMain.Model>): (r: Effect<Payload>)
    ensures effect.Modify? <==> r.Modify?
    ensures effect.Modify? ==> r.newModel == ModelPayload(effect.newModel)
    ensures effect.Toast? ==> r == Toast(effect.text)
    ensures effect.Log? ==> r == Log(effect.text, effect.throwable, effect.tag)
    ensures effect.CheckPermission? ==> r == CheckPermission(effect.permission)
    ensures effect.RequestPermission? ==> r == RequestPermission(effect.permission)
    ensures effect.LoadPref? ==> r == LoadPref(effect.name, effect.defValue)
    ensures effect.SavePref? ==> r == SavePref(effect.name, effect.value)
    ensures effect.ChooseAccount? ==> r == ChooseAccount
    ensures effect.SelectAccount? ==> r == SelectAccount(effect.accountName)
    ensures effect.Search? ==> r == Search(effect.query)
    ensures !effect.Modify? ==> EffectText(r, PayloadText) == EffectText(effect, CoreMain.ModelText)
  {
    match effect
    case Toast(text) => Toast(text)
    case Log(text, throwable, tag) => Log(text, throwable, tag)
    case CheckPermission(p) => CheckPermission(p)
    case RequestPermission(p) => RequestPermission(p)
    case LoadPref(name, defValue) => LoadPref(name, defValue)
    case SavePref(name, value) => SavePref(name, value)
    case ChooseAccount => ChooseAccount
    case SelectAccount(n) => SelectAccount(n)
    case Search(q) => Search(q)
    case Modify(m) => Modify(ModelPayload(m))
  }

  function LiftAll(effects: seq<Effect<CoreMain.Model>>): (r: seq<Effect<Payload>>)
    ensures |r| == |effects|
    ensures forall i :: 0 <= i < |effects| ==> r[i] == Lift(effects[i])
  {
    seq(|effects|, i requires 0 <= i < |effects| => Lift(effects[i]))
  }

  /** `Log.d` for log effects, `Log.w` for failures. */
  datatype Priority = Debug | Warn

  /** What the runner asks of the platform, in the order it asks. */
  datatype Request =
    | ShowToast(text: string)
    | WriteLog(priority: Priority, tag: string, text: string, throwable: Option<Throwable>)
    | LaunchAccountChooser
    | StartSearch(query: string)

  /**
   * Everything the runner reads or changes: the model, the dispatched events
   * not yet collected, the requests made so far, the stored preferences, the
   * credential's selected account and the permissions the user has granted.
   */
  datatype State = State(
    model: CoreMain.Model,
    events: seq<CoreMain.Event>,
    requests: seq<Request>,
    prefs: map<string, JsonText>,
    selectedAccount: Option<string>,
    granted: set<string>)

  /** The state of a freshly composed runtime: default model, nothing dispatched or requested, no account selected. */
  function Initial(prefs: map<string, JsonText>, granted: set<string>): State {
    State(CoreMain.Model(), [], [], prefs, None, granted)
  }

  /** The message of the `IllegalArgumentException` thrown for a `Modify` that does not carry a model. */
  const InvalidModify: string := "Invalid effect: must have a model of type Model"

  /** The warning logged when executing an effect throws. */
  function EffectFailure(effect: Effect<Payload>, t: Throwable): Request {
    WriteLog(Warn, "", "Error executing effect: " + EffectText(effect, PayloadText), Some(t))
  }

  /** The two reports of an update that throws. */
  function UpdateFailure(event: CoreMain.Event, t: Throwable): seq<Request> {
    [ ShowToast("Failure handling event " + CoreMain.EventText(event) + ": " + t.Text()),
      WriteLog(Warn, "", "Failure handling event " + CoreMain.EventText(event), Some(t)) ]
  }

  /** `prefs.getString(name, defValue)`. */
  function StoredOr(s: State, name: string, defValue: Option<JsonText>): Option<JsonText> {
    if name in s.prefs then Some(s.prefs[name]) else defValue
  }

  /** `ContextCompat.checkSelfPermission`. */
  function CheckResult(s: State, permission: string): int {
    if permission in s.granted then PERMISSION_GRANTED else PERMISSION_DENIED
  }

  /**
   * How the `onPrefLoaded` callback of `execute` is wired. As written, its
   * body puts the `dispatch` reference on one line and the parenthesised
   * `StrPrefLoaded` event on the next; Kotlin ends an expression at a line
   * break before `(`, so the event is built and discarded and nothing is
   * dispatched. `Intended` is the one-line call the kits screen makes, which
   * dispatches the loaded value. The runtime class follows `AsWritten`.
   */
  datatype PrefWiring = AsWritten | Intended

  /** The event a preference load would dispatch: the stored string, or the default. */
  function PrefLoaded(s: State, name: string, defValue: Option<JsonText>): CoreMain.Event {
    CoreMain.StrPrefLoaded(StoredOr(s, name, defValue))
  }

  /** The state after `execute(effect)`, its failures caught. */
  function AfterEffect(s: State, effect: Effect<Payload>, wiring: PrefWiring): State {
    match effect
    case Modify(p) =>
      if p.ModelPayload? then s.(model := p.model)
      else s.(requests := s.requests + [EffectFailure(effect, IllegalArgumentException(InvalidModify))])
    case Toast(text) => s.(requests := s.requests + [ShowToast(text)])
    case Log(text, throwable, tag) => s.(requests := s.requests + [WriteLog(Debug, tag, text, throwable)])
    case LoadPref(name, defValue) =>
      if wiring.Intended? then s.(events := s.events + [PrefLoaded(s, name, defValue)]) else s
    case SavePref(name, value) => s.(prefs := s.prefs[name := value])
    case ChooseAccount => s.(requests := s.requests + [LaunchAccountChooser])
    case SelectAccount(name) => s.(selectedAccount := name)
    case CheckPermission(p) =>
      s.(events := s.events + [CoreMain.PermissionChecked(CheckResult(s, p))])
    case Search(q) => s.(requests := s.requests + [StartSearch(q)])
    case RequestPermission(_) =>
      var t := NotImplementedError("An operation is not implemented: Implement request permission on "
        + EffectText(effect, PayloadText));
      s.(requests := s.requests + [EffectFailure(effect, t)])
  }

  /** The state after executing the effects one by one, in list order. */
  function AfterEffects(s: State, effects: seq<Effect<Payload>>, wiring: PrefWiring): State
    decreases |effects|
  {
    if effects == [] then s else AfterEffects(AfterEffect(s, effects[0], wiring), effects[1..], wiring)
  }

  /** The state after `handleEvent(event)`. */
  function AfterEvent(s: State, event: CoreMain.Event, wiring: PrefWiring): State {
    match CoreMain.Update(s.model, event)
    case Success(change) => AfterEffects(s, LiftAll(change.effects), wiring)
    case Failure(t) => s.(requests := s.requests + UpdateFailure(event, t))
  }

  /** The state after the collector takes the oldest dispatched event, if there is one, and handles it. */
  function AfterCollect(s: State, wiring: PrefWiring): State {
    if s.events == [] then s else AfterEvent(s.(events := s.events[1..]), s.events[0], wiring)
  }

  // Properties of the runner

  /** Executing one more effect after a list is executing the extended list. */
  lemma {:induction false} AfterEffectsSnoc(s: State, effects: seq<Effect<Payload>>, effect: Effect<Payload>, wiring: PrefWiring)
    ensures AfterEffects(s, effects + [effect], wiring) == AfterEffect(AfterEffects(s, effects, wiring), effect, wiring)
    decreases |effects|
  {
    if effects == [] {
      assert effects + [effect] == [effect];
    } else {
      assert (effects + [effect])[1..] == effects[1..] + [effect];
      AfterEffectsSnoc(AfterEffect(s, effects[0], wiring), effects[1..], effect, wiring);
    }
  }

  /** Effects run strictly in list order: running a concatenation runs the first part, then the second. */
  lemma {:induction false} AfterEffectsAppend(s: State, first: seq<Effect<Payload>>, second: seq<Effect<Payload>>, wiring: PrefWiring)
    ensures AfterEffects(s, first + second, wiring) == AfterEffects(AfterEffects(s, first, wiring), second, wiring)
    decreases |first|
  {
    if first == [] {
      assert first + second == second;
    } else {
      assert (first + second)[1..] == first[1..] + second;
      AfterEffectsAppend(AfterEffect(s, first[0], wiring), first[1..], second, wiring);
    }
  }

  /** Running a one-effect or two-effect list. */
  lemma AfterShortLists(s: State, e1: Effect<Payload>, e2: Effect<Payload>, wiring: PrefWiring)
    ensures AfterEffects(s, [e1], wiring) == AfterEffect(s, e1, wiring)
    ensures AfterEffects(s, [e1, e2], wiring) == AfterEffect(AfterEffect(s, e1, wiring), e2, wiring)
  {
    assert [e1][1..] == [];
    assert [e1, e2][1..] == [e2];
    calc {
      AfterEffects(s, [e1, e2], wiring);
      AfterEffects(AfterEffect(s, e1, wiring), [e2], wiring);
      AfterEffects(AfterEffect(AfterEffect(s, e1, wiring), e2, wiring), [], wiring);
    }
  }

  /**
   * What one effect may touch: only a `Modify` carrying a model changes the
   * model; `CheckPermission` dispatches its result, and `LoadPref` dispatches
   * only under the intended wiring; only `SavePref` changes the preferences,
   * only `SelectAccount` changes the selected account, and requests are only
   * ever appended.
   */
  lemma EffectFrame(s: State, effect: Effect<Payload>, wiring: PrefWiring)
    ensures var t := AfterEffect(s, effect, wiring);
      && t.model == (if effect.Modify? && effect.newModel.ModelPayload? then effect.newModel.model else s.model)
      && t.events == s.events +
        (if effect.CheckPermission? then [CoreMain.PermissionChecked(CheckResult(s, effect.permission))]
         else if effect.LoadPref? && wiring.Intended? then [PrefLoaded(s, effect.name, effect.defValue)]
         else [])
      && t.prefs == (if effect.SavePref? then s.prefs[effect.name := effect.value] else s.prefs)
      && t.selectedAccount == (if effect.SelectAccount? then effect.accountName else s.selectedAccount)
      && t.granted == s.granted
      && |s.requests| <= |t.requests| && t.requests[..|s.requests|] == s.requests
  {
  }

  /** As written, `LoadPref` reads the preference and changes nothing: the event its callback builds is discarded. */
  lemma LoadPrefDropped(s: State, name: string, defValue: Option<JsonText>)
    ensures AfterEffect(s, LoadPref(name, defValue), AsWritten) == s
  {
  }

  /** Wired as intended, `LoadPref` answers with the stored value, or the default when nothing is stored under the name. */
  lemma LoadPrefAnswers(s: State, name: string, defValue: Option<JsonText>)
    ensures AfterEffect(s, LoadPref(name, defValue), Intended) ==
      s.(events := s.events + [CoreMain.StrPrefLoaded(if name in s.prefs then Some(s.prefs[name]) else defValue)])
  {
  }

  /** `CheckPermission` answers with granted or denied. */
  lemma CheckPermissionAnswers(s: State, permission: string, wiring: PrefWiring)
    ensures AfterEffect(s, CheckPermission(permission), wiring).events ==
      s.events + [CoreMain.PermissionChecked(if permission in s.granted then PERMISSION_GRANTED else PERMISSION_DENIED)]
  {
  }

  /** `RequestPermission` is not implemented: it changes nothing but a warning. */
  lemma RequestPermissionDropped(s: State, permission: string, wiring: PrefWiring)
    ensures var t := AfterEffect(s, RequestPermission(permission), wiring);
      && t.(requests := s.requests) == s
      && |t.requests| == |s.requests| + 1
      && t.requests[|s.requests|].WriteLog? && t.requests[|s.requests|].priority == Warn
      && t.requests[|s.requests|].throwable.Some? && t.requests[|s.requests|].throwable.value.NotImplementedError?
  {
  }

  /** A `Modify` whose payload is not a model is reported and skipped: the model stays and the later effects still run. */
  lemma ForeignModifySkipped(s: State, text: string, rest: seq<Effect<Payload>>, wiring: PrefWiring)
    ensures var e: Effect<Payload> := Modify(OtherPayload(text));
      AfterEffects(s, [e] + rest, wiring) ==
        AfterEffects(s.(requests := s.requests + [EffectFailure(e, IllegalArgumentException(InvalidModify))]), rest, wiring)
  {
    assert ([Modify(OtherPayload(text))] + rest)[1..] == rest;
  }

  /** Running a core change leaves the model at the change's last `Modify`, or where it was. */
  lemma {:induction false} RunnerInstallsLastModify(s: State, effects: seq<Effect<CoreMain.Model>>, wiring: PrefWiring)
    ensures AfterEffects(s, LiftAll(effects), wiring).model ==
      (match LastModify(effects) case Some(m) => m case None => s.model)
    decreases |effects|
  {
    if effects != [] {
      var init := effects[..|effects| - 1];
      var last := effects[|effects| - 1];
      assert LiftAll(effects) == LiftAll(init) + [Lift(last)];
      AfterEffectsSnoc(s, LiftAll(init), Lift(last), wiring);
      RunnerInstallsLastModify(s, init, wiring);
    }
  }

  /** A handled event leaves the model where the update's change puts it. */
  lemma HandledEventFollowsUpdate(s: State, event: CoreMain.Event, wiring: PrefWiring)
    requires CoreMain.Update(s.model, event).Success?
    ensures AfterEvent(s, event, wiring).model ==
      (match LastModify(CoreMain.Update(s.model, event).value.effects) case Some(m) => m case None => s.model)
  {
    RunnerInstallsLastModify(s, CoreMain.Update(s.model, event).value.effects, wiring);
  }

  /** An update that throws executes no effect: only a toast and a warning naming the event are added. */
  lemma UpdateFailureReported(s: State, event: CoreMain.Event, wiring: PrefWiring)
    requires CoreMain.Update(s.model, event).Failure?
    ensures var t := CoreMain.Update(s.model, event).error;
      AfterEvent(s, event, wiring) == s.(requests := s.requests + [
        ShowToast("Failure handling event " + CoreMain.EventText(event) + ": " + t.Text()),
        WriteLog(Warn, "", "Failure handling event " + CoreMain.EventText(event), Some(t))])
  {
  }

  /** A stored string that is not JSON reaches the update as a failure: the model is kept. */
  lemma MalformedPrefReported(s: State, raw: string, wiring: PrefWiring)
    ensures AfterEvent(s, CoreMain.StrPrefLoaded(Some(Malformed(raw))), wiring).model == s.model
    ensures AfterEvent(s, CoreMain.StrPrefLoaded(Some(Malformed(raw))), wiring).events == s.events
  {
    UpdateFailureReported(s, CoreMain.StrPrefLoaded(Some(Malformed(raw))), wiring);
  }

  /** Destroying saves the serialised model under the class name and keeps the rest of the state. */
  lemma DestroySaves(s: State, wiring: PrefWiring)
    ensures AfterEvent(s, CoreMain.LifecycleDestroyed, wiring) ==
      s.(prefs := s.prefs[CoreMain.ClassName := CoreMain.Serialize(s.model)])
  {
    var save: Effect<Payload> := SavePref(CoreMain.ClassName, CoreMain.Serialize(s.model));
    assert LiftAll([SavePref(CoreMain.ClassName, CoreMain.Serialize(s.model))]) == [save];
    AfterShortLists(s, save, save, wiring);
  }

  /** Creation executes exactly one `LoadPref` of the class name, with no default. */
  lemma CreatedLoads(s: State, wiring: PrefWiring)
    ensures AfterEvent(s, CoreMain.LifecycleCreated, wiring) == AfterEffect(s, LoadPref(CoreMain.ClassName, None), wiring)
  {
    var load: Effect<Payload> := LoadPref(CoreMain.ClassName, None);
    assert LiftAll([LoadPref(CoreMain.ClassName, None)]) == [load];
    AfterShortLists(s, load, load, wiring);
  }

  /**
   * As written, a restart loses the saved model: destroying saves it, but a
   * new runtime over the saved preferences queues nothing when it is created,
   * so collecting leaves it with the default model.
   */
  lemma RestartLosesModel(s: State)
    ensures var saved := AfterEvent(s, CoreMain.LifecycleDestroyed, AsWritten);
      && CoreMain.ClassName in saved.prefs && saved.prefs[CoreMain.ClassName] == CoreMain.Serialize(s.model)
      && var created := AfterEvent(Initial(saved.prefs, s.granted), CoreMain.LifecycleCreated, AsWritten);
      && created.events == []
      && AfterCollect(created, AsWritten).model == CoreMain.Model()
      && (s.model != CoreMain.Model() ==> AfterCollect(created, AsWritten).model != s.model)
  {
    DestroySaves(s, AsWritten);
    var saved := AfterEvent(s, CoreMain.LifecycleDestroyed, AsWritten);
    CreatedLoads(Initial(saved.prefs, s.granted), AsWritten);
  }

  /**
   * Wired as intended, persistence survives a restart: destroying saves the
   * model, and a new runtime over the same preferences that is created and
   * collects its one event ends up with that model again.
   */
  lemma RestartRestoresModel(s: State)
    ensures var saved := AfterEvent(s, CoreMain.LifecycleDestroyed, Intended);
      && saved.model == s.model
      && saved.prefs == s.prefs[CoreMain.ClassName := CoreMain.Serialize(s.model)]
      && var created := AfterEvent(Initial(saved.prefs, s.granted), CoreMain.LifecycleCreated, Intended);
      && created.events == [CoreMain.StrPrefLoaded(Some(CoreMain.Serialize(s.model)))]
      && AfterCollect(created, Intended).model == s.model
  {
    DestroySaves(s, Intended);
    var saved := AfterEvent(s, CoreMain.LifecycleDestroyed, Intended);
    var restarted := Initial(saved.prefs, s.granted);
    CreatedLoads(restarted, Intended);
    var created := AfterEvent(restarted, CoreMain.LifecycleCreated, Intended);
    assert created.events == [CoreMain.StrPrefLoaded(Some(CoreMain.Serialize(s.model)))];
    CoreMain.StrPrefLoadedRestores(created.model, s.model);
    assert created.events[1..] == [];
    assert AfterCollect(created, Intended) == AfterEvent(created.(events := []), created.events[0], Intended);
    RunnerInstallsLastModify(created.(events := []), [Modify(s.model)], Intended);
    assert LastModify([Modify(s.model)]) == Some(s.model);
  }

  /**
   * Searching with the accounts permission granted: the query change is
   * logged, sending it dispatches a granted permission check, collecting that
   * announces and starts the search for the query, and its response is
   * announced with the item count.
   */
  lemma SearchScenario(s: State, query: string, itemCount: nat, wiring: PrefWiring)
    requires GET_ACCOUNTS in s.granted && s.events == []
    ensures var s1 := AfterEvent(s, CoreMain.QueryChanged(query), wiring);
      && s1.model == s.model.(query := query)
      && s1.requests == s.requests + [WriteLog(Debug, CoreMain.Tag, "You're looking for " + query, None)]
      && var s2 := AfterEvent(s1, CoreMain.QuerySent, wiring);
      && s2.events == [CoreMain.PermissionChecked(PERMISSION_GRANTED)]
      && var s3 := AfterCollect(s2, wiring);
      && s3.events == []
      && s3.requests == s1.requests + [ShowToast("Query sent: " + query), StartSearch(query)]
      && var s4 := AfterEvent(s3, CoreMain.ResponseReceived(Some(CoreMain.Response(itemCount))), wiring);
      && s4.model == s3.model
      && |s4.requests| == |s3.requests| + 2
      && s4.requests[|s3.requests|] == ShowToast("Received " + NatText(itemCount) + " results")
  {
    // the query change installs the query and logs it
    CoreMain.QueryChangedInstallsQuery(s.model, query);
    var install: Effect<Payload> := Modify(ModelPayload(s.model.(query := query)));
    var logQuery: Effect<Payload> := Log(tag := CoreMain.Tag, text := "You're looking for " + query);
    assert LiftAll(CoreMain.Update(s.model, CoreMain.QueryChanged(query)).value.effects) == [install, logQuery];
    AfterShortLists(s, install, logQuery, wiring);
    var s1 := AfterEvent(s, CoreMain.QueryChanged(query), wiring);
    assert s1 == AfterEffect(AfterEffect(s, install, wiring), logQuery, wiring);
    // sending it checks the permission
    CoreMain.QuerySentChecksPermission(s1.model);
    var check: Effect<Payload> := CheckPermission(GET_ACCOUNTS);
    assert LiftAll([CheckPermission(GET_ACCOUNTS)]) == [check];
    AfterShortLists(s1, check, check, wiring);
    var s2 := AfterEvent(s1, CoreMain.QuerySent, wiring);
    assert s2 == AfterEffect(s1, check, wiring);
    // the granted check announces and starts the search
    var q := s2.model.query;
    assert q == query;
    CoreMain.PermissionCheckedBranches(s2.model, PERMISSION_GRANTED);
    var announce: Effect<Payload> := Toast("Query sent: " + q);
    var search: Effect<Payload> := Search(q);
    assert LiftAll([Toast("Query sent: " + q), Search(q)]) == [announce, search];
    var s2' := s2.(events := []);
    AfterShortLists(s2', announce, search, wiring);
    var s3 := AfterCollect(s2, wiring);
    assert s2.events[1..] == [];
    assert s3 == AfterEvent(s2', CoreMain.PermissionChecked(PERMISSION_GRANTED), wiring);
    assert s3 == AfterEffect(AfterEffect(s2', announce, wiring), search, wiring);
    // the response is announced with its count
    var r := Some(CoreMain.Response(itemCount));
    CoreMain.ResponseReceivedReports(s3.model, r);
    var received: Effect<Payload> := Toast("Received " + NatText(itemCount) + " results");
    var logged: Effect<Payload> := Log(tag := CoreMain.Tag, text := "Received result: " + CoreMain.ResponseText(r));
    assert LiftAll(CoreMain.Update(s3.model, CoreMain.ResponseReceived(r)).value.effects) == [received, logged];
    AfterShortLists(s3, received, logged, wiring);
  }

  /** The runtime state: `RuntimeState` and the platform objects it reaches. */
  class RuntimeState {
    var model: CoreMain.Model
    var events: seq<CoreMain.Event>
    var requests: seq<Request>
    var prefs: map<string, JsonText>
    var selectedAccount: Option<string>
    const granted: set<string>

    function Snapshot(): State
      reads this
    {
      State(model, events, requests, prefs, selectedAccount, granted)
    }

    /** `rememberRuntimeState()`: the default model over the stored preferences. */
    constructor (prefs: map<string, JsonText>, granted: set<string>)
      ensures Snapshot() == Initial(prefs, granted)
    {
      this.model := CoreMain.Model();
      this.events := [];
      this.requests := [];
      this.prefs := prefs;
      this.selectedAccount := None;
      this.granted := granted;
    }

    /** `dispatch`: the event joins the queue the collector reads. */
    method Dispatch(event: CoreMain.Event)
      modifies this
      ensures Snapshot() == old(Snapshot()).(events := old(events) + [event])
    {
      events := events + [event];
    }

    /**
     * `loadStrPref` with the callback `execute` passes: the stored string, or
     * the default, is read and wrapped as `StrPrefLoaded`, and the callback
     * drops that event, so the state is unchanged.
     */
    method LoadStrPref(name: string, defValue: Option<JsonText>) returns (loaded: CoreMain.Event)
      ensures loaded == PrefLoaded(Snapshot(), name, defValue)
      ensures loaded.StrPrefLoaded? && (name in prefs ==> loaded.pref == Some(prefs[name]))
    {
      var value := if name in prefs then Some(prefs[name]) else defValue;
      loaded := CoreMain.StrPrefLoaded(value);
    }

    /** `checkPermission`: dispatches the result of the check. */
    method CheckPermission(permission: string)
      modifies this
      ensures Snapshot() == old(Snapshot()).(events := old(events) + [CoreMain.PermissionChecked(CheckResult(old(Snapshot()), permission))])
    {
      var checkResult := if permission in granted then PERMISSION_GRANTED else PERMISSION_DENIED;
      Dispatch(CoreMain.PermissionChecked(checkResult));
    }

    /** `selectAccount`: sets the credential's selected account. */
    method SelectAccount(accountName: Option<string>)
      modifies this
      ensures Snapshot() == old(Snapshot()).(selectedAccount := accountName)
    {
      selectedAccount := accountName;
    }

    /** `execute(effect)`: one effect, with what it throws caught and logged. */
    method Execute(effect: Effect<Payload>)
      modifies this
      ensures Snapshot() == AfterEffect(old(Snapshot()), effect, AsWritten)
    {
      match effect {
        case Modify(p) =>
          if p.ModelPayload? {
            model := p.model;
          } else {
            requests := requests + [EffectFailure(effect, IllegalArgumentException(InvalidModify))];
          }
        case Toast(text) =>
          requests := requests + [ShowToast(text)];
        case Log(text, throwable, tag) =>
          requests := requests + [WriteLog(Debug, tag, text, throwable)];
        case LoadPref(name, defValue) =>
          var _ := LoadStrPref(name, defValue);
        case SavePref(name, value) =>
          prefs := prefs[name := value];
        case ChooseAccount =>
          requests := requests + [LaunchAccountChooser];
        case SelectAccount(name) =>
          SelectAccount(name);
        case CheckPermission(p) =>
          CheckPermission(p);
        case Search(q) =>
          requests := requests + [StartSearch(q)];
        case RequestPermission(_) =>
          var t := NotImplementedError("An operation is not implemented: Implement request permission on "
            + EffectText(effect, PayloadText));
          requests := requests + [EffectFailure(effect, t)];
      }
    }

    /** The `forEach` of `handleEvent`: the effects are executed one by one, in list order. */
    method ExecuteAll(effects: seq<Effect<Payload>>)
      modifies this
      ensures Snapshot() == AfterEffects(old(Snapshot()), effects, AsWritten)
    {
      var i := 0;
      while i < |effects|
        invariant 0 <= i <= |effects|
        invariant Snapshot() == AfterEffects(old(Snapshot()), effects[..i], AsWritten)
      {
        AfterEffectsSnoc(old(Snapshot()), effects[..i], effects[i], AsWritten);
        assert effects[..i + 1] == effects[..i] + [effects[i]];
        Execute(effects[i]);
        i := i + 1;
      }
      assert effects[..i] == effects;
    }

    /** `handleEvent(event)`: update the current model, then execute the effects in list order; a failing update is reported. */
    method HandleEvent(event: CoreMain.Event)
      modifies this
      ensures Snapshot() == AfterEvent(old(Snapshot()), event, AsWritten)
    {
      var result := CoreMain.Update(model, event);
      match result {
        case Success(change) =>
          ExecuteAll(LiftAll(change.effects));
        case Failure(t) =>
          requests := requests + UpdateFailure(event, t);
      }
    }

    /** One step of `collectEvents`: the oldest dispatched event, if any, is taken off the queue and handled. */
    method CollectNext()
      modifies this
      ensures Snapshot() == AfterCollect(old(Snapshot()), AsWritten)
    {
      if events != [] {
        var event := events[0];
        events := events[1..];
        HandleEvent(event);
      }
    }

    /** The lifecycle observer's `onCreate`: dispatch `LifecycleCreated`. */
    method OnCreate()
      modifies this
      ensures Snapshot() == old(Snapshot()).(events := old(events) + [CoreMain.LifecycleCreated])
    {
      Dispatch(CoreMain.LifecycleCreated);
    }

    /** The lifecycle observer's `onDestroy`: `LifecycleDestroyed` is handled at once, bypassing the queue. */
    method OnDestroy()
      modifies this
      ensures Snapshot() == AfterEvent(old(Snapshot()), CoreMain.LifecycleDestroyed, AsWritten)
    {
      HandleEvent(CoreMain.LifecycleDestroyed);
    }

    /** The account chooser's result callback: the result is dispatched as an event. */
    method OnActivityResult(result: ActivityResult)
      modifies this
      ensures Snapshot() == old(Snapshot()).(events := old(events) + [CoreMain.ActivityResultReceived(result)])
    {
      Dispatch(CoreMain.ActivityResultReceived(result));
    }

    /** The end of a launched search: its response, reduced to an item count, is dispatched. */
    method OnSearchResponse(itemCount: nat)
      modifies this
      ensures Snapshot() == old(Snapshot()).(events := old(events) + [CoreMain.ResponseReceived(Some(CoreMain.Response(itemCount)))])
    {
      Dispatch(CoreMain.ResponseReceived(Some(CoreMain.Response(itemCount))));
    }
  }
}
