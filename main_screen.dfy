/**
 * The screen that runs the `kits` update. It keeps the model, collects
 * dispatched events one at a time, and handles each by committing the
 * update's model before executing its effects in list order. Effects reach
 * the platform through three callbacks: committing the model, launching an
 * intent and dispatching an event. The collector passes live callbacks; the
 * lifecycle's `onDestroy` handles `Dispose` directly with callbacks that do
 * nothing. The effect executor has no branch for `GetAppContext` or
 * `ActForResult`, and none of its calls is guarded: the search runs
 * synchronously and its response is dispatched.
 */
module MainScreen {
  import opened Wrappers
  import opened Platform
  import opened Json
  import opened KitsMvu
  import KitsMain

  /** What the screen asks of the platform, in the order it asks. */
  datatype Request =
    | ShowToast(text: string)
    | WriteLog(tag: string, text: string, throwable: Option<Throwable>)
    | LaunchAccountChooser
    | SearchSent(query: string)

  /** The callbacks `handleEvent` is given: the collector's live ones, or the inert ones of `onDestroy`. */
  datatype Callbacks = Live | Inert

  /** The search service: the response the YouTube API gives for a query. */
  type SearchService = string -> KitsMain.SearchListResponse

  /**
   * Everything the screen reads or changes: the model, the dispatched events
   * not yet collected, the requests made so far, the stored preferences and
   * the credential's selected account.
   */
  datatype State = State(
    model: KitsMain.Model,
    events: seq<KitsMain.Event>,
    requests: seq<Request>,
    prefs: map<string, JsonText>,
    selectedAccount: Option<string>)

  /** A freshly composed screen: default model, nothing dispatched or requested, no account selected. */
  function Initial(prefs: map<string, JsonText>): State {
    State(KitsMain.Model(), [], [], prefs, None)
  }

  /** `prefs.getString(name, defValue)`. */
  function StoredOr(s: State, name: string, defValue: Option<JsonText>): Option<JsonText> {
    if name in s.prefs then Some(s.prefs[name]) else defValue
  }

  /** `dispatch(event)`: queued by the live callback, dropped by the inert one. */
  function Dispatched(s: State, callbacks: Callbacks, event: KitsMain.Event): State {
    if callbacks.Live? then s.(events := s.events + [event]) else s
  }

  /** The state after `execute(effect)`. */
  function AfterEffect(s: State, effect: Effect, callbacks: Callbacks, search: SearchService): State {
    match effect
    case LoadPref(name, defValue) =>
      Dispatched(s, callbacks, KitsMain.StrPrefLoaded(StoredOr(s, name, defValue)))
    case Toast(text) => s.(requests := s.requests + [ShowToast(text)])
    case Log(text, throwable, tag) => s.(requests := s.requests + [WriteLog(tag, text, throwable)])
    case Search(q) =>
      Dispatched(s.(requests := s.requests + [SearchSent(q)]), callbacks, KitsMain.ResultReceived(Some(search(q))))
    case SavePref(name, value) => s.(prefs := s.prefs[name := value])
    case ChooseAccount => if callbacks.Live? then s.(requests := s.requests + [LaunchAccountChooser]) else s
    case SelectAccount(name) => s.(selectedAccount := name)
    case GetAppContext => s
    case ActForResult(_) => s
  }

  /** The state after executing the effects one by one, in list order. */
  function AfterEffects(s: State, effects: seq<Effect>, callbacks: Callbacks, search: SearchService): State
    decreases |effects|
  {
    if effects == [] then s
    else AfterEffects(AfterEffect(s, effects[0], callbacks, search), effects[1..], callbacks, search)
  }

  /** The state after `handleEvent(event)`: the new model is committed (by the live callback), then the effects run. */
  function AfterEvent(s: State, event: KitsMain.Event, callbacks: Callbacks, search: SearchService): State {
    var change := KitsMain.Update(s.model, event);
    var committed := if callbacks.Live? then s.(model := change.model) else s;
    AfterEffects(committed, change.effects, callbacks, search)
  }

  /** The state after the collector takes the oldest dispatched event, if there is one, and handles it. */
  function AfterCollect(s: State, search: SearchService): State {
    if s.events == [] then s else AfterEvent(s.(events := s.events[1..]), s.events[0], Live, search)
  }

  // Properties of the screen

  /** Executing one more effect after a list is executing the extended list. */
  lemma {:induction false} AfterEffectsSnoc(s: State, effects: seq<Effect>, effect: Effect, callbacks: Callbacks, search: SearchService)
    ensures AfterEffects(s, effects + [effect], callbacks, search) ==
      AfterEffect(AfterEffects(s, effects, callbacks, search), effect, callbacks, search)
    decreases |effects|
  {
    if effects == [] {
      assert effects + [effect] == [effect];
    } else {
      assert (effects + [effect])[1..] == effects[1..] + [effect];
      AfterEffectsSnoc(AfterEffect(s, effects[0], callbacks, search), effects[1..], effect, callbacks, search);
    }
  }

  /** Running a one-effect or two-effect list. */
  lemma AfterShortLists(s: State, e1: Effect, e2: Effect, callbacks: Callbacks, search: SearchService)
    ensures AfterEffects(s, [e1], callbacks, search) == AfterEffect(s, e1, callbacks, search)
    ensures AfterEffects(s, [e1, e2], callbacks, search) ==
      AfterEffect(AfterEffect(s, e1, callbacks, search), e2, callbacks, search)
  {
    assert [e1][1..] == [];
    assert [e1, e2][1..] == [e2];
    calc {
      AfterEffects(s, [e1, e2], callbacks, search);
      AfterEffects(AfterEffect(s, e1, callbacks, search), [e2], callbacks, search);
      AfterEffects(AfterEffect(AfterEffect(s, e1, callbacks, search), e2, callbacks, search), [], callbacks, search);
    }
  }

  /** No effect touches the model, and requests are only ever appended. */
  lemma {:induction false} EffectsKeepModel(s: State, effects: seq<Effect>, callbacks: Callbacks, search: SearchService)
    ensures AfterEffects(s, effects, callbacks, search).model == s.model
    ensures var t := AfterEffects(s, effects, callbacks, search);
      |s.requests| <= |t.requests| && t.requests[..|s.requests|] == s.requests
    decreases |effects|
  {
    if effects != [] {
      var next := AfterEffect(s, effects[0], callbacks, search);
      EffectsKeepModel(next, effects[1..], callbacks, search);
    }
  }

  /** With the inert callbacks nothing is dispatched, whatever the effects. */
  lemma {:induction false} InertDispatchesNothing(s: State, effects: seq<Effect>, search: SearchService)
    ensures AfterEffects(s, effects, Inert, search).events == s.events
    decreases |effects|
  {
    if effects != [] {
      InertDispatchesNothing(AfterEffect(s, effects[0], Inert, search), effects[1..], search);
    }
  }

  /** A collected event leaves the model the update produced: the effects that follow never change it. */
  lemma ModelCommittedFirst(s: State, event: KitsMain.Event, search: SearchService)
    ensures AfterEvent(s, event, Live, search).model == KitsMain.Update(s.model, event).model
  {
    var change := KitsMain.Update(s.model, event);
    EffectsKeepModel(s.(model := change.model), change.effects, Live, search);
  }

  /** Handling with the inert callbacks keeps the model and the queue: only requests, preferences and the account can change. */
  lemma InertKeepsModelAndQueue(s: State, event: KitsMain.Event, search: SearchService)
    ensures AfterEvent(s, event, Inert, search).model == s.model
    ensures AfterEvent(s, event, Inert, search).events == s.events
  {
    var change := KitsMain.Update(s.model, event);
    EffectsKeepModel(s, change.effects, Inert, search);
    InertDispatchesNothing(s, change.effects, search);
  }

  /** `onDestroy` persists the model under the class name, and changes nothing else. */
  lemma DestroyPersists(s: State, search: SearchService)
    ensures AfterEvent(s, KitsMain.Dispose, Inert, search) ==
      s.(prefs := s.prefs[KitsMain.ClassName := KitsMain.ModelToJsonStr(s.model)])
  {
    var save := SavePref(KitsMain.ClassName, KitsMain.ModelToJsonStr(s.model));
    AfterShortLists(s, save, save, Inert, search);
  }

  /**
   * Persistence across a restart: a new screen over the preferences the
   * destroyed one saved, once created, collects `Init` and then the loaded
   * preference, and ends up with the destroyed screen's model.
   */
  lemma RestartRestoresModel(s: State, search: SearchService)
    ensures var saved := AfterEvent(s, KitsMain.Dispose, Inert, search);
      var created := Initial(saved.prefs).(events := [KitsMain.Init]);
      var loaded := AfterCollect(created, search);
      && loaded.events == [KitsMain.StrPrefLoaded(Some(KitsMain.ModelToJsonStr(s.model)))]
      && AfterCollect(loaded, search).model == s.model
  {
    DestroyPersists(s, search);
    var saved := AfterEvent(s, KitsMain.Dispose, Inert, search);
    var created := Initial(saved.prefs).(events := [KitsMain.Init]);
    assert created.events[1..] == [];
    var load := LoadPref(KitsMain.ClassName, None);
    AfterShortLists(created.(events := []), load, load, Live, search);
    var loaded := AfterCollect(created, search);
    assert loaded.events == [KitsMain.StrPrefLoaded(Some(KitsMain.ModelToJsonStr(s.model)))];
    assert loaded.events[1..] == [];
    KitsMain.StrPrefLoadedCases(loaded.model, s.model, "");
    ModelCommittedFirst(loaded.(events := []), loaded.events[0], search);
  }

  /** Sending a query announces it, requests the search and queues its response. */
  lemma QuerySentQueuesResponse(s: State, search: SearchService)
    ensures var t := AfterEvent(s, KitsMain.QuerySent, Live, search);
      && t.model == s.model
      && t.requests == s.requests + [ShowToast("Query sent: " + s.model.query), SearchSent(s.model.query)]
      && t.events == s.events + [KitsMain.ResultReceived(Some(search(s.model.query)))]
  {
    KitsMain.QuerySentSearches(s.model);
    AfterShortLists(s, Toast("Query sent: " + s.model.query), Search(s.model.query), Live, search);
  }

  /**
   * Asking to log in does nothing on this screen: the update asks for the
   * application context, and the executor has no branch for that effect.
   */
  lemma LoginRequestedIgnored(s: State, callbacks: Callbacks, search: SearchService)
    ensures AfterEvent(s, KitsMain.LoginRequested, callbacks, search) == s
  {
    AfterShortLists(s, GetAppContext, GetAppContext, callbacks, search);
  }

  /** A chosen account reaches the model but not the credential: the selected account is unchanged. */
  lemma AccountChosenNotSelected(s: State, result: ActivityResult, search: SearchService)
    ensures AfterEvent(s, KitsMain.AccountChosen(result), Live, search).model.accountName == AccountNameOf(result)
    ensures AfterEvent(s, KitsMain.AccountChosen(result), Live, search).selectedAccount == s.selectedAccount
  {
    KitsMain.AccountChosenSetsAccount(s.model, result);
    var toast := Toast("Account chosen: " + NullableText(AccountNameOf(result)));
    AfterShortLists(s.(model := KitsMain.Update(s.model, KitsMain.AccountChosen(result)).model), toast, toast, Live, search);
  }

  /** The screen: its model, the event flow, and the platform objects it reaches. */
  class ScreenState {
    var model: KitsMain.Model
    var events: seq<KitsMain.Event>
    var requests: seq<Request>
    var prefs: map<string, JsonText>
    var selectedAccount: Option<string>
    const search: SearchService

    function Snapshot(): State
      reads this
    {
      State(model, events, requests, prefs, selectedAccount)
    }

    /** Composing the screen: the default model over the stored preferences. */
    constructor (prefs: map<string, JsonText>, search: SearchService)
      ensures Snapshot() == Initial(prefs) && this.search == search
    {
      this.model := KitsMain.Model();
      this.events := [];
      this.requests := [];
      this.prefs := prefs;
      this.selectedAccount := None;
      this.search := search;
    }

    /** `dispatch`: queued by the live callback, dropped by the inert one. */
    method Dispatch(event: KitsMain.Event, callbacks: Callbacks)
      modifies this
      ensures Snapshot() == Dispatched(old(Snapshot()), callbacks, event)
    {
      if callbacks.Live? {
        events := events + [event];
      }
    }

    /** `loadStrPref`: reads the stored string, or the default, and dispatches it as `StrPrefLoaded`. */
    method LoadStrPref(name: string, defValue: Option<JsonText>, callbacks: Callbacks)
      modifies this
      ensures Snapshot() == Dispatched(old(Snapshot()), callbacks, KitsMain.StrPrefLoaded(StoredOr(old(Snapshot()), name, defValue)))
    {
      var value := if name in prefs then Some(prefs[name]) else defValue;
      Dispatch(KitsMain.StrPrefLoaded(value), callbacks);
    }

    /** `saveStrPref`: stores the string under the name. */
    method SaveStrPref(name: string, value: JsonText)
      modifies this
      ensures Snapshot() == old(Snapshot()).(prefs := old(prefs)[name := value])
    {
      prefs := prefs[name := value];
    }

    /** `search`: the query is sent, and the response it gets is dispatched as `ResultReceived`. */
    method Search(query: string, callbacks: Callbacks)
      modifies this
      ensures Snapshot() == Dispatched(old(Snapshot()).(requests := old(requests) + [SearchSent(query)]),
        callbacks, KitsMain.ResultReceived(Some(search(query))))
    {
      requests := requests + [SearchSent(query)];
      var response := search(query);
      Dispatch(KitsMain.ResultReceived(Some(response)), callbacks);
    }

    /** `chooseAccount`: the chooser intent is handed to the launch callback. */
    method ChooseAccount(callbacks: Callbacks)
      modifies this
      ensures Snapshot() == if callbacks.Live? then old(Snapshot()).(requests := old(requests) + [LaunchAccountChooser]) else old(Snapshot())
    {
      if callbacks.Live? {
        requests := requests + [LaunchAccountChooser];
      }
    }

    /** `handleAccountName`: sets the credential's selected account. */
    method HandleAccountName(accountName: Option<string>)
      modifies this
      ensures Snapshot() == old(Snapshot()).(selectedAccount := accountName)
    {
      selectedAccount := accountName;
    }

    /** `execute(effect)`. */
    method Execute(effect: Effect, callbacks: Callbacks)
      modifies this
      ensures Snapshot() == AfterEffect(old(Snapshot()), effect, callbacks, search)
    {
      match effect {
        case LoadPref(name, defValue) =>
          LoadStrPref(name, defValue, callbacks);
        case Toast(text) =>
          requests := requests + [ShowToast(text)];
        case Log(text, throwable, tag) =>
          requests := requests + [WriteLog(tag, text, throwable)];
        case Search(q) =>
          Search(q, callbacks);
        case SavePref(name, value) =>
          SaveStrPref(name, value);
        case ChooseAccount =>
          ChooseAccount(callbacks);
        case SelectAccount(name) =>
          HandleAccountName(name);
        case GetAppContext =>
        case ActForResult(_) =>
      }
    }

    /** The `forEach` of `handleEvent`: the effects are executed one by one, in list order. */
    method ExecuteAll(effects: seq<Effect>, callbacks: Callbacks)
      modifies this
      ensures Snapshot() == AfterEffects(old(Snapshot()), effects, callbacks, search)
    {
      var i := 0;
      while i < |effects|
        invariant 0 <= i <= |effects|
        invariant Snapshot() == AfterEffects(old(Snapshot()), effects[..i], callbacks, search)
      {
        AfterEffectsSnoc(old(Snapshot()), effects[..i], effects[i], callbacks, search);
        assert effects[..i + 1] == effects[..i] + [effects[i]];
        Execute(effects[i], callbacks);
        i := i + 1;
      }
      assert effects[..i] == effects;
    }

    /** `handleEvent`: update the current model, commit the new one, then execute the effects in list order. */
    method HandleEvent(event: KitsMain.Event, callbacks: Callbacks)
      modifies this
      ensures Snapshot() == AfterEvent(old(Snapshot()), event, callbacks, search)
    {
      var change := KitsMain.Update(model, event);
      if callbacks.Live? {
        model := change.model;
      }
      ExecuteAll(change.effects, callbacks);
    }

    /** One step of the collector: the oldest dispatched event, if any, is taken off the flow and handled live. */
    method CollectNext()
      modifies this
      ensures Snapshot() == AfterCollect(old(Snapshot()), search)
    {
      if events != [] {
        var event := events[0];
        events := events[1..];
        HandleEvent(event, Live);
      }
    }

    /** The lifecycle observer's `onCreate`: the initialising event is dispatched. */
    method OnCreate()
      modifies this
      ensures Snapshot() == old(Snapshot()).(events := old(events) + [KitsMain.Init])
    {
      Dispatch(KitsMain.Init, Live);
    }

    /** The lifecycle observer's `onDestroy`: the disposing event is handled at once with the inert callbacks. */
    method OnDestroy()
      modifies this
      ensures Snapshot() == AfterEvent(old(Snapshot()), KitsMain.Dispose, Inert, search)
      ensures model == old(model) && events == old(events)
    {
      InertKeepsModelAndQueue(Snapshot(), KitsMain.Dispose, search);
      HandleEvent(KitsMain.Dispose, Inert);
    }

    /** The activity-result launcher's callback: the result is dispatched as `AccountChosen`. */
    method OnActivityResult(result: ActivityResult)
      modifies this
      ensures Snapshot() == old(Snapshot()).(events := old(events) + [KitsMain.AccountChosen(result)])
    {
      Dispatch(KitsMain.AccountChosen(result), Live);
    }
  }
}
