/**
 * The update function of the core module: an immutable `Model`, the closed
 * `Event` union, `update` from a model and an event to a `Change`, and the
 * two-field JSON serialiser used to persist the model. `update` throws for a
 * permission-check code other than granted or denied and for a persisted
 * string that is not JSON, so it returns a `Result`.
 */
module CoreMain {
  import opened Wrappers
  import opened Platform
  import opened Json
  import opened CoreMvu

  /** `Main.javaClass.name`: the preference key the model is persisted under. */
  const ClassName: string := "me.cpele.compotube.core.Main"

  /** `javaClass.simpleName`: the tag of the log effects. */
  const Tag: string := "Main"

  /** The application state; `isLoggedIn` is derived from `accountName`, never stored. */
  datatype Model = Model(query: string := "", accountName: Option<string> := None)
  {
    predicate IsLoggedIn() {
      accountName.Some?
    }
  }

  /** `Model.toString()`: only the constructor properties are printed. */
  function ModelText(m: Model): string {
    "Model(query=" + m.query + ", accountName=" + NullableText(m.accountName) + ")"
  }

  /** `Event.ResponseReceived.Response`: a list of `Result` objects, each the same singleton. */
  datatype Response = Response(itemCount: nat)

  /** The class name `ResponseReceived.Result` prints as (its identity hash is not modelled). */
  const ResultObjectText: string := "me.cpele.compotube.core.Main$Event$ResponseReceived$Result"

  datatype Event =
    | LifecycleCreated
    | StrPrefLoaded(pref: Option<JsonText>)
    | LoginRequested
    | ActivityResultReceived(result: ActivityResult)
    | QueryChanged(value: string)
    | QuerySent
    | ResponseReceived(response: Option<Response>)
    | PermissionChecked(checkResult: int)
    | LifecycleDestroyed

  function ResponseText(response: Option<Response>): string {
    match response
    case None => "null"
    case Some(r) => "Response(items=[" + Join(seq(r.itemCount, _ => ResultObjectText)) + "])"
  }

  /** `Event.toString()`: data classes print their properties, objects their class name. */
  function EventText(event: Event): string {
    match event
    case LifecycleCreated => "me.cpele.compotube.core.Main$Event$LifecycleCreated"
    case StrPrefLoaded(v) => "StrPrefLoaded(value=" + JsonNullableText(v) + ")"
    case LoginRequested => "me.cpele.compotube.core.Main$Event$LoginRequested"
    case ActivityResultReceived(r) => "ActivityResultReceived(result=" + ActivityResultText(r) + ")"
    case QueryChanged(v) => "QueryChanged(value=" + v + ")"
    case QuerySent => "me.cpele.compotube.core.Main$Event$QuerySent"
    case ResponseReceived(r) => "ResponseReceived(response=" + ResponseText(r) + ")"
    case PermissionChecked(c) => "PermissionChecked(checkResult=" + IntText(c) + ")"
    case LifecycleDestroyed => "me.cpele.compotube.core.Main$Event$LifecycleDestroyed"
  }

  function Update(model: Model, event: Event): Result<Change<Model>, Throwable> {
    match event
    case LifecycleCreated => Success(ChangeOf([LoadPref(ClassName, None)]))
    case StrPrefLoaded(v) =>
      (match Deserialize(v)
       case Success(m) => Success(ChangeTo(m, []))
       case Failure(t) => Failure(t))
    case LoginRequested => Success(ChangeOf([ChooseAccount]))
    case ActivityResultReceived(r) => Success(UpdateAccount(model, r))
    case QueryChanged(v) => Success(UpdateQuery(model, v))
    case QuerySent => Success(ChangeOf([CheckPermission(GET_ACCOUNTS)]))
    case PermissionChecked(c) => RequestPermissionOrSearch(model, c)
    case ResponseReceived(r) => Success(UpdateResults(r))
    case LifecycleDestroyed => Success(ChangeOf([SavePref(ClassName, Serialize(model))]))
  }

  function RequestPermissionOrSearch(model: Model, checkResult: int): Result<Change<Model>, Throwable> {
    if checkResult == PERMISSION_GRANTED then Success(SearchChange(model))
    else if checkResult == PERMISSION_DENIED then Success(ChangeOf([RequestPermission(GET_ACCOUNTS)]))
    else Failure(IllegalStateException("Unknown permission check result: " + IntText(checkResult)))
  }

  /** A missing response counts as no items. */
  function UpdateResults(response: Option<Response>): Change<Model> {
    var size := match response case None => 0 case Some(r) => r.itemCount;
    ChangeOf([
      Toast("Received " + NatText(size) + " results"),
      Log(tag := Tag, text := "Received result: " + ResponseText(response))
    ])
  }

  /** `search(model)`: announce the query, then search for it. */
  function SearchChange(model: Model): Change<Model> {
    ChangeOf([Toast("Query sent: " + model.query), Search(model.query)])
  }

  function UpdateQuery(model: Model, value: string): Change<Model> {
    ChangeTo(model.(query := value), [Log(tag := Tag, text := "You're looking for " + value)])
  }

  function UpdateAccount(model: Model, result: ActivityResult): Change<Model> {
    var accountName := AccountNameOf(result);
    ChangeTo(model.(accountName := accountName), [
      Toast("Account chosen: " + NullableText(accountName)),
      SelectAccount(accountName)
    ])
  }

  /** `serialize`: `accountName` then `query` put into a fresh object; a null account leaves no member. */
  function Serialize(model: Model): JsonText {
    Stringify(Put(Put(map[], "accountName", model.accountName), "query", Some(model.query)))
  }

  /** `deserialize`: `null` is the default model; text that is not a JSON object throws. */
  function Deserialize(value: Option<JsonText>): Result<Model, Throwable> {
    match value
    case None => Success(Model())
    case Some(Malformed(raw)) => Failure(IllegalArgumentException("Error parsing JSON: " + raw))
    case Some(ObjectText(obj)) =>
      Success(Model(query := OptString(obj, "query"), accountName := GetStringOrNull(obj, "accountName")))
  }

  // Properties of the update function

  /** The default model has an empty query, no account, and is logged out; logged in means an account is present. */
  lemma DefaultModelLoggedOut(m: Model)
    ensures Model().query == "" && Model().accountName == None && !Model().IsLoggedIn()
    ensures m.IsLoggedIn() <==> m.accountName != None
  {
  }

  /** `update` throws exactly for an unknown permission-check code and for a persisted string that is not a JSON object. */
  lemma UpdateFailsOnlyOnBadInput(model: Model, event: Event)
    ensures Update(model, event).Failure? <==>
      || (event.PermissionChecked? && event.checkResult != PERMISSION_GRANTED && event.checkResult != PERMISSION_DENIED)
      || (event.StrPrefLoaded? && event.pref.Some? && event.pref.value.Malformed?)
  {
  }

  /** A query change installs the new query, keeps the account, and logs what is looked for. */
  lemma QueryChangedInstallsQuery(model: Model, value: string)
    ensures Update(model, QueryChanged(value)).Success?
    ensures var c := Update(model, QueryChanged(value)).value;
      && c.effects == [Modify(Model(value, model.accountName)), Log(tag := Tag, text := "You're looking for " + value)]
      && LastModify(c.effects) == Some(Model(value, model.accountName))
      && Requests(c.effects) == [Log(tag := Tag, text := "You're looking for " + value)]
  {
    ChangeToInstalls(model.(query := value), [Log(tag := Tag, text := "You're looking for " + value)]);
  }

  /** Sending the query only asks whether the accounts permission is held; the model is untouched. */
  lemma QuerySentChecksPermission(model: Model)
    ensures Update(model, QuerySent) == Success(Change([CheckPermission(GET_ACCOUNTS)]))
    ensures LastModify(Update(model, QuerySent).value.effects) == None
  {
    ChangeOfInstallsNothing<Model>([CheckPermission(GET_ACCOUNTS)]);
  }

  /** Granted: announce and search the current query; denied: request the permission; anything else throws. */
  lemma PermissionCheckedBranches(model: Model, code: int)
    ensures code == PERMISSION_GRANTED ==>
      Update(model, PermissionChecked(code)) == Success(Change([Toast("Query sent: " + model.query), Search(model.query)]))
    ensures code == PERMISSION_DENIED ==>
      Update(model, PermissionChecked(code)) == Success(Change([RequestPermission(GET_ACCOUNTS)]))
    ensures code != PERMISSION_GRANTED && code != PERMISSION_DENIED ==>
      Update(model, PermissionChecked(code)) == Failure(IllegalStateException("Unknown permission check result: " + IntText(code)))
    ensures Update(model, PermissionChecked(code)).Success? ==> LastModify(Update(model, PermissionChecked(code)).value.effects) == None
  {
    if code == PERMISSION_GRANTED {
      ChangeOfInstallsNothing<Model>([Toast("Query sent: " + model.query), Search(model.query)]);
    } else if code == PERMISSION_DENIED {
      ChangeOfInstallsNothing<Model>([RequestPermission(GET_ACCOUNTS)]);
    }
  }

  /** The chosen account (possibly none) replaces the account name, the query stays, and the account is announced and selected. */
  lemma AccountChosenInstallsAccount(model: Model, result: ActivityResult)
    ensures Update(model, ActivityResultReceived(result)).Success?
    ensures var c := Update(model, ActivityResultReceived(result)).value;
      var name := AccountNameOf(result);
      && c.effects == [Modify(Model(model.query, name)), Toast("Account chosen: " + NullableText(name)), SelectAccount(name)]
      && LastModify(c.effects) == Some(Model(model.query, name))
      && Requests(c.effects) == [Toast("Account chosen: " + NullableText(name)), SelectAccount(name)]
      && (LastModify(c.effects).value.IsLoggedIn() <==> name.Some?)
  {
    var name := AccountNameOf(result);
    ChangeToInstalls(model.(accountName := name), [Toast("Account chosen: " + NullableText(name)), SelectAccount(name)]);
  }

  /** A response is announced with its item count (none for a missing response) and logged; the model is untouched. */
  lemma ResponseReceivedReports(model: Model, response: Option<Response>)
    ensures var n := if response.Some? then response.value.itemCount else 0;
      Update(model, ResponseReceived(response)) == Success(Change([
        Toast("Received " + NatText(n) + " results"),
        Log(tag := Tag, text := "Received result: " + ResponseText(response))]))
    ensures LastModify(Update(model, ResponseReceived(response)).value.effects) == None
  {
    var n := if response.Some? then response.value.itemCount else 0;
    ChangeOfInstallsNothing<Model>([Toast("Received " + NatText(n) + " results"),
      Log(tag := Tag, text := "Received result: " + ResponseText(response))]);
  }

  /** Creation loads and destruction saves the serialised model, under the same key. */
  lemma LifecycleUsesOneKey(model: Model)
    ensures Update(model, LifecycleCreated) == Success(Change([LoadPref(ClassName, None)]))
    ensures Update(model, LifecycleDestroyed) == Success(Change([SavePref(ClassName, Serialize(model))]))
  {
  }

  /** Deserialising a serialised model gives the model back, a missing account included. */
  lemma SerializeRoundTrip(model: Model)
    ensures Deserialize(Some(Serialize(model))) == Success(model)
  {
  }

  /** A missing preference gives the default model; text that is not JSON throws rather than defaulting. */
  lemma DeserializeEdgeCases(raw: string)
    ensures Deserialize(None) == Success(Model())
    ensures Deserialize(Some(Malformed(raw))) == Failure(IllegalArgumentException("Error parsing JSON: " + raw))
  {
  }

  /** Loading a saved model installs it and requests nothing. */
  lemma StrPrefLoadedRestores(model: Model, saved: Model)
    ensures Update(model, StrPrefLoaded(Some(Serialize(saved)))) == Success(Change([Modify(saved)]))
    ensures Update(model, StrPrefLoaded(None)) == Success(Change([Modify(Model())]))
  {
    SerializeRoundTrip(saved);
    assert ChangeTo(saved, []).effects == [Modify(saved)];
    assert ChangeTo(Model(), []).effects == [Modify(Model())];
  }

  /** Log in from the default model: nothing stored, the chooser is requested, the chosen account is installed. */
  lemma LoginScenario()
    ensures Update(Model(), StrPrefLoaded(None)) == Success(Change([Modify(Model())]))
    ensures Update(Model(), LoginRequested) == Success(Change([ChooseAccount]))
    ensures var alice := "alice@example.com";
      var result := ActivityResult(RESULT_OK, Some(Intent(map[KEY_ACCOUNT_NAME := alice])));
      Update(Model(), ActivityResultReceived(result)) == Success(Change([
        Modify(Model("", Some(alice))),
        Toast("Account chosen: alice@example.com"),
        SelectAccount(Some(alice))]))
  {
    StrPrefLoadedRestores(Model(), Model());
    var alice := "alice@example.com";
    var result := ActivityResult(RESULT_OK, Some(Intent(map[KEY_ACCOUNT_NAME := alice])));
    assert AccountNameOf(result) == Some(alice);
    assert "Account chosen: " + NullableText(Some(alice)) == "Account chosen: alice@example.com";
    AccountChosenInstallsAccount(Model(), result);
  }
}
