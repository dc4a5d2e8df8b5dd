/**
 * The update function of the `kits` package. Unlike the core module, the
 * change carries the model directly, and `update` catches every failure of
 * its own body: a failure keeps the model and reports itself with a toast and
 * a log effect, so `update` never throws.
 */
module KitsMain {
  import opened Wrappers
  import opened Platform
  import opened Json
  import opened KitsMvu

  /** `Main.javaClass.name`: the preference key the model is persisted under. */
  const ClassName: string := "me.cpele.compotube.kits.Main"

  /** `javaClass.simpleName`: the tag of the log effects. */
  const Tag: string := "Main"

  /** The application state; `isLoggedIn` is derived from `accountName`. */
  datatype Model = Model(query: string := "", accountName: Option<string> := None)
  {
    predicate IsLoggedIn() {
      accountName.Some?
    }
  }

  /** A YouTube `SearchListResponse`: the size of its `items` (which may be null) and how it prints. */
  datatype SearchListResponse = SearchListResponse(itemCount: Option<nat>, text: string)

  datatype Event =
    | Init
    | LoginRequested
    | AppContextReceived(appContext: AppContext)
    | AccountChosen(result: ActivityResult)
    | QueryChanged(value: string)
    | StrPrefLoaded(pref: Option<JsonText>)
    | QuerySent
    | ResultReceived(searchResult: Option<SearchListResponse>)
    | Dispose

  function ResultText(result: Option<SearchListResponse>): string {
    match result
    case None => "null"
    case Some(r) => r.text
  }

  /** `Event.toString()`: data classes print their properties, objects their class name. */
  function EventText(event: Event): string {
    match event
    case Init => "me.cpele.compotube.kits.Main$Event$Init"
    case LoginRequested => "me.cpele.compotube.kits.Main$Event$LoginRequested"
    case AppContextReceived(c) => "AppContextReceived(appContext=" + c.text + ")"
    case AccountChosen(r) => "AccountChosen(result=" + ActivityResultText(r) + ")"
    case QueryChanged(v) => "QueryChanged(value=" + v + ")"
    case StrPrefLoaded(v) => "StrPrefLoaded(value=" + (match v case None => "null" case Some(j) => j.Text()) + ")"
    case QuerySent => "me.cpele.compotube.kits.Main$Event$QuerySent"
    case ResultReceived(r) => "ResultReceived(result=" + ResultText(r) + ")"
    case Dispose => "me.cpele.compotube.kits.Main$Event$Dispose"
  }

  /** The body of `update`'s `try`: the change for the event, or what it throws. */
  function Attempt(model: Model, event: Event): Result<Change<Model>, Throwable> {
    match event
    case Init => Success(Change(model, [LoadPref(ClassName, None)]))
    case StrPrefLoaded(v) =>
      (match ModelFromJsonStr(v)
       case Success(m) => Success(Change(m, []))
       case Failure(t) => Failure(t))
    case LoginRequested => Success(Change(model, [GetAppContext]))
    case AppContextReceived(appContext) =>
      Success(Change(model, [ActForResult(ChooserIntent(appContext, [YOUTUBE_READONLY]))]))
    case AccountChosen(result) =>
      var accountName := AccountNameOf(result);
      Success(Change(model.(accountName := accountName), [Toast("Account chosen: " + NullableText(accountName))]))
    case QueryChanged(v) =>
      Success(Change(model.(query := v), [Log(tag := Tag, text := "You're looking for " + v)]))
    case QuerySent =>
      Success(Change(model, [Toast("Query sent: " + model.query), Search(model.query)]))
    case ResultReceived(result) =>
      var size := if result.Some? && result.value.itemCount.Some? then result.value.itemCount.value else 0;
      Success(Change(model, [
        Toast("Received " + NatText(size) + " results"),
        Log(tag := Tag, text := "Received result: " + ResultText(result))]))
    case Dispose =>
      Success(Change(model, [SavePref(ClassName, ModelToJsonStr(model))]))
  }

  /** `update`: the attempted change, or the model kept and the failure reported. */
  function Update(model: Model, event: Event): Change<Model> {
    match Attempt(model, event)
    case Success(change) => change
    case Failure(t) => Change(model, [
      Toast("Failure handling event " + EventText(event) + ": " + t.Text()),
      Log(tag := Tag, text := "Failure handling event " + EventText(event), throwable := Some(t))])
  }

  /** `modelToJsonStr`: `accountName` then `query` put into a fresh object; a null account leaves no member. */
  function ModelToJsonStr(model: Model): JsonText {
    Stringify(Put(Put(map[], "accountName", model.accountName), "query", Some(model.query)))
  }

  /** `modelFromJsonStr`: `null` is the default model; text that is not a JSON object throws. */
  function ModelFromJsonStr(value: Option<JsonText>): Result<Model, Throwable> {
    match value
    case None => Success(Model())
    case Some(Malformed(raw)) => Failure(IllegalArgumentException("Error parsing JSON: " + raw))
    case Some(ObjectText(obj)) =>
      Success(Model(query := OptString(obj, "query"), accountName := GetStringOrNull(obj, "accountName")))
  }

  // Properties of the update function

  /** The default model has an empty query, no account, and is logged out. */
  lemma DefaultModelLoggedOut(m: Model)
    ensures Model().query == "" && Model().accountName == None && !Model().IsLoggedIn()
    ensures m.IsLoggedIn() <==> m.accountName != None
  {
  }

  /** Only a stored string that is not JSON makes the body throw; the failure keeps the model and reports the event. */
  lemma FailureKeepsModel(model: Model, event: Event)
    ensures Attempt(model, event).Failure? <==> event.StrPrefLoaded? && event.pref.Some? && event.pref.value.Malformed?
    ensures Attempt(model, event).Failure? ==>
      var t := Attempt(model, event).error;
      Update(model, event) == Change(model, [
        Toast("Failure handling event " + EventText(event) + ": " + t.Text()),
        Log(tag := Tag, text := "Failure handling event " + EventText(event), throwable := Some(t))])
  {
  }

  /** Only a chosen account, a query change or a loaded preference can change the model. */
  lemma OnlyThreeEventsChangeModel(model: Model, event: Event)
    requires !event.AccountChosen? && !event.QueryChanged? && !event.StrPrefLoaded?
    ensures Update(model, event).model == model
  {
  }

  /** `Init` loads and `Dispose` saves the serialised model, under the same key, the model kept. */
  lemma InitAndDisposeShareKey(model: Model)
    ensures Update(model, Init) == Change(model, [LoadPref(ClassName, None)])
    ensures Update(model, Dispose) == Change(model, [SavePref(ClassName, ModelToJsonStr(model))])
  {
  }

  /** Reading back a written model gives it back, a missing account included. */
  lemma JsonRoundTrip(model: Model)
    ensures ModelFromJsonStr(Some(ModelToJsonStr(model))) == Success(model)
  {
  }

  /** A loaded preference: nothing stored gives the default model, a saved model comes back, text that is not JSON keeps the model. */
  lemma StrPrefLoadedCases(model: Model, saved: Model, raw: string)
    ensures Update(model, StrPrefLoaded(None)) == Change(Model(), [])
    ensures Update(model, StrPrefLoaded(Some(ModelToJsonStr(saved)))) == Change(saved, [])
    ensures Update(model, StrPrefLoaded(Some(Malformed(raw)))).model == model
    ensures |Update(model, StrPrefLoaded(Some(Malformed(raw)))).effects| == 2
  {
    JsonRoundTrip(saved);
  }

  /** A chosen account replaces the account name and is announced; nothing selects it on the credential. */
  lemma AccountChosenSetsAccount(model: Model, result: ActivityResult)
    ensures var name := AccountNameOf(result);
      Update(model, AccountChosen(result)) == Change(Model(model.query, name), [Toast("Account chosen: " + NullableText(name))])
    ensures forall e :: e in Update(model, AccountChosen(result)).effects ==> !e.SelectAccount?
  {
  }

  /** A query change installs the query, keeps the account and logs one line. */
  lemma QueryChangedSetsQuery(model: Model, value: string)
    ensures Update(model, QueryChanged(value)) ==
      Change(Model(value, model.accountName), [Log(tag := Tag, text := "You're looking for " + value)])
  {
  }

  /** Sending the query announces and searches it at once: there is no permission check. */
  lemma QuerySentSearches(model: Model)
    ensures Update(model, QuerySent) == Change(model, [Toast("Query sent: " + model.query), Search(model.query)])
  {
  }

  /** A missing result, or one without items, is reported as zero results. */
  lemma MissingResultCountsZero(model: Model, text: string)
    ensures Update(model, ResultReceived(None)).effects[0] == Toast("Received 0 results")
    ensures Update(model, ResultReceived(Some(SearchListResponse(None, text)))).effects[0] == Toast("Received 0 results")
  {
  }
}
