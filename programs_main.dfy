/** The update function of the `programs` package: a query that is edited, logged and announced when sent. */
module ProgramsMain {
  import opened Wrappers
  import opened AppMvu

  datatype Model = Model(query: string := "")

  datatype Event = QuerySent | QueryChanged(value: string)

  /** `Model.toString()`. */
  function ModelText(model: Model): string {
    "Model(query=" + model.query + ")"
  }

  /** `update`: a query change installs the query and logs it; sending announces the current query. */
  function Update(model: Model, event: Event): Change<Model> {
    match event
    case QueryChanged(v) => Change(model.(query := v), [Log("You're looking for " + v)])
    case QuerySent => Change(model, [Toast("Query sent: " + model.query)])
  }

  /** The model after the events, each update starting from the model the previous one produced. */
  function Replay(model: Model, events: seq<Event>): Model
    decreases |events|
  {
    if events == [] then model
    else Update(Replay(model, events[..|events| - 1]), events[|events| - 1]).model
  }

  /** The value of the last query change among the events, if there is one. */
  function LastQuery(events: seq<Event>): Option<string>
    decreases |events|
  {
    if events == [] then None
    else if events[|events| - 1].QueryChanged? then Some(events[|events| - 1].value)
    else LastQuery(events[..|events| - 1])
  }

  /** The default model has an empty query. */
  lemma DefaultModelEmpty()
    ensures Model().query == ""
  {
  }

  /** A query change installs the query and logs exactly one line. */
  lemma QueryChangedLogs(model: Model, value: string)
    ensures Update(model, QueryChanged(value)) == Change(Model(value), [Log("You're looking for " + value)])
  {
  }

  /** Sending keeps the model and announces exactly the current query. */
  lemma QuerySentAnnounces(model: Model)
    ensures Update(model, QuerySent) == Change(model, [Toast("Query sent: " + model.query)])
  {
  }

  /** Two query changes in a row leave the second value; repeating one changes nothing more. */
  lemma QueryChangesCompose(model: Model, a: string, b: string)
    ensures Update(Update(model, QueryChanged(a)).model, QueryChanged(b)).model == Model(b)
    ensures Update(Update(model, QueryChanged(a)).model, QueryChanged(a)) == Update(model, QueryChanged(a))
  {
  }

  /** Last write wins: after any events, the query is the last one changed to, or the starting one. */
  lemma {:induction false} ReplayLastWriteWins(model: Model, events: seq<Event>)
    ensures Replay(model, events).query == (match LastQuery(events) case Some(v) => v case None => model.query)
    decreases |events|
  {
    if events != [] {
      ReplayLastWriteWins(model, events[..|events| - 1]);
    }
  }
}
