/** The update function of the `main` package: a query that is edited, with no effects. */
module MainMain {
  import opened AppMvu

  datatype Model = Model(query: string := "")

  datatype Event = QueryChanged(value: string)

  /** `update`: a query change installs the query. */
  function Update(model: Model, event: Event): Change<Model> {
    match event
    case QueryChanged(v) => Change(model.(query := v), [])
  }

  /** The model after the events, each update starting from the model the previous one produced. */
  function Replay(model: Model, events: seq<Event>): Model
    decreases |events|
  {
    if events == [] then model else Replay(Update(model, events[0]).model, events[1..])
  }

  /** The default model has an empty query. */
  lemma DefaultModelEmpty()
    ensures Model().query == ""
  {
  }

  /** A query change installs the query and yields no effects. */
  lemma QueryChangedNoEffects(model: Model, value: string)
    ensures Update(model, QueryChanged(value)) == Change(Model(value), [])
  {
  }

  /** Last write wins: a non-empty run of query changes ends on the last value, whatever the start. */
  lemma {:induction false} ReplayLastWriteWins(model: Model, events: seq<Event>)
    requires events != []
    ensures Replay(model, events) == Model(events[|events| - 1].value)
    decreases |events|
  {
    if |events| > 1 {
      ReplayLastWriteWins(Update(model, events[0]).model, events[1..]);
      assert events[1..][|events[1..]| - 1] == events[|events| - 1];
    }
  }

  /** A repeated query change is idempotent. */
  lemma QueryChangedIdempotent(model: Model, value: string)
    ensures Update(Update(model, QueryChanged(value)).model, QueryChanged(value)) == Update(model, QueryChanged(value))
  {
  }
}
