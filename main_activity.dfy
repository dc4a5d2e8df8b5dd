/**
 * The MVU loop inside the main activity: its own change, toast effect, model
 * and update, and a dispatch that installs the new model before executing the
 * change's toasts in order.
 */
module MainActivity {
  import opened Platform

  datatype Effect = Toast(text: string)

  datatype Model = Model(query: string := "")

  datatype Change = Change(model: Model, effects: seq<Effect>)

  datatype Event = QueryChanged(value: string)

  /** `update`: a query change installs the query, with no effects. */
  function Update(model: Model, event: Event): Change {
    match event
    case QueryChanged(v) => Change(model.(query := v), [])
  }

  /** The texts of the toasts, in effect order. */
  function ToastTexts(effects: seq<Effect>): (texts: seq<string>)
    ensures |texts| == |effects|
    ensures forall i :: 0 <= i < |effects| ==> texts[i] == effects[i].text
  {
    seq(|effects|, i requires 0 <= i < |effects| => effects[i].text)
  }

  /** Each effect as `Toast.toString()` prints it, in order. */
  function EffectTexts(effects: seq<Effect>): (texts: seq<string>)
    ensures |texts| == |effects|
    ensures forall i :: 0 <= i < |effects| ==> texts[i] == "Toast(text=" + effects[i].text + ")"
  {
    seq(|effects|, i requires 0 <= i < |effects| => "Toast(text=" + effects[i].text + ")")
  }

  /** `Change.toString()`. */
  function ChangeText(change: Change): string {
    "Change(model=Model(query=" + change.model.query + "), effects=[" + Join(EffectTexts(change.effects)) + "])"
  }

  /** The default model has an empty query. */
  lemma DefaultModelEmpty()
    ensures Model().query == ""
  {
  }

  /** A query change installs the query, yields no effects, and prints as such. */
  lemma QueryChangedNoEffects(model: Model, value: string)
    ensures Update(model, QueryChanged(value)) == Change(Model(value), [])
    ensures ChangeText(Update(model, QueryChanged(value))) == "Change(model=Model(query=" + value + "), effects=[])"
  {
    assert EffectTexts([]) == [];
  }

  /** The activity's state: the model it remembers and the toasts shown so far. */
  class ActivityState {
    var model: Model
    var toasts: seq<string>

    constructor ()
      ensures model == Model() && toasts == []
    {
      model := Model();
      toasts := [];
    }

    /** The `forEach` over a change's effects: every toast is shown, in list order; the model is untouched. */
    method ShowToasts(effects: seq<Effect>)
      modifies this
      ensures model == old(model)
      ensures toasts == old(toasts) + ToastTexts(effects)
    {
      var i := 0;
      while i < |effects|
        invariant 0 <= i <= |effects|
        invariant model == old(model)
        invariant toasts == old(toasts) + ToastTexts(effects[..i])
      {
        assert ToastTexts(effects[..i + 1]) == ToastTexts(effects[..i]) + [effects[i].text];
        toasts := toasts + [effects[i].text];
        i := i + 1;
      }
      assert effects[..i] == effects;
    }

    /** The `dispatch` lambda: install the updated model, then show the change's toasts in order. */
    method Dispatch(event: Event)
      modifies this
      ensures model == Update(old(model), event).model
      ensures toasts == old(toasts) + ToastTexts(Update(old(model), event).effects)
    {
      var change := Update(model, event);
      model := change.model;
      ShowToasts(change.effects);
    }
  }
}
