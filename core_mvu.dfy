/**
 * `Change` and `Effect` of the core module. An effect is a request the update
 * function makes of the outside world; `Modify(newModel)` is the request to
 * replace the model. A change is the ordered list of effects one update
 * produces. `Effect.Modify` is generic in Kotlin and its type argument is
 * erased, so `Effect<M>` here is parameterised by what a `Modify` may carry.
 */
module CoreMvu {
  import opened Wrappers
  import opened Platform
  import opened Json

  /** The ten effects; `Log.throwable` defaults to `null`, `ChooseAccount` is a single value. */
  datatype Effect<M> =
    | Toast(text: string)
    | Log(text: string, throwable: Option<Throwable> := None, tag: string)
    | CheckPermission(permission: string)
    | RequestPermission(permission: string)
    | LoadPref(name: string, defValue: Option<JsonText>)
    | SavePref(name: string, value: JsonText)
    | ChooseAccount
    | SelectAccount(accountName: Option<string>)
    | Search(query: string)
    | Modify(newModel: M)

  /** The primary constructor: `Change(effects: List<Effect>)`. */
  datatype Change<M> = Change(effects: seq<Effect<M>>)

  /** `Change(newModel, vararg effects)`: a leading `Modify(newModel)`, then the effects in argument order. */
  function ChangeTo<M>(newModel: M, effects: seq<Effect<M>>): (c: Change<M>)
    ensures |c.effects| == |effects| + 1
    ensures c.effects[0] == Modify(newModel)
    ensures forall i :: 0 <= i < |effects| ==> c.effects[i + 1] == effects[i]
  {
    Change([Modify(newModel)] + effects)
  }

  /** `Change(vararg effects)`: the effects in argument order, no `Modify` added. */
  function ChangeOf<M>(effects: seq<Effect<M>>): (c: Change<M>)
    ensures |c.effects| == |effects|
    ensures forall i :: 0 <= i < |effects| ==> c.effects[i] == effects[i]
  {
    Change(effects)
  }

  /** The model a change installs when its effects run in order: the payload of its last `Modify`, if any. */
  function LastModify<M>(effects: seq<Effect<M>>): Option<M> {
    if effects == [] then None
    else if effects[|effects| - 1].Modify? then Some(effects[|effects| - 1].newModel)
    else LastModify(effects[..|effects| - 1])
  }

  /** The effects of a change other than model replacement, in order. */
  function Requests<M>(effects: seq<Effect<M>>): seq<Effect<M>> {
    if effects == [] then []
    else (if effects[0].Modify? then [] else [effects[0]]) + Requests(effects[1..])
  }

  /** No effect in the list replaces the model. */
  predicate NoModify<M>(effects: seq<Effect<M>>) {
    forall i :: 0 <= i < |effects| ==> !effects[i].Modify?
  }

  /** An effect list without `Modify` installs nothing and requests every effect. */
  lemma {:induction false} NoModifyInstallsNothing<M>(effects: seq<Effect<M>>)
    requires NoModify(effects)
    ensures LastModify(effects) == None
    ensures Requests(effects) == effects
  {
    if effects != [] {
      NoModifyInstallsNothing(effects[..|effects| - 1]);
      NoModifyInstallsNothing(effects[1..]);
    }
  }

  /** A change built with a new model installs exactly that model and requests exactly the other effects. */
  lemma {:induction false} ChangeToInstalls<M>(newModel: M, effects: seq<Effect<M>>)
    requires NoModify(effects)
    ensures LastModify(ChangeTo(newModel, effects).effects) == Some(newModel)
    ensures Requests(ChangeTo(newModel, effects).effects) == effects
  {
    var all := ChangeTo(newModel, effects).effects;
    NoModifyInstallsNothing(effects);
    if effects == [] {
      assert all == [Modify(newModel)];
    } else {
      assert all[1..] == effects;
      NoModifyPrefix(all, effects);
    }
  }

  /** `LastModify` of `[Modify(m)] + es` when `es` holds no `Modify`. */
  lemma {:induction false} NoModifyPrefix<M>(all: seq<Effect<M>>, effects: seq<Effect<M>>)
    requires |all| == |effects| + 1 && all[0].Modify? && all[1..] == effects
    requires NoModify(effects)
    ensures LastModify(all) == Some(all[0].newModel)
    decreases |effects|
  {
    if effects != [] {
      assert all[..|all| - 1][1..] == effects[..|effects| - 1];
      NoModifyPrefix(all[..|all| - 1], effects[..|effects| - 1]);
    }
  }

  /** A change built from effects alone leaves the model as it is and requests every effect. */
  lemma ChangeOfInstallsNothing<M>(effects: seq<Effect<M>>)
    requires NoModify(effects)
    ensures LastModify(ChangeOf(effects).effects) == None
    ensures Requests(ChangeOf(effects).effects) == effects
  {
    NoModifyInstallsNothing(effects);
  }

  /** `Effect.toString()`, the model payload rendered by `modelText`; `ChooseAccount` prints its class name. */
  function EffectText<M>(effect: Effect<M>, modelText: M -> string): string {
    match effect
    case Toast(text) => "Toast(text=" + text + ")"
    case Log(text, throwable, tag) =>
      "Log(text=" + text + ", throwable=" + ThrowableText(throwable) + ", tag=" + tag + ")"
    case CheckPermission(p) => "CheckPermission(permission=" + p + ")"
    case RequestPermission(p) => "RequestPermission(permission=" + p + ")"
    case LoadPref(name, defValue) =>
      "LoadPref(name=" + name + ", defValue=" + JsonNullableText(defValue) + ")"
    case SavePref(name, value) => "SavePref(name=" + name + ", value=" + value.Text() + ")"
    case ChooseAccount => "me.cpele.compotube.core.Effect$ChooseAccount"
    case SelectAccount(n) => "SelectAccount(accountName=" + NullableText(n) + ")"
    case Search(q) => "Search(query=" + q + ")"
    case Modify(m) => "Modify(newModel=" + modelText(m) + ")"
  }

  function ThrowableText(t: Option<Throwable>): string {
    match t
    case None => "null"
    case Some(e) => e.Text()
  }

  function JsonNullableText(t: Option<JsonText>): string {
    match t
    case None => "null"
    case Some(j) => j.Text()
  }
}
