/**
 * The `mvu` package as `kits/Main.kt` and `MainScreen.kt` use it: a change
 * carries the new model itself, next to the ordered effects; the effect union
 * is the one those two files construct and match on.
 */
module KitsMvu {
  import opened Wrappers
  import opened Platform
  import opened Json

  datatype Effect =
    | Toast(text: string)
    | Log(text: string, throwable: Option<Throwable> := None, tag: string)
    | LoadPref(name: string, defValue: Option<JsonText>)
    | SavePref(name: string, value: JsonText)
    | Search(query: string)
    | GetAppContext
    | ActForResult(intent: ChooserIntent)
    | ChooseAccount
    | SelectAccount(accountName: Option<string>)

  /** `Change(model, vararg effects)`: the model as given, the effects in argument order. */
  datatype Change<M> = Change(model: M, effects: seq<Effect>)
}
