/**
 * The generic change of the `mvu` package, as the `programs` and `main`
 * update functions use it: a model next to an ordered list of effects, the
 * effects being a toast or a log line.
 */
module AppMvu {
  import opened Platform

  datatype Effect = Toast(text: string) | Log(text: string)

  /** `Change(model, vararg effects)`: the model as given, the effects in argument order (none when only a model is given). */
  datatype Change<M> = Change(model: M, effects: seq<Effect>)

  /** `Effect.toString()` of the two data classes. */
  function EffectText(effect: Effect): string {
    match effect
    case Toast(text) => "Toast(text=" + text + ")"
    case Log(text) => "Log(text=" + text + ")"
  }

  /** Each effect printed, in order. */
  function EffectTexts(effects: seq<Effect>): (texts: seq<string>)
    ensures |texts| == |effects|
    ensures forall i :: 0 <= i < |effects| ==> texts[i] == EffectText(effects[i])
  {
    seq(|effects|, i requires 0 <= i < |effects| => EffectText(effects[i]))
  }

  /** Printing one more effect adds its text at the end. */
  lemma EffectTextsSnoc(effects: seq<Effect>, effect: Effect)
    ensures EffectTexts(effects + [effect]) == EffectTexts(effects) + [EffectText(effect)]
  {
    assert (effects + [effect])[|effects|] == effect;
  }

  /** `effects.contentToString()`: the effects' texts, in order, between brackets. */
  function EffectsText(effects: seq<Effect>): string {
    "[" + Join(EffectTexts(effects)) + "]"
  }

  /** `Change.toString()`, the model printed by `modelText`. */
  function ChangeText<M>(change: Change<M>, modelText: M -> string): string {
    "Change(model=" + modelText(change.model) + ", effects=" + EffectsText(change.effects) + ")"
  }

  /** A change with no effects prints an empty list; one with a single effect prints that effect alone. */
  lemma ChangeTextShapes<M>(model: M, modelText: M -> string, effect: Effect)
    ensures ChangeText(Change(model, []), modelText) == "Change(model=" + modelText(model) + ", effects=[])"
    ensures ChangeText(Change(model, [effect]), modelText) ==
      "Change(model=" + modelText(model) + ", effects=[" + EffectText(effect) + "])"
  {
    assert EffectTexts([]) == [];
    assert EffectTexts([effect]) == [EffectText(effect)];
  }

  /** Adding an effect at the end of a change prints it last in the list, after ", " unless it is the first. */
  lemma ChangeTextSnoc<M>(model: M, modelText: M -> string, effects: seq<Effect>, effect: Effect)
    ensures ChangeText(Change(model, effects + [effect]), modelText) ==
      "Change(model=" + modelText(model) + ", effects=["
        + (if effects == [] then "" else Join(EffectTexts(effects)) + ", ")
        + EffectText(effect) + "])"
  {
    var items := if effects == [] then "" else Join(EffectTexts(effects)) + ", ";
    var m, e := modelText(model), EffectText(effect);
    EffectsTextSnoc(effects, effect);
    calc {
      ChangeText(Change(model, effects + [effect]), modelText);
      "Change(model=" + m + ", effects=" + EffectsText(effects + [effect]) + ")";
      "Change(model=" + m + ", effects=" + ("[" + items + e + "]") + ")";
      { ConcatFrame("Change(model=" + m + ", effects=", items + e); }
      "Change(model=" + m + ", effects=[" + items + e + "])";
    }
  }

  /** Wrapping in brackets and closing the parenthesis is the same as writing both literals around the text. */
  lemma ConcatFrame(prefix: string, inner: string)
    ensures prefix + ("[" + inner + "]") + ")" == prefix + "[" + inner + "])"
  {
  }

  /** Adding an effect at the end of a list prints it last between the brackets, after ", " unless it is the first. */
  lemma EffectsTextSnoc(effects: seq<Effect>, effect: Effect)
    ensures EffectsText(effects + [effect]) ==
      "[" + (if effects == [] then "" else Join(EffectTexts(effects)) + ", ") + EffectText(effect) + "]"
  {
    var texts, text := EffectTexts(effects), EffectText(effect);
    EffectTextsSnoc(effects, effect);
    JoinSnoc(texts, text);
    if effects == [] {
      assert texts == [];
    } else {
      assert texts != [];
      assert Join(texts + [text]) == (Join(texts) + ", ") + text;
    }
  }
}
