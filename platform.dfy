/**
 * The pieces of the Android and Kotlin platform that the MVU engine touches:
 * exceptions, activity results, permission and account constants, and the
 * string renderings Kotlin's string templates produce.
 */
module Platform {
  import opened Wrappers

  /** The throwables raised by the core, each with the message it is built with. */
  datatype Throwable =
    | IllegalStateException(message: string)
    | IllegalArgumentException(message: string)
    | NotImplementedError(message: string)
  {
    /** `Throwable.toString()`: the qualified class name, ": " and the message. */
    function Text(): string {
      match this
      case IllegalStateException(msg) => "java.lang.IllegalStateException: " + msg
      case IllegalArgumentException(msg) => "java.lang.IllegalArgumentException: " + msg
      case NotImplementedError(msg) => "kotlin.NotImplementedError: " + msg
    }
  }

  /** `PackageManager.PERMISSION_GRANTED` and `PackageManager.PERMISSION_DENIED`. */
  const PERMISSION_GRANTED: int := 0
  const PERMISSION_DENIED: int := -1

  /** `Manifest.permission.GET_ACCOUNTS`. */
  const GET_ACCOUNTS: string := "android.permission.GET_ACCOUNTS"

  /** `AccountManager.KEY_ACCOUNT_NAME`, the extra the account chooser puts its answer in. */
  const KEY_ACCOUNT_NAME: string := "authAccount"

  /** `Activity.RESULT_OK` and `Activity.RESULT_CANCELED`. */
  const RESULT_OK: int := -1
  const RESULT_CANCELED: int := 0

  /** `YouTubeScopes.YOUTUBE_READONLY`, the OAuth scope the credential asks for. */
  const YOUTUBE_READONLY: string := "https://www.googleapis.com/auth/youtube.readonly"

  /** An application `Context`, known only by how it prints. */
  datatype AppContext = AppContext(text: string)

  /** The intent `GoogleAccountCredential.newChooseAccountIntent()` builds, known by the context and scopes of its credential. */
  datatype ChooserIntent = ChooserIntent(appContext: AppContext, scopes: seq<string>)

  /** The data `Intent` an activity returns: only its string extras matter here. */
  datatype Intent = Intent(extras: map<string, string>)

  /** `androidx.activity.result.ActivityResult`: a result code and an optional data intent. */
  datatype ActivityResult = ActivityResult(resultCode: int, data: Option<Intent>)

  /** `result.data?.getStringExtra(AccountManager.KEY_ACCOUNT_NAME)`. */
  function AccountNameOf(result: ActivityResult): (name: Option<string>)
    ensures name.Some? <==> result.data.Some? && KEY_ACCOUNT_NAME in result.data.value.extras
    ensures name.Some? ==> name.value == result.data.value.extras[KEY_ACCOUNT_NAME]
  {
    match result.data
    case None => None
    case Some(intent) =>
      if KEY_ACCOUNT_NAME in intent.extras then Some(intent.extras[KEY_ACCOUNT_NAME]) else None
  }

  /** `ActivityResult.toString()`; an intent holding only extras prints as `Intent { (has extras) }`. */
  function ActivityResultText(result: ActivityResult): string {
    var code :=
      if result.resultCode == RESULT_OK then "RESULT_OK"
      else if result.resultCode == RESULT_CANCELED then "RESULT_CANCELED"
      else IntText(result.resultCode);
    var data :=
      match result.data
      case None => "null"
      case Some(intent) => if intent.extras == map[] then "Intent {  }" else "Intent { (has extras) }";
    "ActivityResult{resultCode=" + code + ", data=" + data + "}"
  }

  /** The decimal digit for `d`. */
  function DigitChar(d: nat): (c: char)
    requires d < 10
    ensures '0' <= c <= '9' && c as int - '0' as int == d
  {
    (d + '0' as int) as char
  }

  /** The value of a string of decimal digits. */
  function DigitsValue(s: string): nat
    requires forall i :: 0 <= i < |s| ==> '0' <= s[i] <= '9'
  {
    if s == [] then 0 else 10 * DigitsValue(s[..|s| - 1]) + (s[|s| - 1] as int - '0' as int)
  }

  /** `Int.toString()` of a non-negative number: its decimal digits, without leading zeros. */
  function NatText(n: nat): (s: string)
    ensures 1 <= |s|
    ensures forall i :: 0 <= i < |s| ==> '0' <= s[i] <= '9'
    ensures |s| > 1 ==> s[0] != '0'
  {
    if n < 10 then [DigitChar(n)] else NatText(n / 10) + [DigitChar(n % 10)]
  }

  /** The rendering of a count reads back as that count. */
  lemma {:induction false} NatTextReadsBack(n: nat)
    ensures DigitsValue(NatText(n)) == n
  {
    if n >= 10 {
      var s := NatText(n);
      assert s[..|s| - 1] == NatText(n / 10);
      NatTextReadsBack(n / 10);
    }
  }

  /** `Int.toString()`: a minus sign before the digits of a negative number. */
  function IntText(i: int): string {
    if i < 0 then "-" + NatText(-i) else NatText(i)
  }

  /** A nullable string in a string template: `null` prints as "null". */
  function NullableText(s: Option<string>): (t: string)
    ensures s.Some? ==> t == s.value
    ensures s.None? ==> t == "null"
  {
    match s
    case None => "null"
    case Some(v) => v
  }

  /** Items separated by ", ", as `List.toString()` and `Array.contentToString()` print them between brackets. */
  function Join(items: seq<string>): string {
    if items == [] then ""
    else if |items| == 1 then items[0]
    else items[0] + ", " + Join(items[1..])
  }

  /** Appending an item prints it last, after a separator unless it is the only one. */
  lemma {:induction false} JoinSnoc(items: seq<string>, item: string)
    ensures Join(items + [item]) == if items == [] then item else Join(items) + ", " + item
    decreases |items|
  {
    if items == [] {
      assert items + [item] == [item];
    } else if |items| == 1 {
      assert items + [item] == [items[0], item];
      assert [items[0], item][1..] == [item];
    } else {
      assert (items + [item])[1..] == items[1..] + [item];
      JoinSnoc(items[1..], item);
    }
  }
}
