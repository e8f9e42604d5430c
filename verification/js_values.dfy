/**
 The JavaScript values that flow through the dashboard, reduced to what the
 dashboard code can observe of them: whether they are falsy (`!v`), whether
 they compare loosely unequal to the empty string (`v != ''`), and how a
 template literal renders them (`${v}`).
 */
module JsValues {

  /** A string with at least one character. */
  type NonEmptyString = s: string | |s| > 0 witness "?"

  /** A field value of a record returned by the open-data API.
      `Value(text)` stands for every non-empty string and every non-zero number,
      carried as the text a template literal would render for it. */
  datatype JsValue =
    | Undefined
    | Null
    | EmptyString
    | Zero
    | Value(text: NonEmptyString)

  /** JavaScript truthiness: `!v` is false exactly for truthy values. The
      falsy values a record field can hold are `undefined`, `null`, `''` and 0. */
  predicate Truthy(v: JsValue) {
    v.Value?
  }

  /** The loose comparison `v != ''`. `undefined` and `null` are loosely
      unequal to every string; `0 == ''` holds because `''` converts to 0;
      a non-empty string or a non-zero number is unequal to `''`. */
  predicate LooselyNotEmpty(v: JsValue) {
    match v
    case Undefined => true
    case Null => true
    case EmptyString => false
    case Zero => false
    case Value(_) => true
  }

  /** The falsy values a field can hold, and the values loosely equal to `''`. */
  lemma FalsyValues(v: JsValue)
    ensures !Truthy(v) <==> (v == Undefined || v == Null || v == EmptyString || v == Zero)
    ensures !LooselyNotEmpty(v) <==> (v == EmptyString || v == Zero)
  {
  }

  /** What the template literal `${v}` produces for `v`. */
  function Interpolate(v: JsValue): (s: string)
    ensures s == "" <==> v == EmptyString
    ensures Truthy(v) ==> s == v.text
  {
    match v
    case Undefined => "undefined"
    case Null => "null"
    case EmptyString => ""
    case Zero => "0"
    case Value(t) => t
  }

  /** The two guards differ exactly on `undefined` and `null`: those pass the
      loose `!= ''` test although they are falsy. */
  lemma LooseGuardVersusTruthiness(v: JsValue)
    ensures Truthy(v) ==> LooselyNotEmpty(v)
    ensures (LooselyNotEmpty(v) && !Truthy(v)) <==> (v == Undefined || v == Null)
  {
  }
}
