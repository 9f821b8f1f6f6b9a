/**
  JavaScript objects as the client pages handle them: a record is a map from
  field names to values, which is what spreads (`{ ...o, ...patch }`) and
  computed keys (`{ [key]: value }`) work on.
 */
module JsObjects {
  import opened Common

  /** A field's value: a string or null, a number or null, or a record id. */
  datatype Value = Text(text: Option<string>) | Num(num: Option<real>) | Ref(id: Id)

  type Obj = map<string, Value>

  /** JavaScript truthiness of a field value; ids are never empty. */
  predicate TruthyValue(v: Value)
  {
    match v
    case Text(s) => Truthy(s)
    case Num(x) => TruthyNum(x)
    case Ref(_) => true
  }

  /** `o[k]` is truthy; an absent field reads as `undefined`, which is falsy. */
  predicate FieldTruthy(o: Obj, k: string)
  {
    k in o && TruthyValue(o[k])
  }

  /** `{ ...o, ...patch }`: every field of the patch, and the object's other fields. */
  lemma SpreadFields(o: Obj, patch: Obj)
    ensures (o + patch).Keys == o.Keys + patch.Keys
    ensures forall k :: k in patch ==> (o + patch)[k] == patch[k]
    ensures forall k :: k in o && k !in patch ==> (o + patch)[k] == o[k]
  {
  }

  /** What a form's save does: refuse with a message before sending, or send a request body. */
  datatype Submit<+T> = Invalid(error: string) | Send(body: T)
}
