/**
 * A decoded JSON document as the scripts see it after json.load, and the
 * isinstance tests they apply to its values.
 */
module JsonValue {
  datatype JValue =
    | JNull
    | JBool(b: bool)
    | JInt(i: int)
    | JFloat(f: real)
    | JStr(s: string)
    | JList(items: seq<JValue>)
    | JObj(fields: map<string, JValue>)

  /** dict.get(key): a missing key reads as None, exactly like a JSON null. */
  function Get(obj: map<string, JValue>, key: string): (v: JValue)
    ensures key !in obj ==> v == JNull
    ensures key in obj ==> v == obj[key]
  {
    if key in obj then obj[key] else JNull
  }

  /** isinstance(v, int): a JSON boolean passes, since bool subclasses int. */
  predicate IsPyInt(v: JValue) {
    v.JInt? || v.JBool?
  }

  /** The integer a value passing IsPyInt behaves as (True is 1, False is 0). */
  function PyIntValue(v: JValue): int
    requires IsPyInt(v)
  {
    match v
    case JInt(i) => i
    case JBool(b) => if b then 1 else 0
  }

  /** isinstance(v, (int, float)). */
  predicate IsPyNumber(v: JValue) {
    IsPyInt(v) || v.JFloat?
  }

  /** The number such a value stands for. */
  function PyNumberValue(v: JValue): real
    requires IsPyNumber(v)
  {
    if v.JFloat? then v.f else PyIntValue(v) as real
  }
}
