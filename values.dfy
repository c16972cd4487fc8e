/** JavaScript values as they occur in a store's state tree (integers only, no functions). */
module Values {

  datatype Option<T> = None | Some(value: T)

  /** Objects are compared by reference in JavaScript; an `ObjectId` stands for that reference. */
  type ObjectId = nat

  datatype Value =
    | Undefined
    | Null
    | Bool(b: bool)
    | Int(n: int)
    | Str(s: string)
    | Obj(id: ObjectId, fields: map<string, Value>)

  /** `v == null` in JavaScript: `undefined` or `null`. */
  predicate Nullish(v: Value) {
    v.Undefined? || v.Null?
  }

  /** JavaScript truthiness, `!!v`. */
  predicate Truthy(v: Value) {
    match v
    case Undefined => false
    case Null => false
    case Bool(b) => b
    case Int(n) => n != 0
    case Str(s) => s != ""
    case Obj(_, _) => true
  }

  /** `a === b`: objects by reference, primitives by value. */
  predicate StrictEq(a: Value, b: Value) {
    if a.Obj? && b.Obj? then a.id == b.id else a == b
  }

  /**
   * `v[key]` for a value that is neither `undefined` nor `null` (those throw a TypeError).
   * Only own fields of objects are modelled; a primitive has no members here.
   */
  function Member(v: Value, key: string): Value
    requires !Nullish(v)
  {
    if v.Obj? && key in v.fields then v.fields[key] else Undefined
  }

  /** Falsy values are exactly `undefined`, `null`, `false`, `0` and `""`. */
  lemma FalsyValues(v: Value)
    ensures !Truthy(v) <==> v == Undefined || v == Null || v == Bool(false) || v == Int(0) || v == Str("")
  {
  }

  /** `===` is an equivalence relation on the modelled values. */
  lemma StrictEqEquivalence(a: Value, b: Value, c: Value)
    ensures StrictEq(a, a)
    ensures StrictEq(a, b) ==> StrictEq(b, a)
    ensures StrictEq(a, b) && StrictEq(b, c) ==> StrictEq(a, c)
  {
  }
}
