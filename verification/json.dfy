/** Parsed JSON values, JavaScript truthiness on them, and a structural schema
    language with the meaning of the zod combinators the weather models use
    (`z.string()`, `z.string().min(1)`, `z.number()`, `z.boolean()`,
    `z.object({...})` with `.optional()` members, and `z.array(...)`). */
module Json {

  /** A value as `response.json()` produces it. Objects map keys to values;
      JSON numbers are finite, so NaN and the infinities never occur. */
  datatype Json =
    | JNull
    | JBool(b: bool)
    | JNum(n: real)
    | JStr(s: string)
    | JArr(items: seq<Json>)
    | JObj(props: map<string, Json>)

  /** JavaScript truthiness of a parsed value: `null`, `false`, `0` and `""`
      are falsy, every array and object is truthy. */
  predicate Truthy(j: Json) {
    match j
    case JNull => false
    case JBool(b) => b
    case JNum(n) => n != 0.0
    case JStr(s) => s != ""
    case JArr(_) => true
    case JObj(_) => true
  }

  /** The falsy values are exactly `null`, `false`, `0` and `""`; every
      array and object, even an empty one, is truthy. */
  lemma TruthyValues(j: Json)
    ensures !Truthy(j) <==> j == JNull || j == JBool(false) || j == JNum(0.0) || j == JStr("")
    ensures j.JArr? || j.JObj? ==> Truthy(j)
  {
  }

  /** True when property `key` of `j` is present and is a string. */
  predicate HasString(j: Json, key: string) {
    j.JObj? && key in j.props && j.props[key].JStr?
  }

  /** True when property `key` of `j` is present and is a number. */
  predicate HasNumber(j: Json, key: string) {
    j.JObj? && key in j.props && j.props[key].JNum?
  }

  /** True when property `key` of `j` is absent or is a number. */
  predicate HasOptionalNumber(j: Json, key: string) {
    j.JObj? && (key in j.props ==> j.props[key].JNum?)
  }

  /** `a` and `b` are objects that hold equal values under each of `keys`. */
  predicate AgreesOn(a: Json, b: Json, keys: set<string>) {
    a.JObj? && b.JObj? && forall k | k in keys :: k in a.props && k in b.props && a.props[k] == b.props[k]
  }

  /** The shape a schema demands. */
  datatype Kind =
    | KString
    | KNonEmptyString
    | KNumber
    | KBoolean
    | KObject(fields: seq<Field>)
    | KArray(element: Kind)

  /** One member of an object schema; `optional` is zod's `.optional()`. */
  datatype Field = Field(key: string, kind: Kind, optional: bool)

  /** `schema.safeParse(j).success`. Object schemas ignore keys they do not
      name; an optional member may be absent but, when present, must match
      (a JSON `null` does not satisfy `z.number().optional()`). */
  predicate Matches(j: Json, k: Kind)
    decreases k, 1
  {
    match k
    case KString => j.JStr?
    case KNonEmptyString => j.JStr? && |j.s| >= 1
    case KNumber => j.JNum?
    case KBoolean => j.JBool?
    case KObject(fs) => j.JObj? && forall i | 0 <= i < |fs| :: FieldMatches(j.props, fs[i])
    case KArray(e) => j.JArr? && forall i | 0 <= i < |j.items| :: Matches(j.items[i], e)
  }

  /** One member of an object schema holds of the object's properties `m`. */
  predicate FieldMatches(m: map<string, Json>, f: Field)
    decreases f, 0
  {
    if f.key in m then Matches(m[f.key], f.kind) else f.optional
  }

  /** Removing a property that only optional members name keeps an object
      valid: optional members may be absent. */
  lemma DropOptionalKey(j: Json, fs: seq<Field>, key: string)
    requires Matches(j, KObject(fs))
    requires forall i | 0 <= i < |fs| && fs[i].key == key :: fs[i].optional
    ensures Matches(JObj(j.props - {key}), KObject(fs))
  {
    var m := j.props - {key};
    forall i | 0 <= i < |fs|
      ensures FieldMatches(m, fs[i])
    {
      assert FieldMatches(j.props, fs[i]);
      if fs[i].key != key && fs[i].key in j.props {
        assert m[fs[i].key] == j.props[fs[i].key];
      }
    }
  }

  /** Removing a property that a required member names makes an object
      invalid. */
  lemma DropRequiredKey(m: map<string, Json>, fs: seq<Field>, i: nat)
    requires i < |fs| && !fs[i].optional
    ensures !Matches(JObj(m - {fs[i].key}), KObject(fs))
  {
    assert !FieldMatches(m - {fs[i].key}, fs[i]);
  }

  /** An object schema whose members are listed in two parts is satisfied
      exactly when both parts are. */
  lemma ObjectConcat(j: Json, a: seq<Field>, b: seq<Field>)
    ensures Matches(j, KObject(a + b)) <==> Matches(j, KObject(a)) && Matches(j, KObject(b))
  {
    var fs := a + b;
    if Matches(j, KObject(a)) && Matches(j, KObject(b)) {
      forall i | 0 <= i < |fs|
        ensures FieldMatches(j.props, fs[i])
      {
        if i < |a| {
          assert fs[i] == a[i];
        } else {
          assert fs[i] == b[i - |a|];
        }
      }
    }
    if Matches(j, KObject(fs)) {
      forall i | 0 <= i < |a|
        ensures FieldMatches(j.props, a[i])
      {
        assert a[i] == fs[i];
      }
      forall i | 0 <= i < |b|
        ensures FieldMatches(j.props, b[i])
      {
        assert b[i] == fs[|a| + i];
      }
    }
  }
}
