/**
 The type classifier: every decoded JSON value gets one of five coarse
 type tags. The classifier is a chain of runtime type tests in which the
 first test that succeeds decides.
 */
module TypeInference {
  import opened Json

  /** The five tags a column can carry. */
  datatype TypeTag = Boolean | Int | Real | String | Dynamic
  {
    /** The tag as it is written into a column descriptor. */
    function Name(): (s: string)
      ensures s in {"boolean", "int", "real", "string", "dynamic"}
    {
      match this
      case Boolean => "boolean"
      case Int => "int"
      case Real => "real"
      case String => "string"
      case Dynamic => "dynamic"
    }
  }

  /** Distinct tags are written differently, so a descriptor's type names its tag. */
  lemma NameInjective(t: TypeTag, u: TypeTag)
    requires t.Name() == u.Name()
    ensures t == u
  {
  }

  // The runtime type tests on a decoded value. A boolean is also an
  // instance of the integer type, because the boolean type is a subclass of it.

  predicate IsInstanceBool(v: JsonValue) { v.JBool? }

  predicate IsInstanceInt(v: JsonValue) { v.JBool? || v.JInt? }

  predicate IsInstanceFloat(v: JsonValue) { v.JReal? }

  predicate IsInstanceStr(v: JsonValue) { v.JString? }

  predicate IsInstanceDictOrList(v: JsonValue) { v.JObject? || v.JArray? }

  /** Classifies one value. The boolean test comes before the integer test,
      and a value no test accepts (null) falls back to the string tag.
      Nested values are not looked at. */
  function InferType(v: JsonValue): (t: TypeTag)
    ensures t == Boolean <==> v.JBool?
    ensures t == Int <==> v.JInt?
    ensures t == Real <==> v.JReal?
    ensures t == String <==> v.JString? || v.JNull?
    ensures t == Dynamic <==> v.JArray? || v.JObject?
  {
    if IsInstanceBool(v) then Boolean
    else if IsInstanceInt(v) then Int
    else if IsInstanceFloat(v) then Real
    else if IsInstanceStr(v) then String
    else if IsInstanceDictOrList(v) then Dynamic
    else String
  }

  /** A boolean passes the integer test too, yet is tagged boolean: the order
      of the tests is what keeps it from being tagged int. */
  lemma BooleanBeforeInt(b: bool)
    ensures IsInstanceInt(JBool(b))
    ensures InferType(JBool(b)) == Boolean && InferType(JBool(b)) != Int
  {
  }

  /** The tag of an array or object does not depend on what it contains. */
  lemma ContainersAreShallow(v: JsonValue, w: JsonValue)
    requires v.JArray? || v.JObject?
    requires w.JArray? || w.JObject?
    ensures InferType(v) == InferType(w) == Dynamic
  {
  }

  /** Every value is written as exactly one of the five tag names, and each
      name is written for exactly one kind of value; null gets the fallback
      name "string". */
  lemma InferTypeNames(v: JsonValue)
    ensures InferType(v).Name() in {"boolean", "int", "real", "string", "dynamic"}
    ensures InferType(v).Name() == "boolean" <==> v.JBool?
    ensures InferType(v).Name() == "int" <==> v.JInt?
    ensures InferType(v).Name() == "real" <==> v.JReal?
    ensures InferType(v).Name() == "string" <==> v.JString? || v.JNull?
    ensures InferType(v).Name() == "dynamic" <==> v.JArray? || v.JObject?
  {
  }
}
