/**
 * The plain JavaScript objects the source uses as dictionaries. An object is
 * a map from its own keys; reading a key it does not own falls back to
 * Object.prototype, and assigning to `__proto__` goes through a setter.
 */
module JsObjects {

  /**
   * The properties every plain object inherits from Object.prototype. Each
   * reads as a function, or as Object.prototype itself for `__proto__`, so
   * each is truthy.
   */
  const PROTOTYPE_PROPERTIES: set<string> := {
    "constructor", "hasOwnProperty", "isPrototypeOf", "propertyIsEnumerable",
    "toLocaleString", "toString", "valueOf", "__proto__",
    "__defineGetter__", "__defineSetter__", "__lookupGetter__", "__lookupSetter__"
  }

  /**
   * The inherited accessor whose setter ignores any value that is not an
   * object or null, so assigning a string to it stores nothing.
   */
  const PROTO: string := "__proto__"

  /** `obj[key]` is not an own property and reads an inherited, truthy value. */
  predicate Inherits<V>(obj: map<string, V>, key: string)
  {
    key !in obj && key in PROTOTYPE_PROPERTIES
  }

  /**
   * `obj[key] = value` for a value that is not an object: every key but
   * `__proto__` becomes an own property holding the value.
   */
  function Assign<V>(obj: map<string, V>, key: string, value: V): (r: map<string, V>)
    ensures key != PROTO ==> key in r && r[key] == value
    ensures forall k :: k != key ==> (k in r <==> k in obj)
    ensures forall k :: k != key && k in obj ==> r[k] == obj[k]
    ensures key == PROTO ==> r == obj
  {
    if key == PROTO then obj else obj[key := value]
  }

  /** No key of the length of the generated ids names an inherited property. */
  lemma ShortKeysNotInherited(key: string)
    requires |key| < 7
    ensures key !in PROTOTYPE_PROPERTIES
  {
  }
}
