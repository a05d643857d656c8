/**
 * Reading a property of a JavaScript object literal, `obj[key]`: the
 * object's own properties first, then the members every object inherits
 * from Object.prototype, and otherwise `undefined`. The server's table of
 * prompt builders and the two client tables of weekly limits are read this
 * way.
 */
module Objects {

  /** The property names every object inherits from Object.prototype. */
  const PrototypeMembers: set<string> :=
    {"constructor", "hasOwnProperty", "isPrototypeOf", "propertyIsEnumerable", "toLocaleString",
     "toString", "valueOf", "__proto__", "__defineGetter__", "__defineSetter__",
     "__lookupGetter__", "__lookupSetter__"}

  /**
   * What a property read yields. Every inherited member is a function except
   * `__proto__`, which yields Object.prototype itself.
   */
  datatype Property<T> = Own(value: T) | Inherited(name: string) | Undefined

  /** `obj[key]` for an object literal whose own properties are `own`. */
  function Get<T>(own: map<string, T>, key: string): (p: Property<T>)
    ensures p.Own? <==> key in own
    ensures p.Own? ==> p.value == own[key]
    ensures p.Inherited? <==> key !in own && key in PrototypeMembers
    ensures p.Inherited? ==> p.name == key
  {
    if key in own then Own(own[key])
    else if key in PrototypeMembers then Inherited(key)
    else Undefined
  }

  /** A read of own properties only (`Object.hasOwn(obj, key) ? obj[key] : undefined`). */
  function GetOwn<T>(own: map<string, T>, key: string): (p: Property<T>)
    ensures !p.Inherited?
    ensures p.Own? <==> key in own
    ensures p.Own? ==> p.value == own[key]
  {
    if key in own then Own(own[key]) else Undefined
  }
}
