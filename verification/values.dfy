/** Values shared by the view models: an optional value (Python's `None`
    or a present value) and a small universe of the Python values that
    reach a template context or a session. */
module Values {

  datatype Option<+T> = None | Some(value: T)

  /** A Python value as stored in a template context or a session. Values
      other than None, booleans, integers and strings are not distinguished
      by any decision modelled here; `Object` stands for them by identity. */
  datatype Value =
    | NoneValue
    | Bool(b: bool)
    | Int(i: int)
    | Str(s: string)
    | Object(id: nat)

  /** A session store: string keys to values. */
  type Session = map<string, Value>

  /** `session.get(key)`: the stored value, or `None` when the key is absent. */
  function SessionGet(session: Session, key: string): Value
  {
    if key in session then session[key] else NoneValue
  }
}
