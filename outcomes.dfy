/** Values shared by every part of the model: optional values and how a call ends. */
module Outcomes {

  /** An optional value; `None` stands for JavaScript's `undefined` (or a SQL `null`). */
  datatype Option<+T> = None | Some(value: T)

  /** How an asynchronous JavaScript call ends: it returns a value, or it throws an
      error whose `message` property may be absent. */
  datatype Completion<+T> = Normal(value: T) | Threw(message: Option<string>)

  /** JavaScript truthiness of an optional string: `undefined` and `""` are falsy. */
  predicate TruthyText(v: Option<string>) {
    v.Some? && v.value != ""
  }

  /** `v || fallback` for an optional string. */
  function TextOr(v: Option<string>, fallback: string): (r: string)
  {
    if TruthyText(v) then v.value else fallback
  }

  /** JavaScript truthiness of an optional integer: `undefined` and `0` are falsy. */
  predicate TruthyInt(v: Option<int>) {
    v.Some? && v.value != 0
  }

  /** `v || fallback` for an optional integer. */
  function IntOr(v: Option<int>, fallback: int): (r: int)
  {
    if TruthyInt(v) then v.value else fallback
  }

  /** `v || fallback` for an optional array: an array is always truthy, even when empty. */
  function SeqOr<T>(v: Option<seq<T>>, fallback: seq<T>): (r: seq<T>)
  {
    if v.Some? then v.value else fallback
  }
}
