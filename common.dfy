/**
 * Small value types shared by the model of the Waste Wise front end.
 */
module Common {

  /** JavaScript's `null` versus a present value. */
  datatype Option<T> = None | Some(value: T)

  /**
   * One `localStorage` entry: absent, the JSON text of a `T`, text that `JSON.parse` rejects,
   * or text that is empty or parses to a falsy value (`null`, `false`, `0`, `""`).
   */
  datatype Slot<T> = Empty | Holds(value: T) | Unreadable | HoldsFalsy

  /** How a JavaScript call ends: it returns a value or it throws. */
  datatype Outcome<T> = Returns(value: T) | Throws

  /** Index of the first occurrence of `x` in `s`, or `|s|` when there is none. */
  function IndexOf<T(==)>(s: seq<T>, x: T): (k: nat)
    ensures k <= |s|
    ensures k < |s| ==> s[k] == x
    ensures forall i :: 0 <= i < k ==> s[i] != x
  {
    if |s| == 0 then 0
    else if s[0] == x then 0
    else 1 + IndexOf(s[1..], x)
  }

  /**
   * `Number(field.value || 0)` for a numeric `<input>`: the field's number, or 0 when the
   * field is empty.
   */
  function FieldNumber(field: Option<real>): real
  {
    match field
    case None => 0.0
    case Some(x) => x
  }
}
