/**
 * Value types shared by the annotation cleaner, the merger and the scorer:
 * the raw values a parsed annotation file may hold, the cleaned values the
 * cleaner produces, the elements of annotation sets, and the error outcomes.
 */
module Annotations {

  /** One element of an annotation set: a boolean, a number or a string.
      Elements are tagged, so `BoolElem(true)` and `NumElem(1.0)` differ. */
  datatype Elem = BoolElem(b: bool) | NumElem(x: real) | StrElem(s: string)

  /** A raw annotation value as it comes out of a parsed JSON object. */
  datatype Raw =
    | NoneValue                      // JSON null
    | BoolValue(b: bool)
    | NumValue(x: real)              // an int or a float
    | ListValue(items: seq<Elem>)
    | SetValue(members: set<Elem>)
    | OtherValue                     // any other shape (a string, a nested object, ...)

  /** A cleaned value: a boolean, or a set of elements. */
  datatype Cleaned = CBool(b: bool) | CSet(elems: set<Elem>)

  /** The failures the core can raise. */
  datatype Error =
    | ShapeError                     // a value that is not a bool, list, set, int or float
    | VoteOptionError(option: string) // a vote option other than "union" or "majority_vote"
    | EmptyCountError                // `max` over the counts of an empty observation list
    | DuplicateKeysError             // a JSON object that repeats a key

  datatype Result<T> = Ok(value: T) | Err(error: Error)
}
