/** Values shared by the kick-off form and the campaign store. */
module Common {

  /** A JavaScript value that may be absent: `None` stands for `null` and `undefined`. */
  datatype Option<+T> = None | Some(value: T)

  /** The three components of a JavaScript `Date` that the code reads:
      `getFullYear()`, `getMonth()` (counted from 0) and `getDate()`. */
  datatype CalendarDate = CalendarDate(year: int, monthIndex: nat, day: nat)

  /** A browser `File` taken from a file input: its name and its content. */
  datatype FileData = FileData(name: string, bytes: seq<bv8>)
}
