/** A single entry: a competing unit of a tournament, as read from the feed. */
module Entries {

  /**
   * An entry's display code (for example "BO HW") and the full names of its
   * competitors. The type has no operation that changes either once built.
   */
  datatype Entry = Entry(code: string, fullName: string) {

    function Code(): string {
      code
    }

    function FullName(): string {
      fullName
    }
  }

  /** `Entry::new`: accepts any pair of strings; the accessors give each back unchanged. */
  function New(code: string, fullName: string): (e: Entry)
    ensures e.Code() == code && e.FullName() == fullName
  {
    Entry(code, fullName)
  }
}
