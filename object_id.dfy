/** The document identifiers the store assigns (MongoDB ObjectIds), seen as their hexadecimal strings. */
module ObjectId {

  predicate IsHexDigit(c: char) {
    ('0' <= c <= '9') || ('a' <= c <= 'f') || ('A' <= c <= 'F')
  }

  /** A string Mongoose can cast to an ObjectId: 24 hexadecimal digits. */
  predicate WellFormedId(s: string) {
    |s| == 24 && forall i :: 0 <= i < |s| ==> IsHexDigit(s[i])
  }
}
