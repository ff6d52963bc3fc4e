/** Shared value types: optional values, request identifiers and UTF-16 text. */
module Wrappers {
  datatype Option<+T> = None | Some(value: T)

  /** One UTF-16 code unit; JavaScript strings are sequences of these. */
  type CodeUnit = u: int | 0 <= u < 0x1_0000

  type Text = seq<CodeUnit>

  /** Code units of an ASCII literal. */
  function Ascii(s: string): (t: Text)
    requires forall i | 0 <= i < |s| :: s[i] as int < 128
    ensures |t| == |s|
  {
    seq(|s|, i requires 0 <= i < |s| => s[i] as int)
  }

  type RequestId = string
}
