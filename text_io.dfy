/** Python's `io.StringIO`, as the SAP generators use it: a text buffer that
    `write` appends to and `getvalue` returns. */
module TextIO {

  class StringBuffer {
    var text: string

    /** `io.StringIO()` starts empty. */
    constructor ()
      ensures text == ""
    {
      text := "";
    }

    /** `write(s)` appends `s` and changes nothing else. */
    method Write(s: string)
      modifies this
      ensures text == old(text) + s
    {
      text := text + s;
    }

    /** `getvalue()` returns everything written so far. */
    method GetValue() returns (v: string)
      ensures v == text
    {
      v := text;
    }
  }
}
