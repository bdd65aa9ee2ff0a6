/**
  `cursor` of internal/ui/cursor.go: the selected line while paused, and the
  message it falls in (a pointer in the program, `None` for nil here).
*/
module Cursors {
  import opened Wrappers
  import opened Telemetry

  class Cursor {
    var line: int
    var msg: Option<Message>

    /** The zero value. */
    constructor ()
      ensures line == 0 && msg == None
    {
      line, msg := 0, None;
    }

    /**
      `reset`, cursor.go:11-14: back to the zero value. The new state does not
      depend on the old one, so resetting twice is resetting once.
    */
    method Reset()
      modifies this
      ensures line == 0 && msg == None
    {
      line := 0;
      msg := None;
    }
  }
}
