/** The drivers' `Result` record (ppspectroscopy/devices.py and src/device.py):
  * a message — the reply text, a status note, or the repr of a caught
  * exception — and an error flag. A Python list of strings, the logging
  * module and the console all become a `Log` whose lines are only ever
  * appended. */
module Results {

  datatype Option<+T> = None | Some(value: T)

  /** The destination of `report`, of `logging` calls and of `print`. */
  class Log {
    var lines: seq<string>

    constructor ()
      ensures lines == []
    {
      lines := [];
    }
  }

  datatype Result = Result(msg: string, err: bool)
  {
    /** `expected(context)`: records the context only when the result is an
      * error, and hands back the very same result. */
    method Expected(context: string, log: Log) returns (same: Result)
      modifies log
      ensures same == this
      ensures log.lines == old(log.lines) + (if err then [context] else [])
    {
      if err {
        log.lines := log.lines + [context];
      }
      same := this;
    }

    /** `report(out)`: appends exactly the message to `out`. */
    method Report(out: Log)
      modifies out
      ensures out.lines == old(out.lines) + [msg]
    {
      out.lines := out.lines + [msg];
    }
  }
}
