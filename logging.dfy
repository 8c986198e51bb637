/** The emulator's log capture: the lines the core logs, and `LogSink`, the
    buffer that collects them while one execution is in progress. */
module Logging {
  import opened Types

  /** One log line, by the call site that writes it. The text formatting
      (styles, `info()` summaries) is not modelled; each line keeps the
      values it reports. */
  datatype LogLine =
    | Loading(key: Pubkey)                 // "[store] ...  loading:"
    | CloningAccount(key: Pubkey)          // "CLONING ACCOUNT"
    | SystemTemplate(key: Pubkey)          // "[store] ...   system:"
    | Template(key: Pubkey)                // "[store] ... template:"
    | EntrypointMissing(programId: Pubkey) // "program entrypoint not found"
    | EntrypointBegin                      // "entrypoint begin"
    | EntrypointEnd                        // "entrypoint end"
    | Program(text: string)                // a line logged by program code
    | HandlerFailed(message: string)       // the handler's error
    | NonMutableModified(key: Pubkey)      // "non-mutable account has been modified"
    | PurgingEmpty(key: Pubkey)            // "purging account (no data, no balance)"
    | PurgingBelowMinimum(key: Pubkey)     // "purging account (below minimum balance)"
    | BalanceDetail(dataLen: nat, minimum: u64, lamports: u64)
    | AccountType(containerType: u32)
    | Saving(key: Pubkey)                  // "[store] ...   saving:"
    | Funding(from: Pubkey, to: Pubkey)    // "[EMU] funding"

  /** The buffer after `lines` are written to it: appended when armed,
      still disarmed otherwise. */
  function Appended(logs: Option<seq<LogLine>>, lines: seq<LogLine>): Option<seq<LogLine>> {
    if logs.Some? then Some(logs.value + lines) else None
  }

  lemma AppendedTwice(logs: Option<seq<LogLine>>, a: seq<LogLine>, b: seq<LogLine>)
    ensures Appended(Appended(logs, a), b) == Appended(logs, a + b)
  {
    if logs.Some? {
      assert logs.value + a + b == logs.value + (a + b);
    }
  }

  /** `LogSink`: `logs` is `None` while disarmed and `Some(lines)` while
      capturing. */
  class LogSink {
    var logs: Option<seq<LogLine>>

    constructor ()
      ensures logs == None
    {
      logs := None;
    }

    /** `init`: arm the sink with an empty buffer, dropping anything held. */
    method Init()
      modifies this
      ensures logs == Some([])
    {
      logs := Some([]);
    }

    /** `take`: hand over the buffer and disarm. Taking a disarmed sink
        panics in the source (`unwrap` of `None`). */
    method Take() returns (lines: seq<LogLine>)
      requires logs.Some?
      modifies this
      ensures lines == old(logs).value
      ensures logs == None
    {
      lines := logs.value;
      logs := None;
    }

    /** `write`: append the line only while armed. */
    method Write(line: LogLine)
      modifies this
      ensures logs == Appended(old(logs), [line])
    {
      if logs.Some? {
        logs := Some(logs.value + [line]);
      }
    }

    /** The writes of code outside the model (a program, a handler), one
        `write` per line, in order. */
    method WriteEach(lines: seq<LogLine>)
      modifies this
      ensures logs == Appended(old(logs), lines)
    {
      var i := 0;
      assert lines[..0] == [];
      if logs.Some? {
        assert logs.value + [] == logs.value;
      }
      while i < |lines|
        invariant 0 <= i <= |lines|
        invariant logs == Appended(old(logs), lines[..i])
      {
        AppendedTwice(old(logs), lines[..i], [lines[i]]);
        assert lines[..i] + [lines[i]] == lines[..i + 1];
        Write(lines[i]);
        i := i + 1;
      }
      assert lines[..i] == lines;
    }
  }
}
