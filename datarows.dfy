/** The data row a handler fills in: its cells and row dictionary, and the timestamp, the
    transaction-destination position and the record the handler assigns in place. */
module DataRows {
  import opened Wrappers
  import opened Records
  import opened Headers
  import opened Rows
  import opened Coinbase

  class DataRow {
    const lineNum: int
    const row: seq<string>
    const rowDict: map<string, string>
    var timestamp: Option<Timestamp>
    var txDestPos: Option<nat>
    var tRecord: Option<Record>

    /** A row of a file whose header is `inHeader`, before any handler has run. */
    constructor (lineNum: int, row: seq<string>, inHeader: seq<string>)
      ensures this.lineNum == lineNum && this.row == row
      ensures rowDict == RowDict(inHeader, row)
      ensures timestamp.None? && txDestPos.None? && tRecord.None?
    {
      this.lineNum := lineNum;
      this.row := row;
      rowDict := RowDict(inHeader, row);
      timestamp := None;
      txDestPos := None;
      tRecord := None;
    }

    /** The row as the handlers read it. */
    function View(): Row
      reads this
    {
      Row(row, rowDict, lineNum)
    }

    /** Runs the handler `h` on this row. The timestamp, the destination position and the
        record are assigned only when the handler gets that far; the warning written, and the
        exception raised, are returned. */
    method Parse(h: Handler, p: Parser, env: Env, cfg: Config)
      returns (warning: Option<Warning>, error: Option<ParseError>)
      modifies this
      ensures var e := Handle(h, p, old(View()), env, cfg);
        && timestamp == (if e.timestamp.Some? then e.timestamp else old(timestamp))
        && txDestPos == (if e.txDestPos.Some? then e.txDestPos else old(txDestPos))
        && tRecord == (if e.result.Success? then Some(e.result.value) else old(tRecord))
        && warning == e.warning
        && error == (if e.result.Failure? then Some(e.result.error) else None)
      ensures error.None? ==>
        timestamp.Some? && tRecord.Some?
        && tRecord.value.timestamp == timestamp.value && tRecord.value.wallet == Wallet
    {
      var e := Handle(h, p, View(), env, cfg);
      if e.timestamp.Some? {
        timestamp := e.timestamp;
      }
      if e.txDestPos.Some? {
        txDestPos := e.txDestPos;
      }
      warning := e.warning;
      match e.result
      case Success(record) =>
        tRecord := Some(record);
        error := None;
      case Failure(err) =>
        error := Some(err);
    }
  }
}
