/**
 * The status ledger (RequestItemLog): nine log types, a fail-open default,
 * and `addMessage`, which appends one entry per successful save and
 * swallows every exception.
 */
module RequestItemLog {
  import opened Wrappers

  datatype LogType = Emergency | Alert | Critical | Error | Warning | Notice | Info | Debug | Log

  /** The string each type is stored and dispatched under. */
  function TypeName(t: LogType): string {
    match t
    case Emergency => "emergency"
    case Alert => "alert"
    case Critical => "critical"
    case Error => "error"
    case Warning => "warning"
    case Notice => "notice"
    case Info => "info"
    case Debug => "debug"
    case Log => "log"
  }

  /** `getLogTypes` */
  const LogTypes: seq<string> :=
    ["emergency", "alert", "critical", "error", "warning", "notice", "info", "debug", "log"]

  /** `isValidType` */
  predicate IsValidType(s: string) {
    s in LogTypes
  }

  /** `getDefaultType` */
  function DefaultType(): LogType {
    Log
  }

  /** The log type a type string names, if any. */
  function ParseType(s: string): (r: Option<LogType>)
    ensures r.Some? <==> IsValidType(s)
    ensures r.Some? ==> TypeName(r.value) == s
  {
    if s == "emergency" then Some(Emergency)
    else if s == "alert" then Some(Alert)
    else if s == "critical" then Some(Critical)
    else if s == "error" then Some(Error)
    else if s == "warning" then Some(Warning)
    else if s == "notice" then Some(Notice)
    else if s == "info" then Some(Info)
    else if s == "debug" then Some(Debug)
    else if s == "log" then Some(Log)
    else None
  }

  /** Every type's name is valid and parses back to that type. */
  lemma TypeNameRoundTrip(t: LogType)
    ensures IsValidType(TypeName(t))
    ensures ParseType(TypeName(t)) == Some(t)
  {
  }

  /** The valid type strings are exactly the names of the nine types. */
  lemma ValidTypesAreNames(s: string)
    ensures IsValidType(s) <==> exists t: LogType :: TypeName(t) == s
  {
    if IsValidType(s) {
      assert TypeName(ParseType(s).value) == s;
    }
  }

  /** The type an entry is recorded with: a null or unknown type string falls back to `log`. */
  function ResolveType(requested: Option<string>): (t: LogType)
    ensures requested.Some? && IsValidType(requested.value) ==> TypeName(t) == requested.value
    ensures requested.None? || !IsValidType(requested.value) ==> t == DefaultType()
  {
    if requested.None? || !IsValidType(requested.value) then DefaultType()
    else ParseType(requested.value).value
  }

  datatype LogEntry = LogEntry(requestItemId: nat, logType: LogType, message: string)

  /** What the database did with a save: stored the row, refused it, or threw. */
  datatype SaveResult = Stored | Refused | Threw

  datatype AddResult = AddResult(ledger: seq<LogEntry>, success: bool)

  /**
   * `addMessage`: on a stored save, exactly one entry is appended and the
   * result is true; a refused or throwing save leaves the ledger as it was
   * and yields false. No exception escapes. Earlier entries never change.
   */
  function AddMessage(ledger: seq<LogEntry>, requestItemId: nat, message: string,
                      requested: Option<string>, save: SaveResult): (r: AddResult)
    ensures |ledger| <= |r.ledger| && r.ledger[..|ledger|] == ledger
    ensures r.success <==> save == Stored
    ensures r.success ==> r.ledger == ledger + [LogEntry(requestItemId, ResolveType(requested), message)]
    ensures !r.success ==> r.ledger == ledger
  {
    var entry := LogEntry(requestItemId, ResolveType(requested), message);
    match save
    case Stored => AddResult(ledger + [entry], true)
    case Refused => AddResult(ledger, false)
    case Threw => AddResult(ledger, false)
  }

  /**
   * The nine named loggers (`emergency`, ..., `log`), each passing its own
   * name as the type: the one function is indexed by the type instead of
   * nine copies.
   */
  function Named(t: LogType, ledger: seq<LogEntry>, requestItemId: nat, message: string,
                 save: SaveResult): (r: AddResult)
    ensures save == Stored ==> r.ledger == ledger + [LogEntry(requestItemId, t, message)]
    ensures save != Stored ==> r.ledger == ledger && !r.success
  {
    TypeNameRoundTrip(t);
    AddMessage(ledger, requestItemId, message, Some(TypeName(t)), save)
  }

  /** A sequence of stored messages only ever extends the ledger. */
  lemma LedgerOnlyGrows(ledger: seq<LogEntry>, id1: nat, m1: string, t1: Option<string>,
                        id2: nat, m2: string, t2: Option<string>)
    ensures var first := AddMessage(ledger, id1, m1, t1, Stored).ledger;
      var second := AddMessage(first, id2, m2, t2, Stored).ledger;
      |second| == |ledger| + 2 && second[..|ledger|] == ledger
      && second[|ledger|].message == m1 && second[|ledger| + 1].message == m2
  {
  }
}
