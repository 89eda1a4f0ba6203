/** What every command shares: the Box item types, the console output a
    command produces (as a trace of events), the user settings it reads,
    the localized command names, and the required-value guard of the
    command base class. */
module CommandBase {
  import opened Wrappers
  import opened Strings

  /** The `BoxType` values the modelled commands use. */
  datatype BoxType = File | Folder | User | Group | Enterprise

  /** The settings the commands read from the Box home directory. */
  datatype Settings = Settings(autoSave: bool, reportsFormat: string, reportsFolder: string, outputJson: bool)

  /** Localized command and sub-command names (`_names.CommandNames`,
      `_names.SubCommandNames`). */
  datatype Names = Names(folders: string, metadata: string,
                         create: string, update: string, get: string, delete: string)

  /** Where a report goes: file format, folder and file name. */
  datatype ReportPlan = ReportPlan(format: string, folder: string, fileName: string)

  /** One console effect of a command: a Reporter line (information,
      success or error), an entity output as JSON or printed field by
      field, or a call of the report writer with the given rows (recorded
      before the write's outcome is known). */
  datatype Emit<E> =
    | Info(text: string)
    | Success(text: string)
    | ErrorLine(text: string)
    | Json(entity: E)
    | Print(entity: E)
    | Report(plan: ReportPlan, rows: seq<E>)

  /** One `Reporter.WriteError` per message, in order. */
  function Errors<E>(messages: seq<string>): (r: seq<Emit<E>>)
    ensures |r| == |messages|
    ensures forall i :: 0 <= i < |r| ==> r[i] == ErrorLine(messages[i])
  {
    seq(|messages|, i requires 0 <= i < |messages| => ErrorLine(messages[i]))
  }

  /** The `--json` flag or the JSON output setting. */
  predicate JsonRequested(jsonFlag: bool, settings: Settings) {
    jsonFlag || settings.outputJson
  }

  /** `CheckForValue`: a null or empty argument stops the command with `message`. */
  function RequireValue(value: Option<string>, message: string): (c: Check)
    ensures c.Fail? <==> IsNullOrEmpty(value)
    ensures c.Fail? ==> c.msg == message
  {
    if IsNullOrEmpty(value) then Fail(message) else Pass
  }
}
