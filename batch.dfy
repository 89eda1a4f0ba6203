/** The parts the bulk-from-file commands repeat: the save condition, the
    report plan (format, folder, file name) with overrides beating the
    settings, and the record loop that isolates each record's failure,
    prints each success and accumulates it for the report. */
module Batch {
  import opened Wrappers
  import opened CommandBase

  /** The file side of a bulk run: `GeneralUtilities.TranslatePath`, the
      CSV reader (which reads the whole file or fails) and the report writer. */
  datatype Files<R, !E> = Files(translate: string -> string,
                               read: string -> Outcome<seq<R>>,
                               write: (ReportPlan, seq<E>) -> Outcome<string>)

  /** What one record produced: the entity that counts as a success, if
      any, and the error messages reported while processing it. */
  datatype RecordResult<E> = RecordResult(value: Option<E>, errors: seq<string>)

  /** `save || !string.IsNullOrEmpty(overrideSavePath) || GetAutoSaveSetting()`
      (a null override path behaves as the empty one). */
  predicate SaveRequested(save: bool, overridePath: string, settings: Settings) {
    save || overridePath != "" || settings.autoSave
  }

  /** A non-empty override replaces the configured value. */
  function Override(value: string, configured: string): (r: string)
    ensures value != "" ==> r == value
    ensures value == "" ==> r == configured
  {
    if value != "" then value else configured
  }

  /** `{command}-{subCommand}-{timestamp}`. */
  function ReportName(command: string, subCommand: string, timestamp: string): string {
    command + "-" + subCommand + "-" + timestamp
  }

  /** Format, folder and file name of the report of one batch run. */
  function ResolvePlan(settings: Settings, overridePath: string, overrideFormat: string,
                       command: string, subCommand: string, timestamp: string): (p: ReportPlan)
    ensures p.format == if overrideFormat != "" then overrideFormat else settings.reportsFormat
    ensures p.folder == if overridePath != "" then overridePath else settings.reportsFolder
    ensures p.fileName == command + "-" + subCommand + "-" + timestamp
  {
    ReportPlan(Override(overrideFormat, settings.reportsFormat),
               Override(overridePath, settings.reportsFolder),
               ReportName(command, subCommand, timestamp))
  }

  /** The input path, translated only when it is non-empty. */
  function InputPath(path: string, translate: string -> string): (r: string)
    ensures path == "" ==> r == ""
    ensures path != "" ==> r == translate(path)
  {
    if path != "" then translate(path) else path
  }

  /** A success is output as JSON or printed, as the json flag says. */
  function Shown<E>(entity: E, json: bool): Emit<E> {
    if json then Json(entity) else Print(entity)
  }

  /** The console effects of one record: its error lines, then its output. */
  function RecordEvents<E>(r: RecordResult<E>, json: bool): seq<Emit<E>> {
    Errors(r.errors) + (if r.value.Some? then [Shown(r.value.value, json)] else [])
  }

  /** The console effects of the record loop, record after record. */
  function RunEvents<E>(rs: seq<RecordResult<E>>, json: bool): seq<Emit<E>> {
    if |rs| == 0 then [] else RunEvents(rs[..|rs| - 1], json) + RecordEvents(rs[|rs| - 1], json)
  }

  /** The accumulator after the record loop: a success is appended only when
      a report was requested. */
  function Saved<E>(rs: seq<RecordResult<E>>, keep: bool): seq<E> {
    if |rs| == 0 then []
    else Saved(rs[..|rs| - 1], keep) + (if keep && rs[|rs| - 1].value.Some? then [rs[|rs| - 1].value.value] else [])
  }

  /** Reference definition: the successful values, in input order. */
  function Successes<E>(rs: seq<RecordResult<E>>): seq<E> {
    if |rs| == 0 then []
    else (if rs[0].value.Some? then [rs[0].value.value] else []) + Successes(rs[1..])
  }

  /** The report step: when a report was requested the report writer is
      called with the accumulated rows, and a failing write is reported as an error. */
  function ReportEvents<E>(keep: bool, plan: ReportPlan, rows: seq<E>,
                           write: (ReportPlan, seq<E>) -> Outcome<string>): seq<Emit<E>> {
    if !keep then []
    else [Report(plan, rows)] + match write(plan, rows) {
      case Ok(_) => []
      case Err(m) => [ErrorLine(m)]
    }
  }

  lemma ReportEventsShape<E>(keep: bool, plan: ReportPlan, rows: seq<E>,
                             write: (ReportPlan, seq<E>) -> Outcome<string>)
    ensures !keep ==> ReportEvents(keep, plan, rows, write) == []
    ensures keep && write(plan, rows).Ok? ==> ReportEvents(keep, plan, rows, write) == [Report(plan, rows)]
    ensures keep && write(plan, rows).Err? ==>
      ReportEvents(keep, plan, rows, write) == [Report(plan, rows), ErrorLine(write(plan, rows).msg)]
  {
  }

  /** The report step as the commands write it: the configured format and
      folder, each replaced by a non-empty override, and the file name. */
  method ReportPlanFor(settings: Settings, overridePath: string, overrideFormat: string,
                       command: string, subCommand: string, timestamp: string)
    returns (plan: ReportPlan)
    ensures plan == ResolvePlan(settings, overridePath, overrideFormat, command, subCommand, timestamp)
  {
    var fileFormat := settings.reportsFormat;
    if overrideFormat != "" {
      fileFormat := overrideFormat;
    }
    var savePath := settings.reportsFolder;
    if overridePath != "" {
      savePath := overridePath;
    }
    var fileName := command + "-" + subCommand + "-" + timestamp;
    plan := ReportPlan(fileFormat, savePath, fileName);
  }

  /** Writing the report: the write is recorded, and a failing write (an
      exception caught by the command's outer handler) is reported. */
  method WriteReport<E>(plan: ReportPlan, rows: seq<E>, write: (ReportPlan, seq<E>) -> Outcome<string>)
    returns (events: seq<Emit<E>>)
    ensures events == ReportEvents(true, plan, rows, write)
  {
    var written := write(plan, rows);
    events := [Report(plan, rows)];
    if written.Err? {
      events := events + [ErrorLine(written.msg)];
    }
  }

  /** A whole run whose records are each isolated: a failing read is one
      error line; otherwise the record loop, then the report step. */
  function IsolatedBatch<E>(results: Outcome<seq<RecordResult<E>>>, json: bool, keep: bool, plan: ReportPlan,
                            write: (ReportPlan, seq<E>) -> Outcome<string>): seq<Emit<E>> {
    match results
    case Err(m) => [ErrorLine(m)]
    case Ok(rs) => RunEvents(rs, json) + ReportEvents(keep, plan, Saved(rs, keep), write)
  }

  /** The loop body's output for one record: its error lines and the
      success shown, and the success kept for the report when one was
      requested. */
  method EmitRecord<E>(value: Option<E>, errors: seq<string>, json: bool, keep: bool)
    returns (shown: seq<Emit<E>>, kept: seq<E>)
    ensures shown == RecordEvents(RecordResult(value, errors), json)
    ensures kept == if keep && value.Some? then [value.value] else []
  {
    shown := Errors(errors);
    kept := [];
    if value.Some? {
      shown := shown + [Shown(value.value, json)];
      if keep {
        kept := [value.value];
      }
    }
  }

  /** One more record extends the loop's effects and the accumulator. */
  lemma RunStep<E>(rs: seq<RecordResult<E>>, r: RecordResult<E>, json: bool, keep: bool)
    ensures RunEvents(rs + [r], json) == RunEvents(rs, json) + RecordEvents(r, json)
    ensures Saved(rs + [r], keep) == Saved(rs, keep) + (if keep && r.value.Some? then [r.value.value] else [])
  {
    assert (rs + [r])[..|rs|] == rs;
  }

  lemma {:induction false} SuccessesAppend<E>(rs: seq<RecordResult<E>>, r: RecordResult<E>)
    ensures Successes(rs + [r]) == Successes(rs) + (if r.value.Some? then [r.value.value] else [])
    decreases |rs|
  {
    var tail := if r.value.Some? then [r.value.value] else [];
    if |rs| == 0 {
      assert rs + [r] == [r];
      assert [r][1..] == [];
    } else {
      var head := if rs[0].value.Some? then [rs[0].value.value] else [];
      calc {
        Successes(rs + [r]);
        { assert (rs + [r])[0] == rs[0]; assert (rs + [r])[1..] == rs[1..] + [r]; }
        head + Successes(rs[1..] + [r]);
        { SuccessesAppend(rs[1..], r); }
        head + (Successes(rs[1..]) + tail);
        Successes(rs) + tail;
      }
    }
  }

  /** The saved list is exactly the successes in input order when a report
      was requested, and empty otherwise. */
  lemma {:induction false} SavedIsSuccesses<E>(rs: seq<RecordResult<E>>, keep: bool)
    ensures Saved(rs, keep) == if keep then Successes(rs) else []
    decreases |rs|
  {
    if |rs| > 0 {
      var init := rs[..|rs| - 1];
      SavedIsSuccesses(init, keep);
      SuccessesAppend(init, rs[|rs| - 1]);
      assert init + [rs[|rs| - 1]] == rs;
    }
  }

  /** Failure isolation: the loop over `a + b` is the loop over `a` followed
      by the loop over `b`, whatever happened in `a`. */
  lemma {:induction false} RunSplit<E>(a: seq<RecordResult<E>>, b: seq<RecordResult<E>>, json: bool, keep: bool)
    ensures RunEvents(a + b, json) == RunEvents(a, json) + RunEvents(b, json)
    ensures Saved(a + b, keep) == Saved(a, keep) + Saved(b, keep)
    decreases |b|
  {
    if |b| == 0 {
      assert a + b == a;
    } else {
      var init, last := b[..|b| - 1], b[|b| - 1];
      assert (a + b)[..|a + b| - 1] == a + init;
      assert (a + b)[|a + b| - 1] == last;
      RunSplit(a, init, json, keep);
      assert RunEvents(a + b, json) == RunEvents(a + init, json) + RecordEvents(last, json);
      assert RunEvents(b, json) == RunEvents(init, json) + RecordEvents(last, json);
    }
  }

  /** The record loop never calls the report writer. */
  lemma {:induction false} RunHasNoReport<E>(rs: seq<RecordResult<E>>, json: bool)
    ensures forall i :: 0 <= i < |RunEvents(rs, json)| ==> !RunEvents(rs, json)[i].Report?
    decreases |rs|
  {
    if |rs| > 0 {
      RunHasNoReport(rs[..|rs| - 1], json);
    }
  }

  /** The report writer is called if and only if a report was requested,
      even when no record succeeded; the call carries the successes in
      input order. */
  lemma ReportIffRequested<E>(rs: seq<RecordResult<E>>, json: bool, keep: bool, plan: ReportPlan,
                              write: (ReportPlan, seq<E>) -> Outcome<string>)
    ensures var ev := IsolatedBatch(Ok(rs), json, keep, plan, write);
      && ((exists i :: 0 <= i < |ev| && ev[i].Report?) <==> keep)
      && (keep ==> ev[|RunEvents(rs, json)|] == Report(plan, Successes(rs)))
  {
    var ev := IsolatedBatch(Ok(rs), json, keep, plan, write);
    var run := RunEvents(rs, json);
    RunHasNoReport(rs, json);
    SavedIsSuccesses(rs, keep);
    if keep {
      assert ev[|run|].Report?;
    } else {
      assert ev == run;
    }
  }

  /** A failing read reports one error and processes nothing. */
  lemma ReadFailure<E>(m: string, json: bool, keep: bool, plan: ReportPlan,
                       write: (ReportPlan, seq<E>) -> Outcome<string>)
    ensures IsolatedBatch(Err(m), json, keep, plan, write) == [ErrorLine(m)]
  {
  }

  /** The successes of `a + b` are those of `a`, then those of `b`. */
  lemma {:induction false} SuccessesConcat<E>(a: seq<RecordResult<E>>, b: seq<RecordResult<E>>)
    ensures Successes(a + b) == Successes(a) + Successes(b)
    decreases |a|
  {
    if |a| == 0 {
      assert a + b == b;
    } else {
      assert (a + b)[0] == a[0];
      assert (a + b)[1..] == a[1..] + b;
      SuccessesConcat(a[1..], b);
    }
  }

  /** A failing record adds nothing to the successes. */
  lemma SkipFailure<E>(rs: seq<RecordResult<E>>, k: nat)
    requires k < |rs| && rs[k].value.None?
    ensures Successes(rs) == Successes(rs[..k]) + Successes(rs[k + 1..])
  {
    var before, after := rs[..k], rs[k + 1..];
    var rest := [rs[k]] + after;
    calc {
      Successes(rs);
      { assert rs == before + rest; }
      Successes(before + rest);
      { SuccessesConcat(before, rest); }
      Successes(before) + Successes(rest);
      { assert rest[0] == rs[k] && rest[1..] == after; }
      Successes(before) + Successes(after);
    }
  }

  /** A stretch of records that all succeed contributes all their values. */
  lemma AllSucceedBetween<E>(rs: seq<RecordResult<E>>, lo: nat, hi: nat)
    requires lo <= hi <= |rs|
    requires forall i :: lo <= i < hi ==> rs[i].value.Some?
    ensures |Successes(rs[lo..hi])| == hi - lo
    ensures forall i :: 0 <= i < hi - lo ==> Successes(rs[lo..hi])[i] == rs[lo + i].value.value
  {
    var part := rs[lo..hi];
    assert forall i :: 0 <= i < |part| ==> part[i] == rs[lo + i];
    AllSucceed(part);
  }

  /** When exactly one record fails and the others succeed, the successes
      are the values of every other record, in input order: the failure
      costs that record and nothing else. */
  lemma OneFailure<E>(rs: seq<RecordResult<E>>, k: nat)
    requires k < |rs| && rs[k].value.None?
    requires forall i :: 0 <= i < |rs| && i != k ==> rs[i].value.Some?
    ensures Successes(rs) == Successes(rs[..k]) + Successes(rs[k + 1..])
    ensures |Successes(rs)| == |rs| - 1
    ensures forall i :: 0 <= i < k ==> Successes(rs)[i] == rs[i].value.value
    ensures forall i :: k <= i < |rs| - 1 ==> Successes(rs)[i] == rs[i + 1].value.value
  {
    SkipFailure(rs, k);
    AllSucceedBetween(rs, 0, k);
    AllSucceedBetween(rs, k + 1, |rs|);
    assert rs[..k] == rs[0..k];
    assert rs[k + 1..] == rs[k + 1..|rs|];
  }

  /** When every record succeeds and a report was requested, the saved
      list holds every record's value, in input order. */
  lemma {:induction false} SavedAllSucceed<E>(rs: seq<RecordResult<E>>)
    requires forall i :: 0 <= i < |rs| ==> rs[i].value.Some?
    ensures |Saved(rs, true)| == |rs|
    ensures forall i :: 0 <= i < |rs| ==> Saved(rs, true)[i] == rs[i].value.value
    decreases |rs|
  {
    if |rs| > 0 {
      var init := rs[..|rs| - 1];
      SavedAllSucceed(init);
      assert Saved(rs, true) == Saved(init, true) + [rs[|rs| - 1].value.value];
    }
  }

  /** When every record succeeds, the successes are every record's value,
      in input order. */
  lemma {:induction false} AllSucceed<E>(rs: seq<RecordResult<E>>)
    requires forall i :: 0 <= i < |rs| ==> rs[i].value.Some?
    ensures |Successes(rs)| == |rs|
    ensures forall i :: 0 <= i < |rs| ==> Successes(rs)[i] == rs[i].value.value
    decreases |rs|
  {
    if |rs| > 0 {
      AllSucceed(rs[1..]);
      assert Successes(rs) == [rs[0].value.value] + Successes(rs[1..]);
    }
  }
}
