/** The bulk folder commands of BoxCLI/Commands/FolderSubCommands/FolderSubCommandBase.cs:
    `CreateFoldersFromFile` and `UpdateFoldersFromFile`. Each reads folder
    requests from a file, calls the remote folder API once or twice per
    record, reports and skips a failing record, prints every success, and
    writes a report of the successes when saving was requested. */
module FolderCommands {
  import opened Wrappers
  import opened CommandBase
  import opened Batch

  datatype FolderRequest = FolderRequest(id: string, name: string, parentId: string, description: string)

  datatype Folder = Folder(id: string, name: string, description: string)

  /** `FoldersManager.CreateAsync` and `FoldersManager.UpdateInformationAsync`. */
  datatype FolderApi = FolderApi(create: FolderRequest -> Outcome<Folder>, update: FolderRequest -> Outcome<Folder>)

  const CreateFailed: string := "Couldn't create folder..."
  const UpdateFailed: string := "Couldn't update folder..."

  /** The second request of a create: only the new folder's id and the
      description are set. */
  function DescriptionUpdate(created: Folder, description: string): (u: FolderRequest)
    ensures u.id == created.id && u.description == description && u.name == "" && u.parentId == ""
  {
    FolderRequest(created.id, "", "", description)
  }

  /** One record of a create batch: a create call and, for a non-empty
      description, an update of the new folder's description. */
  function CreateOne(req: FolderRequest, api: FolderApi): (r: RecordResult<Folder>)
    ensures r.value.Some? <==> api.create(req).Ok?
  {
    match api.create(req)
    case Err(m) => RecordResult(None, [CreateFailed, m])
    case Ok(f) =>
      if req.description == "" then RecordResult(Some(f), [])
      else match api.update(DescriptionUpdate(f, req.description)) {
        case Err(m) => RecordResult(Some(f), [CreateFailed, m])
        case Ok(g) => RecordResult(Some(g), [])
      }
  }

  /** The record succeeds exactly when the create call does; a failing
      description update is reported, but the created folder still counts,
      unchanged. */
  lemma CreateOneCases(req: FolderRequest, api: FolderApi)
    ensures api.create(req).Err? ==> CreateOne(req, api) == RecordResult(None, [CreateFailed, api.create(req).msg])
    ensures api.create(req).Ok? && req.description == "" ==>
      CreateOne(req, api) == RecordResult(Some(api.create(req).value), [])
    ensures api.create(req).Ok? && req.description != "" ==>
      var u := api.update(DescriptionUpdate(api.create(req).value, req.description));
      CreateOne(req, api) ==
        if u.Ok? then RecordResult(Some(u.value), [])
        else RecordResult(Some(api.create(req).value), [CreateFailed, u.msg])
  {
  }

  /** One record of an update batch: one update call, reported and skipped
      when it fails. */
  function UpdateOne(req: FolderRequest, api: FolderApi): (r: RecordResult<Folder>)
    ensures r.value.Some? <==> api.update(req).Ok?
    ensures api.update(req).Ok? ==> r == RecordResult(Some(api.update(req).value), [])
    ensures api.update(req).Err? ==> r == RecordResult(None, [UpdateFailed, api.update(req).msg])
  {
    match api.update(req)
    case Err(m) => RecordResult(None, [UpdateFailed, m])
    case Ok(f) => RecordResult(Some(f), [])
  }

  function CreateResults(reqs: seq<FolderRequest>, api: FolderApi): (rs: seq<RecordResult<Folder>>)
    ensures |rs| == |reqs| && forall i :: 0 <= i < |reqs| ==> rs[i] == CreateOne(reqs[i], api)
  {
    seq(|reqs|, i requires 0 <= i < |reqs| => CreateOne(reqs[i], api))
  }

  function UpdateResults(reqs: seq<FolderRequest>, api: FolderApi): (rs: seq<RecordResult<Folder>>)
    ensures |rs| == |reqs| && forall i :: 0 <= i < |reqs| ==> rs[i] == UpdateOne(reqs[i], api)
  {
    seq(|reqs|, i requires 0 <= i < |reqs| => UpdateOne(reqs[i], api))
  }

  lemma CreateResultsStep(reqs: seq<FolderRequest>, i: nat, api: FolderApi)
    requires i < |reqs|
    ensures CreateResults(reqs[..i + 1], api) == CreateResults(reqs[..i], api) + [CreateOne(reqs[i], api)]
  {
    assert reqs[..i + 1][i] == reqs[i];
  }

  lemma UpdateResultsStep(reqs: seq<FolderRequest>, i: nat, api: FolderApi)
    requires i < |reqs|
    ensures UpdateResults(reqs[..i + 1], api) == UpdateResults(reqs[..i], api) + [UpdateOne(reqs[i], api)]
  {
    assert reqs[..i + 1][i] == reqs[i];
  }

  /** The read outcome mapped through the per-record step. */
  function CreateAll(read: Outcome<seq<FolderRequest>>, api: FolderApi): Outcome<seq<RecordResult<Folder>>> {
    match read
    case Err(m) => Err(m)
    case Ok(reqs) => Ok(CreateResults(reqs, api))
  }

  function UpdateAll(read: Outcome<seq<FolderRequest>>, api: FolderApi): Outcome<seq<RecordResult<Folder>>> {
    match read
    case Err(m) => Err(m)
    case Ok(reqs) => Ok(UpdateResults(reqs, api))
  }

  /** One pass of the create loop's body: a create call and, for a
      non-empty description, an update call. */
  method CreateRecord(folderRequest: FolderRequest, api: FolderApi)
    returns (createdFolder: Option<Folder>, errors: seq<string>)
    ensures RecordResult(createdFolder, errors) == CreateOne(folderRequest, api)
  {
    createdFolder := None;
    errors := [];
    var created := api.create(folderRequest);
    if created.Err? {
      errors := [CreateFailed, created.msg];
    } else {
      createdFolder := Some(created.value);
      if folderRequest.description != "" {
        var updated := api.update(DescriptionUpdate(created.value, folderRequest.description));
        if updated.Err? {
          errors := [CreateFailed, updated.msg];
        } else {
          createdFolder := Some(updated.value);
        }
      }
    }
  }

  /** One pass of the update loop's body: one update call. */
  method UpdateRecord(folderRequest: FolderRequest, api: FolderApi)
    returns (updatedFolder: Option<Folder>, errors: seq<string>)
    ensures RecordResult(updatedFolder, errors) == UpdateOne(folderRequest, api)
  {
    updatedFolder := None;
    errors := [];
    var updated := api.update(folderRequest);
    if updated.Err? {
      errors := [UpdateFailed, updated.msg];
    } else {
      updatedFolder := Some(updated.value);
    }
  }

  /** The record loop of `CreateFoldersFromFile`: a failing record is
      reported and the loop goes on; a success is shown and, when a report
      was requested, kept. */
  method CreateRecords(folderRequests: seq<FolderRequest>, api: FolderApi, json: bool, keep: bool)
    returns (events: seq<Emit<Folder>>, saveCreated: seq<Folder>)
    ensures events == RunEvents(CreateResults(folderRequests, api), json)
    ensures saveCreated == Saved(CreateResults(folderRequests, api), keep)
  {
    saveCreated := [];
    events := [];
    var i := 0;
    while i < |folderRequests|
      invariant 0 <= i <= |folderRequests|
      invariant events == RunEvents(CreateResults(folderRequests[..i], api), json)
      invariant saveCreated == Saved(CreateResults(folderRequests[..i], api), keep)
    {
      var createdFolder, errors := CreateRecord(folderRequests[i], api);
      var shown, kept := EmitRecord(createdFolder, errors, json, keep);
      events := events + shown;
      saveCreated := saveCreated + kept;
      ghost var done := CreateResults(folderRequests[..i], api);
      CreateResultsStep(folderRequests, i, api);
      RunStep(done, RecordResult(createdFolder, errors), json, keep);
      i := i + 1;
    }
    assert folderRequests[..i] == folderRequests;
  }

  /** The record loop of `UpdateFoldersFromFile`. */
  method UpdateRecords(folderRequests: seq<FolderRequest>, api: FolderApi, json: bool, keep: bool)
    returns (events: seq<Emit<Folder>>, saveUpdated: seq<Folder>)
    ensures events == RunEvents(UpdateResults(folderRequests, api), json)
    ensures saveUpdated == Saved(UpdateResults(folderRequests, api), keep)
  {
    saveUpdated := [];
    events := [];
    var i := 0;
    while i < |folderRequests|
      invariant 0 <= i <= |folderRequests|
      invariant events == RunEvents(UpdateResults(folderRequests[..i], api), json)
      invariant saveUpdated == Saved(UpdateResults(folderRequests[..i], api), keep)
    {
      var updatedFolder, errors := UpdateRecord(folderRequests[i], api);
      var shown, kept := EmitRecord(updatedFolder, errors, json, keep);
      events := events + shown;
      saveUpdated := saveUpdated + kept;
      ghost var done := UpdateResults(folderRequests[..i], api);
      UpdateResultsStep(folderRequests, i, api);
      RunStep(done, RecordResult(updatedFolder, errors), json, keep);
      i := i + 1;
    }
    assert folderRequests[..i] == folderRequests;
  }

  /** `CreateFoldersFromFile`: the console effects of one run. */
  method CreateFoldersFromFile(path: string, save: bool, overridePath: string, overrideFormat: string, json: bool,
                               settings: Settings, names: Names, timestamp: string,
                               files: Files<FolderRequest, Folder>, api: FolderApi)
    returns (events: seq<Emit<Folder>>)
    ensures events == IsolatedBatch(CreateAll(files.read(InputPath(path, files.translate)), api), json,
                                    SaveRequested(save, overridePath, settings),
                                    ResolvePlan(settings, overridePath, overrideFormat, names.folders, names.create, timestamp),
                                    files.write)
  {
    var p := path;
    if p != "" {
      p := files.translate(p);
    }
    var read := files.read(p);
    if read.Err? {
      events := [ErrorLine(read.msg)];
      return;
    }
    var keep := SaveRequested(save, overridePath, settings);
    var saveCreated;
    events, saveCreated := CreateRecords(read.value, api, json, keep);
    if keep {
      var plan := ReportPlanFor(settings, overridePath, overrideFormat, names.folders, names.create, timestamp);
      var tail := WriteReport(plan, saveCreated, files.write);
      events := events + tail;
    }
  }

  /** `UpdateFoldersFromFile`: the console effects of one run. */
  method UpdateFoldersFromFile(path: string, save: bool, overridePath: string, overrideFormat: string, json: bool,
                               settings: Settings, names: Names, timestamp: string,
                               files: Files<FolderRequest, Folder>, api: FolderApi)
    returns (events: seq<Emit<Folder>>)
    ensures events == IsolatedBatch(UpdateAll(files.read(InputPath(path, files.translate)), api), json,
                                    SaveRequested(save, overridePath, settings),
                                    ResolvePlan(settings, overridePath, overrideFormat, names.folders, names.update, timestamp),
                                    files.write)
  {
    var p := path;
    if p != "" {
      p := files.translate(p);
    }
    var read := files.read(p);
    if read.Err? {
      events := [ErrorLine(read.msg)];
      return;
    }
    var keep := SaveRequested(save, overridePath, settings);
    var saveUpdated;
    events, saveUpdated := UpdateRecords(read.value, api, json, keep);
    if keep {
      var plan := ReportPlanFor(settings, overridePath, overrideFormat, names.folders, names.update, timestamp);
      var tail := WriteReport(plan, saveUpdated, files.write);
      events := events + tail;
    }
  }

  /** A create batch whose only failing create call is record k prints and
      saves every other record, and a requested report holds exactly those
      |reqs| - 1 folders in input order. */
  lemma CreateOneFailure(reqs: seq<FolderRequest>, k: nat, api: FolderApi, json: bool, keep: bool,
                         plan: ReportPlan, write: (ReportPlan, seq<Folder>) -> Outcome<string>)
    requires k < |reqs| && api.create(reqs[k]).Err?
    requires forall i :: 0 <= i < |reqs| && i != k ==> api.create(reqs[i]).Ok?
    ensures var rs := CreateResults(reqs, api);
      && |Successes(rs)| == |reqs| - 1
      && (forall i :: 0 <= i < k ==> Successes(rs)[i] == CreateOne(reqs[i], api).value.value)
      && (forall i :: k <= i < |reqs| - 1 ==> Successes(rs)[i] == CreateOne(reqs[i + 1], api).value.value)
      && (keep ==> IsolatedBatch(Ok(rs), json, keep, plan, write)[|RunEvents(rs, json)|] == Report(plan, Successes(rs)))
  {
    var rs := CreateResults(reqs, api);
    OneFailure(rs, k);
    ReportIffRequested(rs, json, keep, plan, write);
  }
}
