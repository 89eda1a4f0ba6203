/** BoxCLI/Commands/CollaborationSubCommands/CollaborationSubCommandBase.cs:
    the role chosen from the role flags, and adding collaborations in bulk
    from a CSV file, where the first failure ends the run. */
module CollaborationBase {
  import opened Wrappers
  import opened Strings
  import opened CommandBase
  import opened Batch

  /** The role names of the Box API (`BoxCollaborationRoles`). */
  const Editor: string := "editor"
  const Viewer: string := "viewer"
  const Uploader: string := "uploader"
  const PreviewerUploader: string := "previewer uploader"
  const ViewerUploader: string := "viewer uploader"
  const CoOwner: string := "co-owner"
  const Owner: string := "owner"
  const Previewer: string := "previewer"

  /** The roles in the order of the role table. */
  const RoleNames: seq<string> := [Editor, Viewer, Uploader, PreviewerUploader, ViewerUploader, CoOwner, Owner, Previewer]

  /** The message of the exception `First` throws when nothing matches. */
  const NoRoleSelected: string := "Sequence contains no matching element"

  /** Which role flags were given; the owner option is `None` when the
      command has none. */
  datatype RoleFlags = RoleFlags(editor: bool, viewer: bool, uploader: bool, previewerUploader: bool,
                                 viewerUploader: bool, coOwner: bool, previewer: bool, owner: Option<bool>)

  /** The item a collaboration is on (`BoxRequestEntity`). */
  datatype ItemRef = ItemRef(id: string, boxType: BoxType)

  /** Who the item is shared with: a user or group id, or a login. */
  datatype AccessibleBy = AccessibleBy(id: Option<string>, login: Option<string>, boxType: BoxType)

  /** `BoxCollaborationRequest`. */
  datatype CollaborationRequest = CollaborationRequest(item: ItemRef, accessibleBy: Option<AccessibleBy>,
                                                       role: string, canViewPath: Option<bool>)

  /** A collaboration the service created. */
  datatype Collaboration = Collaboration(id: string, item: ItemRef, role: string)

  /** The flags in the order of the role table; the owner role counts only
      when an owner option exists and was given. */
  function RoleTable(f: RoleFlags): (s: seq<bool>)
    ensures |s| == |RoleNames|
    ensures s[0] == f.editor && s[1] == f.viewer && s[2] == f.uploader && s[3] == f.previewerUploader
    ensures s[4] == f.viewerUploader && s[5] == f.coOwner && s[7] == f.previewer
    ensures s[6] <==> f.owner == Some(true)
  {
    [f.editor, f.viewer, f.uploader, f.previewerUploader, f.viewerUploader, f.coOwner,
     f.owner == Some(true), f.previewer]
  }

  /** The index of the first set flag, or the number of flags. */
  function FirstSet(flags: seq<bool>): (j: nat)
    ensures j <= |flags|
    ensures forall i :: 0 <= i < j ==> !flags[i]
    ensures j < |flags| ==> flags[j]
  {
    if |flags| == 0 then 0
    else if flags[0] then 0
    else 1 + FirstSet(flags[1..])
  }

  /** The first role in table order whose flag is set, if any. */
  function SelectedRole(f: RoleFlags): (r: Option<string>)
    ensures r.None? <==> forall i :: 0 <= i < |RoleNames| ==> !RoleTable(f)[i]
    ensures r.Some? ==> exists j :: 0 <= j < |RoleNames| && RoleTable(f)[j]
                                    && (forall i :: 0 <= i < j ==> !RoleTable(f)[i])
                                    && r.value == RoleNames[j]
  {
    var j := FirstSet(RoleTable(f));
    if j == |RoleNames| then None else Some(RoleNames[j])
  }

  /** `ProcessRoleOptions`: the lower-cased name of the selected role; with
      no flag set `First` throws. */
  function ProcessRoleOptions(f: RoleFlags): (r: Outcome<string>)
    ensures r.Err? <==> forall i :: 0 <= i < |RoleNames| ==> !RoleTable(f)[i]
    ensures r.Err? ==> r.msg == NoRoleSelected
    ensures r.Ok? ==> SelectedRole(f).Some? && r.value == Lower(SelectedRole(f).value)
  {
    match SelectedRole(f)
    case None => Err(NoRoleSelected)
    case Some(name) => Ok(Lower(name))
  }

  /** Reference definition: the same choice as a chain of tests. */
  function RoleChain(f: RoleFlags): Option<string> {
    if f.editor then Some(Editor)
    else if f.viewer then Some(Viewer)
    else if f.uploader then Some(Uploader)
    else if f.previewerUploader then Some(PreviewerUploader)
    else if f.viewerUploader then Some(ViewerUploader)
    else if f.coOwner then Some(CoOwner)
    else if f.owner == Some(true) then Some(Owner)
    else if f.previewer then Some(Previewer)
    else None
  }

  /** The role at table index `k` is selected when its flag is the first set. */
  lemma SelectedAt(f: RoleFlags, k: nat)
    requires k <= |RoleNames|
    requires k < |RoleNames| ==> RoleTable(f)[k]
    requires forall i :: 0 <= i < k ==> !RoleTable(f)[i]
    ensures SelectedRole(f) == if k == |RoleNames| then None else Some(RoleNames[k])
  {
    var j := FirstSet(RoleTable(f));
    assert j == k;
  }

  /** The role table selects what the chain of tests selects. */
  lemma RoleTableIsChain(f: RoleFlags)
    ensures SelectedRole(f) == RoleChain(f)
  {
    if f.editor {
      SelectedAt(f, 0);
    } else if f.viewer {
      SelectedAt(f, 1);
    } else if f.uploader {
      SelectedAt(f, 2);
    } else if f.previewerUploader {
      SelectedAt(f, 3);
    } else if f.viewerUploader {
      SelectedAt(f, 4);
    } else if f.coOwner {
      SelectedAt(f, 5);
    } else if f.owner == Some(true) {
      SelectedAt(f, 6);
    } else if f.previewer {
      SelectedAt(f, 7);
    } else {
      SelectedAt(f, 8);
    }
  }

  /** The owner role is selected only when an owner option was given and set. */
  lemma OwnerNeedsOption(f: RoleFlags)
    requires f.owner != Some(true)
    ensures SelectedRole(f) != Some(Owner)
  {
    var j := FirstSet(RoleTable(f));
    assert j != 6;
  }

  /** The bulk loop's retyping: the test `Type != file || Type != folder`
      holds for every type, so every request gets the command's type. */
  function Retype(r: CollaborationRequest, t: BoxType): (q: CollaborationRequest)
    ensures q.item.boxType == t
    ensures q.item.id == r.item.id && q.accessibleBy == r.accessibleBy && q.role == r.role
            && q.canViewPath == r.canViewPath
  {
    if r.item.boxType != File || r.item.boxType != Folder then r.(item := r.item.(boxType := t)) else r
  }

  /** The bulk loop from the first record on: each retyped request is added
      and shown; the first failing add ends the run with its message. */
  function AddAll(reqs: seq<CollaborationRequest>, t: BoxType, add: CollaborationRequest -> Outcome<Collaboration>,
                  json: bool): seq<Emit<Collaboration>>
  {
    if |reqs| == 0 then []
    else match add(Retype(reqs[0], t))
      case Ok(c) => [Shown(c, json)] + AddAll(reqs[1..], t, add, json)
      case Err(m) => [ErrorLine(m)]
  }

  /** A whole bulk run: a failing read is one error line. */
  function FromFile(read: Outcome<seq<CollaborationRequest>>, t: BoxType,
                    add: CollaborationRequest -> Outcome<Collaboration>, json: bool): seq<Emit<Collaboration>>
  {
    match read
    case Err(m) => [ErrorLine(m)]
    case Ok(reqs) => AddAll(reqs, t, add, json)
  }

  /** `ProcessCollaborationsFromFile(id, path, t, json)` of a command whose
      own type is `commandType`; the `t` argument is not used. */
  method ProcessCollaborationsFromFile(path: string, t: BoxType, commandType: BoxType, json: bool,
                                       translate: string -> string,
                                       read: string -> Outcome<seq<CollaborationRequest>>,
                                       add: CollaborationRequest -> Outcome<Collaboration>)
    returns (events: seq<Emit<Collaboration>>)
    ensures events == FromFile(read(InputPath(path, translate)), commandType, add, json)
  {
    var p := path;
    if p != "" {
      p := translate(p);
    }
    var collaborationRequests := read(p);
    if collaborationRequests.Err? {
      events := [ErrorLine(collaborationRequests.msg)];
      return;
    }
    events := AddCollaborations(collaborationRequests.value, commandType, add, json);
  }

  /** The record loop: each request is retyped in place, added and shown,
      and the first failing add ends the loop (the exception the command's
      handler reports). */
  method AddCollaborations(reqs: seq<CollaborationRequest>, commandType: BoxType,
                           add: CollaborationRequest -> Outcome<Collaboration>, json: bool)
    returns (events: seq<Emit<Collaboration>>)
    ensures events == AddAll(reqs, commandType, add, json)
  {
    events := [];
    var i := 0;
    while i < |reqs|
      invariant 0 <= i <= |reqs|
      invariant events + AddAll(reqs[i..], commandType, add, json) == AddAll(reqs, commandType, add, json)
    {
      var request := RetypeRequest(reqs[i], commandType);
      var createdCollaboration := add(request);
      if createdCollaboration.Err? {
        assert events + [ErrorLine(createdCollaboration.msg)] == AddAll(reqs, commandType, add, json) by {
            AddAllStep(reqs, i, commandType, add, json);
        }
        events := events + [ErrorLine(createdCollaboration.msg)];
        return;
      }
      assert (events + [Shown(createdCollaboration.value, json)]) + AddAll(reqs[i + 1..], commandType, add, json)
             == AddAll(reqs, commandType, add, json) by {
        AddAllStep(reqs, i, commandType, add, json);
      }
      events := events + [Shown(createdCollaboration.value, json)];
      i := i + 1;
    }
  }

  /** The in-place retyping of one request. */
  method RetypeRequest(collaborationRequest: CollaborationRequest, commandType: BoxType)
    returns (request: CollaborationRequest)
    ensures request == Retype(collaborationRequest, commandType)
  {
    request := collaborationRequest;
    if request.item.boxType != File || request.item.boxType != Folder {
      request := request.(item := request.item.(boxType := commandType));
    }
  }

  /** One step of the bulk loop from record `i`. */
  lemma AddAllStep(reqs: seq<CollaborationRequest>, i: nat, t: BoxType,
                   add: CollaborationRequest -> Outcome<Collaboration>, json: bool)
    requires i < |reqs|
    ensures add(Retype(reqs[i], t)).Ok? ==>
      AddAll(reqs[i..], t, add, json) == [Shown(add(Retype(reqs[i], t)).value, json)] + AddAll(reqs[i + 1..], t, add, json)
    ensures add(Retype(reqs[i], t)).Err? ==> AddAll(reqs[i..], t, add, json) == [ErrorLine(add(Retype(reqs[i], t)).msg)]
  {
    assert reqs[i..][0] == reqs[i];
    assert reqs[i..][1..] == reqs[i + 1..];
  }

  /** No isolation: when record `k` is the first to fail, the run shows the
      `k` records before it and one error line, and the records after it
      are never sent. */
  lemma {:induction false} FirstFailureAborts(a: seq<CollaborationRequest>, b: seq<CollaborationRequest>, k: nat,
                                              t: BoxType, add: CollaborationRequest -> Outcome<Collaboration>, json: bool)
    requires k < |a| && add(Retype(a[k], t)).Err?
    requires forall i :: 0 <= i < k ==> add(Retype(a[i], t)).Ok?
    ensures AddAll(a + b, t, add, json) == AddAll(a, t, add, json)
    ensures |AddAll(a, t, add, json)| == k + 1
    ensures AddAll(a, t, add, json)[k] == ErrorLine(add(Retype(a[k], t)).msg)
    ensures forall i :: 0 <= i < k ==> AddAll(a, t, add, json)[i] == Shown(add(Retype(a[i], t)).value, json)
    decreases k
  {
    assert (a + b)[0] == a[0];
    if k > 0 {
      assert (a + b)[1..] == a[1..] + b;
      FirstFailureAborts(a[1..], b, k - 1, t, add, json);
    }
  }

  /** When every add succeeds, every record is shown, in file order. */
  lemma {:induction false} AllAddedInOrder(reqs: seq<CollaborationRequest>, t: BoxType,
                                           add: CollaborationRequest -> Outcome<Collaboration>, json: bool)
    requires forall i :: 0 <= i < |reqs| ==> add(Retype(reqs[i], t)).Ok?
    ensures |AddAll(reqs, t, add, json)| == |reqs|
    ensures forall i :: 0 <= i < |reqs| ==> AddAll(reqs, t, add, json)[i] == Shown(add(Retype(reqs[i], t)).value, json)
    decreases |reqs|
  {
    if |reqs| > 0 {
      AllAddedInOrder(reqs[1..], t, add, json);
    }
  }

  /** The bulk run never calls the report writer. */
  lemma {:induction false} BulkHasNoReport(reqs: seq<CollaborationRequest>, t: BoxType,
                                           add: CollaborationRequest -> Outcome<Collaboration>, json: bool)
    ensures forall i :: 0 <= i < |AddAll(reqs, t, add, json)| ==> !AddAll(reqs, t, add, json)[i].Report?
    decreases |reqs|
  {
    if |reqs| > 0 {
      BulkHasNoReport(reqs[1..], t, add, json);
    }
  }
}
