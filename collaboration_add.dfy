/** `RunCreate` of BoxCLI/Commands/CollaborationSubCommands/CollaborationAddCommand.cs:
    adding one collaboration from the command line, or handing a bulk file
    to the bulk routine. */
module CollaborationAdd {
  import opened Wrappers
  import opened Strings
  import opened CommandBase
  import opened CollaborationBase

  const IdRequired: string := "An ID is required for this command."

  /** The command's options and arguments; an option that was not given is
      `None`, a flag is `false`. `itemType` is the second argument, which
      only the enterprise-scoped command has. */
  datatype AddOptions = AddOptions(
    bulkPath: Option<string>, save: bool, path: Option<string>, fileFormat: Option<string>,
    role: Option<string>, editor: bool, viewer: bool, previewer: bool, uploader: bool,
    previewerUploader: bool, viewerUploader: bool, coOwner: bool,
    userId: Option<string>, groupId: Option<string>, login: Option<string>,
    canViewPath: bool, idOnly: bool, json: bool, id: Option<string>, itemType: Option<string>)

  /** The arguments handed to `ProcessAddCollaborationsFromFile`. */
  datatype BulkAdd = BulkAdd(path: string, t: BoxType, json: bool, save: bool,
                             overridePath: Option<string>, overrideFormat: Option<string>)

  /** How the command ends: it delegates to the bulk routine; it stops with
      a message before sending anything (a failed guard or an exception);
      or it sends its request, and the call either fails with a message or
      its result is shown. */
  datatype AddRun =
    | Delegated(call: BulkAdd)
    | Stopped(msg: string)
    | Sent(request: CollaborationRequest, shown: Outcome<seq<Emit<Collaboration>>>)

  /** The role flags of this command: it has no owner option. */
  function FlagsOf(o: AddOptions): (f: RoleFlags)
    ensures f.owner.None?
  {
    RoleFlags(o.editor, o.viewer, o.uploader, o.previewerUploader, o.viewerUploader, o.coOwner, o.previewer, None)
  }

  /** The role: an explicit `--role` value wins over the role flags. */
  function RoleFor(o: AddOptions): (r: Outcome<string>)
    ensures o.role.Some? ==> r == Ok(o.role.value)
    ensures o.role.None? ==> r == ProcessRoleOptions(FlagsOf(o))
  {
    if o.role.Some? then Ok(o.role.value) else ProcessRoleOptions(FlagsOf(o))
  }

  /** Who the item is shared with: a user id, else a group id, else a login;
      nothing when none is given. */
  function Accessible(userId: Option<string>, groupId: Option<string>, login: Option<string>): (a: Option<AccessibleBy>)
    ensures a.None? <==> userId.None? && groupId.None? && login.None?
    ensures a.Some? ==> (a.value.id.Some? <==> a.value.login.None?)
    ensures a.Some? && a.value.boxType == Group <==> userId.None? && groupId.Some?
    ensures userId.Some? ==> a == Some(AccessibleBy(userId, None, User))
    ensures userId.None? && groupId.Some? ==> a.value.id == groupId
    ensures userId.None? && groupId.None? && login.Some? ==> a == Some(AccessibleBy(None, login, User))
  {
    if userId.Some? then Some(AccessibleBy(userId, None, User))
    else if groupId.Some? then Some(AccessibleBy(groupId, None, Group))
    else if login.Some? then Some(AccessibleBy(None, login, User))
    else None
  }

  /** The item type: the enterprise-scoped command parses its type
      argument (`ProcessType`); every other command uses its own type. */
  function ItemTypeFor(t: BoxType, itemType: Option<string>, processType: Option<string> -> Outcome<BoxType>)
    : (r: Outcome<BoxType>)
    ensures t != Enterprise ==> r == Ok(t)
    ensures t == Enterprise ==> r == processType(itemType)
  {
    if t == Enterprise then processType(itemType) else Ok(t)
  }

  /** How a created collaboration is shown: its id alone, else JSON, else
      printed. */
  function AddOutput(c: Collaboration, idOnly: bool, json: bool): (r: seq<Emit<Collaboration>>)
    ensures |r| == 1
    ensures idOnly ==> r[0] == Info(c.id)
    ensures !idOnly && json ==> r[0] == Json(c)
    ensures !idOnly && !json ==> r[0] == Print(c)
  {
    if idOnly then [Info(c.id)] else if json then [Json(c)] else [Print(c)]
  }

  /** The request of the single-item path. */
  function RequestFor(o: AddOptions, id: string, itemType: BoxType, role: string): (q: CollaborationRequest)
    ensures q.item == ItemRef(id, itemType) && q.role == role
    ensures q.accessibleBy == Accessible(o.userId, o.groupId, o.login)
    ensures q.canViewPath == if o.canViewPath then Some(true) else None
  {
    CollaborationRequest(ItemRef(id, itemType), Accessible(o.userId, o.groupId, o.login), role,
                         if o.canViewPath then Some(true) else None)
  }

  /** The whole command for a command of type `t`. */
  function CreateCollaboration(o: AddOptions, t: BoxType, settings: Settings,
                               processType: Option<string> -> Outcome<BoxType>,
                               add: CollaborationRequest -> Outcome<Collaboration>): (r: AddRun)
    ensures r.Delegated? <==> !IsNullOrEmpty(o.bulkPath)
    ensures r.Delegated? ==> r.call == BulkAdd(o.bulkPath.value, t, JsonRequested(o.json, settings), o.save,
                                                o.path, o.fileFormat)
    ensures IsNullOrEmpty(o.bulkPath) && IsNullOrEmpty(o.id) ==> r == Stopped(IdRequired)
    ensures r.Sent? ==> !IsNullOrEmpty(o.id) && r.request.item.id == o.id.value
    ensures r.Sent? && t != Enterprise ==> r.request.item.boxType == t
    ensures r.Sent? && o.role.Some? ==> r.request.role == o.role.value
    ensures r.Sent? && o.role.None? ==> ProcessRoleOptions(FlagsOf(o)) == Ok(r.request.role)
    ensures r.Sent? <==> IsNullOrEmpty(o.bulkPath) && !IsNullOrEmpty(o.id)
                         && ItemTypeFor(t, o.itemType, processType).Ok? && RoleFor(o).Ok?
    ensures (IsNullOrEmpty(o.bulkPath) && !IsNullOrEmpty(o.id) && ItemTypeFor(t, o.itemType, processType).Err?)
            ==> r == Stopped(ItemTypeFor(t, o.itemType, processType).msg)
    ensures (IsNullOrEmpty(o.bulkPath) && !IsNullOrEmpty(o.id) && ItemTypeFor(t, o.itemType, processType).Ok?
             && RoleFor(o).Err?)
            ==> r == Stopped(RoleFor(o).msg)
    ensures r.Sent? ==> r.request == RequestFor(o, o.id.value, ItemTypeFor(t, o.itemType, processType).value, RoleFor(o).value)
    ensures r.Sent? && add(r.request).Err? ==> r.shown == Err(add(r.request).msg)
    ensures r.Sent? && add(r.request).Ok? ==> r.shown == Ok(AddOutput(add(r.request).value, o.idOnly, JsonRequested(o.json, settings)))
  {
    if !IsNullOrEmpty(o.bulkPath) then
      Delegated(BulkAdd(o.bulkPath.value, t, JsonRequested(o.json, settings), o.save, o.path, o.fileFormat))
    else if RequireValue(o.id, IdRequired).Fail? then Stopped(IdRequired)
    else match ItemTypeFor(t, o.itemType, processType)
      case Err(m) => Stopped(m)
      case Ok(itemType) =>
        match RoleFor(o)
        case Err(m) => Stopped(m)
        case Ok(role) =>
          var request := RequestFor(o, o.id.value, itemType, role);
          Sent(request, match add(request)
                        case Err(m) => Err(m)
                        case Ok(c) => Ok(AddOutput(c, o.idOnly, JsonRequested(o.json, settings))))
  }

  /** `RunCreate`, building the request field by field. */
  method RunCreate(o: AddOptions, t: BoxType, settings: Settings,
                   processType: Option<string> -> Outcome<BoxType>,
                   add: CollaborationRequest -> Outcome<Collaboration>)
    returns (run: AddRun)
    ensures run == CreateCollaboration(o, t, settings, processType, add)
  {
    if o.bulkPath.Some? && o.bulkPath.value != "" {
      var json := false;
      if o.json || settings.outputJson {
        json := true;
      }
      run := Delegated(BulkAdd(o.bulkPath.value, t, json, o.save, o.path, o.fileFormat));
      return;
    }
    if o.id.None? || o.id.value == "" {
      run := Stopped(IdRequired);
      return;
    }
    var itemType := ResolveType(t, o.itemType, processType);
    if itemType.Err? {
      run := Stopped(itemType.msg);
      return;
    }
    var role := ResolveRole(o);
    if role.Err? {
      run := Stopped(role.msg);
      return;
    }
    var collabRequest := BuildRequest(o, o.id.value, itemType.value, role.value);
    var result := add(collabRequest);
    if result.Err? {
      run := Sent(collabRequest, Err(result.msg));
      return;
    }
    var shown := ShowCollaboration(result.value, o.idOnly, o.json || settings.outputJson);
    run := Sent(collabRequest, Ok(shown));
  }

  /** The item type step of `RunCreate`. */
  method ResolveType(t: BoxType, itemType: Option<string>, processType: Option<string> -> Outcome<BoxType>)
    returns (r: Outcome<BoxType>)
    ensures r == ItemTypeFor(t, itemType, processType)
  {
    if t == Enterprise {
      r := processType(itemType);
    } else {
      r := Ok(t);
    }
  }

  /** The role step of `RunCreate`. */
  method ResolveRole(o: AddOptions) returns (r: Outcome<string>)
    ensures r == RoleFor(o)
  {
    if o.role.Some? {
      r := Ok(o.role.value);
    } else {
      r := ProcessRoleOptions(FlagsOf(o));
    }
  }

  /** The request of `RunCreate`, field by field. */
  method BuildRequest(o: AddOptions, id: string, itemType: BoxType, role: string)
    returns (collabRequest: CollaborationRequest)
    ensures collabRequest == RequestFor(o, id, itemType, role)
  {
    var canViewPath: Option<bool> := None;
    if o.canViewPath {
      canViewPath := Some(true);
    }
    var accessibleBy: Option<AccessibleBy> := None;
    if o.userId.Some? {
      accessibleBy := Some(AccessibleBy(o.userId, None, User));
    } else if o.groupId.Some? {
      accessibleBy := Some(AccessibleBy(o.groupId, None, Group));
    } else if o.login.Some? {
      accessibleBy := Some(AccessibleBy(None, o.login, User));
    }
    collabRequest := CollaborationRequest(ItemRef(id, itemType), accessibleBy, role, canViewPath);
  }

  /** The output step of `RunCreate`. */
  method ShowCollaboration(c: Collaboration, idOnly: bool, json: bool) returns (shown: seq<Emit<Collaboration>>)
    ensures shown == AddOutput(c, idOnly, json)
  {
    if idOnly {
      shown := [Info(c.id)];
    } else if json {
      shown := [Json(c)];
    } else {
      shown := [Print(c)];
    }
  }

  /** Without `--role`, a command with no role flag stops with the exception
      of `First` before anything is sent. */
  lemma NoRoleStops(o: AddOptions, t: BoxType, settings: Settings,
                    processType: Option<string> -> Outcome<BoxType>,
                    add: CollaborationRequest -> Outcome<Collaboration>)
    requires IsNullOrEmpty(o.bulkPath) && !IsNullOrEmpty(o.id) && o.role.None?
    requires ItemTypeFor(t, o.itemType, processType).Ok?
    requires !o.editor && !o.viewer && !o.uploader && !o.previewerUploader && !o.viewerUploader
             && !o.coOwner && !o.previewer
    ensures CreateCollaboration(o, t, settings, processType, add) == Stopped(NoRoleSelected)
  {
    var f := FlagsOf(o);
    assert forall i :: 0 <= i < |RoleNames| ==> !RoleTable(f)[i];
  }

  /** This command can never select the owner role from its flags. */
  lemma NeverOwnerByFlags(o: AddOptions, t: BoxType, settings: Settings,
                          processType: Option<string> -> Outcome<BoxType>,
                          add: CollaborationRequest -> Outcome<Collaboration>)
    requires o.role.None?
    ensures SelectedRole(FlagsOf(o)) != Some(Owner)
  {
    OwnerNeedsOption(FlagsOf(o));
  }
}
