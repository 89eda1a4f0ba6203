/** `CreateSubCommand` of BoxCLI/Commands/SharedLinkSubCommands/FoldersSharedLinkSubCommandFactory.cs:
    the folder shared-link sub-command for a sub-command name. */
module SharedLinkFactory {
  import opened Wrappers
  import opened CommandBase

  const NotRegistered: string := "Command not registered."

  /** The shared-link commands, each for an item type. */
  datatype SharedLinkCommand =
    | SharedLinkGet(t: BoxType)
    | SharedLinkCreate(t: BoxType)
    | SharedLinkUpdate(t: BoxType)
    | SharedLinkDelete(t: BoxType)

  /** The localized sub-command name of each command. */
  function NameOf(c: SharedLinkCommand, names: Names): string {
    match c
    case SharedLinkGet(_) => names.get
    case SharedLinkCreate(_) => names.create
    case SharedLinkUpdate(_) => names.update
    case SharedLinkDelete(_) => names.delete
  }

  /** The names are compared in the order get, create, update, delete; the
      first equal one picks its command, for folders; no match throws. */
  function CreateSubCommand(names: Names, commandName: string): (r: Outcome<SharedLinkCommand>)
    ensures r.Ok? ==> r.value.t == Folder && NameOf(r.value, names) == commandName
    ensures r.Err? <==> commandName != names.get && commandName != names.create
                        && commandName != names.update && commandName != names.delete
    ensures r.Err? ==> r.msg == NotRegistered
    ensures commandName == names.get ==> r == Ok(SharedLinkGet(Folder))
    ensures commandName != names.get && commandName == names.create ==> r == Ok(SharedLinkCreate(Folder))
    ensures commandName !in {names.get, names.create} && commandName == names.update ==> r == Ok(SharedLinkUpdate(Folder))
    ensures (commandName !in {names.get, names.create, names.update} && commandName == names.delete)
            ==> r == Ok(SharedLinkDelete(Folder))
  {
    if commandName == names.get then Ok(SharedLinkGet(Folder))
    else if commandName == names.create then Ok(SharedLinkCreate(Folder))
    else if commandName == names.update then Ok(SharedLinkUpdate(Folder))
    else if commandName == names.delete then Ok(SharedLinkDelete(Folder))
    else Err(NotRegistered)
  }

  /** The four names are pairwise different. */
  predicate DistinctNames(names: Names) {
    names.get != names.create && names.get != names.update && names.get != names.delete
    && names.create != names.update && names.create != names.delete && names.update != names.delete
  }

  /** With distinct names, every folder command is produced from its own
      name. */
  lemma NameRoundTrip(c: SharedLinkCommand, names: Names)
    requires DistinctNames(names) && c.t == Folder
    ensures CreateSubCommand(names, NameOf(c, names)) == Ok(c)
  {
  }

  /** The position of each command in the order the names are compared. */
  function Rank(c: SharedLinkCommand): nat {
    match c
    case SharedLinkGet(_) => 0
    case SharedLinkCreate(_) => 1
    case SharedLinkUpdate(_) => 2
    case SharedLinkDelete(_) => 3
  }

  /** When two names coincide, the one compared first wins: the shared
      name yields the earliest command that carries it, never a later one. */
  lemma FirstMatchWins(names: Names, c: SharedLinkCommand, d: SharedLinkCommand)
    requires c.t == Folder && Rank(c) < Rank(d) && NameOf(c, names) == NameOf(d, names)
    requires forall e :: Rank(e) < Rank(c) ==> NameOf(e, names) != NameOf(c, names)
    ensures CreateSubCommand(names, NameOf(d, names)) == Ok(c)
    ensures CreateSubCommand(names, NameOf(d, names)) != Ok(d)
  {
    var earlier := [SharedLinkGet(Folder), SharedLinkCreate(Folder), SharedLinkUpdate(Folder)];
    assert forall i :: 0 <= i < Rank(c) ==> Rank(earlier[i]) == i && NameOf(earlier[i], names) != NameOf(c, names);
  }
}
