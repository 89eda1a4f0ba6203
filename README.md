# BoxCLI command core, modelled in Dafny

This project models the decision-making inside the Box command-line
client's commands. That client is glue around the Box content-management
SDK. The model covers:

- the bulk-from-file executors: folder create and update, metadata add, and
  collaboration add. Each reads records from a CSV or JSON file and sends
  them one by one to the service. It keeps the successes when a report is
  requested and writes a report named after the command;
- the metadata key/value parser (`key=value&key=3.5f`) and the interactive
  metadata builder, which is driven by a sequence of input lines;
- collaboration role selection and request construction;
- the validation and request building of `users create` and
  `task-assignments create`;
- the message formatting and stream choice of the console reporter;
- the dispatch of folder shared-link sub-command names.

Remote calls, file reading, report writing and path translation are
function-typed parameters. Each returns an `Outcome` (`Ok(value)` or
`Err(message)`), and a C# exception becomes an `Err`. The console is a
trace of `Emit` events: information, success and error lines, JSON output,
printed entities, and the call of the report writer (recorded before its
outcome is known; a failed write adds an error line). The reporter settings, the
command settings and the timestamp are also parameters.

Where the code has a loop or builds a value step by step, it is a `method`
with loop invariants. The method's `ensures` ties its result to a
specification function. The lemmas about that function state what the
command promises.

Modules, one per source file plus shared helpers:

- `Wrappers`: `Option`, `Outcome`, `Check`.
- `Strings`: .NET `Split` (keeping empty pieces), `Join`, and ASCII `ToLower`.
- `Decimals`: `Decimal.Parse` in the invariant culture, with mantissa and scale.
- `Reporter`: `Reporter.cs`.
- `CommandBase`: the event trace, the settings, the localized command names,
  and `CheckForValue`.
- `Batch`: save gating, the report plan, and per-record isolation, shared by
  the bulk commands.
- `FolderCommands`: `FolderSubCommandBase.cs`.
- `MetadataValues`, `MetadataConsole` and `MetadataBatch`:
  `MetadataSubCommandBase.cs`.
- `CollaborationBase`: `CollaborationSubCommandBase.cs`.
- `CollaborationAdd`: `CollaborationAddCommand.cs`.
- `UserCreate`: `UserCreateCommand.cs`.
- `TaskAssignmentCreate`: `TaskAssignmentCreateCommand.cs`.
- `SharedLinkFactory`: `FoldersSharedLinkSubCommandFactory.cs`.

## Model

| member | source | states |
|---|---|---|
| Reporter.Colorize | BoxCLI/CommandUtilities/Reporter.cs:12-13 | With NoColor the value is returned unchanged; otherwise the supplied wrapper is applied to it |
| Reporter.Prefix | BoxCLI/CommandUtilities/Reporter.cs:33-38 | With PrefixOutput off, Prefix is the identity |
| Reporter.PrefixLines | BoxCLI/CommandUtilities/Reporter.cs:37 | Every line gets the prefix in front, and the number of lines is kept |
| Reporter.PrefixStrip | BoxCLI/CommandUtilities/Reporter.cs:33-38 | With PrefixOutput on, the output is the newline-join of the prefixed lines. There are as many of them as the input has lines, and each one starts with the prefix. Removing the prefix from every line and re-joining gives back the original value |
| Reporter.PrefixKeepsLines | BoxCLI/CommandUtilities/Reporter.cs:33-38 | For a one-character newline that is not in the prefix, splitting the prefixed text gives exactly the prefixed input lines, so the line count is kept |
| Reporter.NoColorIsPlain | BoxCLI/CommandUtilities/Reporter.cs:15-31 | Under NoColor, every writer's text is `Prefix` applied to its tag and the uncoloured message, so the tag starts each line only when PrefixOutput is on (it is off by default) |
| Reporter.InformationUncoloured | BoxCLI/CommandUtilities/Reporter.cs:27-28 | WriteInformation never colours its message; its text is `Prefix` applied to the `info:    ` tag and the raw message |
| Reporter.ColouredText | BoxCLI/CommandUtilities/Reporter.cs:15-31 | With colour on and no prefixing, a non-information writer emits bold + its level's colour + message + reset |
| Reporter.StreamChoice | BoxCLI/CommandUtilities/Reporter.cs:19-69 | Under NoColor, error lines go to standard output and every other line to standard error (the inverted mapping). With colour, the ANSI console is used, flagged as an error only for WriteError |
| Reporter.EndOfLine | BoxCLI/CommandUtilities/Reporter.cs:24-25 | Only WriteWarningNoNewLine omits the end of line |
| Strings.JoinSplit | BoxCLI/CommandUtilities/Reporter.cs:35-37 | Joining the .NET Split of a string on the same separator gives back the string |
| Strings.SplitJoin | BoxCLI/Commands/MetadataSubCommands/MetadataSubCommandBase.cs:56-60 | Splitting on a character the pieces do not contain gives back the pieces that were joined |
| Strings.SplitPieces | BoxCLI/Commands/MetadataSubCommands/MetadataSubCommandBase.cs:56-60 | No piece of a split contains the separator |
| Strings.Lower | BoxCLI/Commands/CollaborationSubCommands/CollaborationSubCommandBase.cs:91 | ToLower keeps the length and maps each upper-case ASCII letter to its lower-case letter, leaving other characters alone |
| Decimals.ParseFormat | BoxCLI/Commands/MetadataSubCommands/MetadataSubCommandBase.cs:69 | Decimal.Parse of the invariant-culture text of a decimal gives back that decimal, scale included |
| CommandBase.RequireValue | BoxCLI/Commands/UserSubCommands/UserCreateCommand.cs:93 | CheckForValue fails exactly when the value is null or empty, and then with the given message |
| Batch.Override | BoxCLI/Commands/FolderSubCommands/FolderSubCommandBase.cs:141-150 | A non-empty override beats the configured value |
| Batch.ResolvePlan | BoxCLI/Commands/FolderSubCommands/FolderSubCommandBase.cs:141-151 | The report format is the override format if non-empty, else the configured one. The folder is the override path if non-empty, else the configured folder. The file name is `command-subcommand-timestamp` |
| Batch.InputPath | BoxCLI/Commands/FolderSubCommands/FolderSubCommandBase.cs:102-105 | The path is translated only when it is non-empty |
| Batch.ReportPlanFor | BoxCLI/Commands/FolderSubCommands/FolderSubCommandBase.cs:141-151 | Overwriting format and folder step by step yields ResolvePlan |
| Batch.WriteReport | BoxCLI/Commands/FolderSubCommands/FolderSubCommandBase.cs:152-158 | The report writer is called with the saved rows, and a failed write adds one error line |
| Batch.EmitRecord | BoxCLI/Commands/FolderSubCommands/FolderSubCommandBase.cs:125-137 | A record's errors are shown, then its success (JSON or printed); the success is kept only when saving |
| Batch.ReportEventsShape | BoxCLI/Commands/FolderSubCommands/FolderSubCommandBase.cs:139-158 | No report without saving; with saving, the report alone, or the report followed by the write error |
| Batch.SavedIsSuccesses | BoxCLI/Commands/FolderSubCommands/FolderSubCommandBase.cs:130-137 | The saved list is exactly the successes in input order when the save condition holds, and empty otherwise |
| Batch.RunSplit | BoxCLI/Commands/FolderSubCommands/FolderSubCommandBase.cs:111-138 | Per-record isolation: the loop over `a + b` shows and saves what the loop over `a`, then the loop over `b`, would |
| Batch.RunHasNoReport | BoxCLI/Commands/FolderSubCommands/FolderSubCommandBase.cs:111-138 | The record loop itself never calls the report writer |
| Batch.ReportIffRequested | BoxCLI/Commands/FolderSubCommands/FolderSubCommandBase.cs:139-153 | The report writer is called if and only if the save condition holds, even when nothing succeeded. The call comes right after the record loop and carries all the successes |
| Batch.ReadFailure | BoxCLI/Commands/FolderSubCommands/FolderSubCommandBase.cs:106-108 | A failed read is one error line: no record is processed and the report writer is not called |
| Batch.SuccessesConcat | BoxCLI/Commands/FolderSubCommands/FolderSubCommandBase.cs:130-137 | The successes of two runs in a row are those of the first, then those of the second |
| Batch.SkipFailure | BoxCLI/Commands/FolderSubCommands/FolderSubCommandBase.cs:125-137 | A failing record adds nothing to the successes: they are those before it, then those after it |
| Batch.OneFailure | BoxCLI/Commands/FolderSubCommands/FolderSubCommandBase.cs:125-137 | One failing record among successes loses only that record. The successes are the values of the records before it, then of those after it, in input order |
| Batch.SavedAllSucceed | BoxCLI/Commands/FolderSubCommands/FolderSubCommandBase.cs:130-137 | When every record succeeds, the saved rows are every result, in order |
| Batch.AllSucceed | BoxCLI/Commands/FolderSubCommands/FolderSubCommandBase.cs:130-137 | When every record succeeds, the successes are every record's value, in input order |
| FolderCommands.DescriptionUpdate | BoxCLI/Commands/FolderSubCommands/FolderSubCommandBase.cs:117-121 | The second request carries the created folder's id and the description only |
| FolderCommands.CreateOne | BoxCLI/Commands/FolderSubCommands/FolderSubCommandBase.cs:113-129 | A record counts as created exactly when the create call succeeds, whatever happens to the description update |
| FolderCommands.CreateOneCases | BoxCLI/Commands/FolderSubCommands/FolderSubCommandBase.cs:113-129 | A failed create gives "Couldn't create folder..." and its message. Without a description, the created folder is kept. With one, the update's result is kept if it succeeds; otherwise the created folder is still kept and the update's error is shown |
| FolderCommands.UpdateOne | BoxCLI/Commands/FolderSubCommands/FolderSubCommandBase.cs:176-185 | An update succeeds or is reported with "Couldn't update folder..." and its message, and the record is skipped |
| FolderCommands.CreateResults | BoxCLI/Commands/FolderSubCommands/FolderSubCommandBase.cs:111-129 | One independent result per record, in input order |
| FolderCommands.UpdateResults | BoxCLI/Commands/FolderSubCommands/FolderSubCommandBase.cs:174-185 | One independent result per record, in input order |
| FolderCommands.CreateRecord | BoxCLI/Commands/FolderSubCommands/FolderSubCommandBase.cs:113-129 | The loop body's create and description update yield CreateOne |
| FolderCommands.UpdateRecord | BoxCLI/Commands/FolderSubCommands/FolderSubCommandBase.cs:176-185 | The loop body's update yields UpdateOne |
| FolderCommands.CreateRecords | BoxCLI/Commands/FolderSubCommands/FolderSubCommandBase.cs:111-138 | The create loop shows every record's effects in order and saves the successes when asked |
| FolderCommands.UpdateRecords | BoxCLI/Commands/FolderSubCommands/FolderSubCommandBase.cs:174-194 | The update loop shows every record's effects in order and saves the successes when asked |
| FolderCommands.CreateFoldersFromFile | BoxCLI/Commands/FolderSubCommands/FolderSubCommandBase.cs:98-159 | The whole command is the isolated batch over the records read, with the `Folders-Create-timestamp` report plan |
| FolderCommands.UpdateFoldersFromFile | BoxCLI/Commands/FolderSubCommands/FolderSubCommandBase.cs:161-215 | The whole command is the isolated batch over the records read, with the `Folders-Update-timestamp` report plan |
| FolderCommands.CreateOneFailure | BoxCLI/Commands/FolderSubCommands/FolderSubCommandBase.cs:111-153 | One failing create among successes loses only that folder. The report carries every other record's folder, in input order |
| MetadataValues.CheckForScope | BoxCLI/Commands/MetadataSubCommands/MetadataSubCommandBase.cs:36-43 | Fails exactly when the scope is null or empty, with the scope message |
| MetadataValues.CheckForTemplate | BoxCLI/Commands/MetadataSubCommands/MetadataSubCommandBase.cs:45-52 | Fails exactly when the template is null or empty, with the template message |
| MetadataValues.Add | BoxCLI/Commands/MetadataSubCommands/MetadataSubCommandBase.cs:69-73 | Dictionary.Add appends a new key and fails with the duplicate-key message on a key already present |
| MetadataValues.AddKeepsDistinct | BoxCLI/Commands/MetadataSubCommands/MetadataSubCommandBase.cs:69-73 | A successful add keeps the keys distinct |
| MetadataValues.ConvertValue | BoxCLI/Commands/MetadataSubCommands/MetadataSubCommandBase.cs:65-74 | A value matching the float pattern becomes the decimal of its text without the trailing `f` and fails when that does not parse. Any other value stays text |
| MetadataValues.AddKeyValue | BoxCLI/Commands/MetadataSubCommands/MetadataSubCommandBase.cs:60-75 | One loop step adds a well-formed `k=v` piece and ignores any other piece |
| MetadataValues.MetadataKeyValuesFromCommandOption | BoxCLI/Commands/MetadataSubCommands/MetadataSubCommandBase.cs:54-78 | The loop over the `&` pieces yields the specification parse |
| MetadataValues.StopsAtError | BoxCLI/Commands/MetadataSubCommands/MetadataSubCommandBase.cs:58-76 | Once an add throws, the rest of the option is never looked at |
| MetadataValues.ParseSound | BoxCLI/Commands/MetadataSubCommands/MetadataSubCommandBase.cs:54-78 | A successful parse holds exactly the well-formed pairs, converted, with distinct keys |
| MetadataValues.ParseComplete | BoxCLI/Commands/MetadataSubCommands/MetadataSubCommandBase.cs:54-78 | Distinct keys whose values all convert always parse |
| MetadataValues.ParseSucceedsIff | BoxCLI/Commands/MetadataSubCommands/MetadataSubCommandBase.cs:54-78 | The parse succeeds if and only if the well-formed pairs have distinct keys and convertible values. It then holds exactly those pairs |
| MetadataValues.MalformedPieceSkipped | BoxCLI/Commands/MetadataSubCommands/MetadataSubCommandBase.cs:60-61 | A piece that does not split on `=` into two parts is silently dropped |
| MetadataValues.SinglePair | BoxCLI/Commands/MetadataSubCommands/MetadataSubCommandBase.cs:56-74 | `key=value` parses to the single entry of the converted value |
| MetadataValues.FloatWithoutDigits | BoxCLI/Commands/MetadataSubCommands/MetadataSubCommandBase.cs:65-69 | `k=f` and `k=.f` match the pattern but fail with the format error |
| MetadataValues.FloatBeforeNewline | BoxCLI/Commands/MetadataSubCommands/MetadataSubCommandBase.cs:65-69 | The .NET `$` lets `digits` + `f` + newline match; the parse of what remains then fails |
| MetadataValues.DecimalRoundTrip | BoxCLI/Commands/MetadataSubCommands/MetadataSubCommandBase.cs:65-69 | A non-negative decimal written out with an `f` reads back as that decimal |
| MetadataValues.PlainText | BoxCLI/Commands/MetadataSubCommands/MetadataSubCommandBase.cs:71-74 | A value not ending in `f` (or `f` and a newline) is stored as the unchanged string |
| MetadataConsole.ReadLine | BoxCLI/Commands/MetadataSubCommands/MetadataSubCommandBase.cs:97-112 | Console.ReadLine gives the next input line, or null when the input is exhausted |
| MetadataConsole.Listing | BoxCLI/Commands/MetadataSubCommands/MetadataSubCommandBase.cs:91-94 | One `Key: k - Value: v` line per entry of the current metadata, in insertion order |
| MetadataConsole.AddKey | BoxCLI/Commands/MetadataSubCommands/MetadataSubCommandBase.cs:103-110 | A null key throws; any other key goes through Dictionary.Add |
| MetadataConsole.QuitsIsLowerQ | BoxCLI/Commands/MetadataSubCommands/MetadataSubCommandBase.cs:112-114 | The loop stops exactly on an answer that lower-cases to `q` |
| MetadataConsole.AnswerQuits | BoxCLI/Commands/MetadataSubCommands/MetadataSubCommandBase.cs:112-114 | Computes `answer.ToLower() == "q"` and returns true exactly when the answer quits |
| MetadataConsole.Round | BoxCLI/Commands/MetadataSubCommands/MetadataSubCommandBase.cs:86-114 | A round continues only after a non-quitting answer, and finishes successfully only after a quitting one |
| MetadataConsole.ShowCurrent | BoxCLI/Commands/MetadataSubCommands/MetadataSubCommandBase.cs:88-95 | The listing loop emits the current metadata, only when it is non-empty |
| MetadataConsole.AskRound | BoxCLI/Commands/MetadataSubCommands/MetadataSubCommandBase.cs:96-110 | The three prompts are shown and the round's entry is added from the next three lines |
| MetadataConsole.PlayRound | BoxCLI/Commands/MetadataSubCommands/MetadataSubCommandBase.cs:86-114 | One iteration of the do-while loop yields Round |
| MetadataConsole.MetadataKeyValuesFromConsole | BoxCLI/Commands/MetadataSubCommands/MetadataSubCommandBase.cs:80-117 | The whole do-while loop yields the specification builder's trace and result |
| MetadataConsole.StopEnds | BoxCLI/Commands/MetadataSubCommands/MetadataSubCommandBase.cs:114-116 | A round that stops ends the session with that round's events and result |
| MetadataConsole.NextContinues | BoxCLI/Commands/MetadataSubCommands/MetadataSubCommandBase.cs:86-116 | A round that continues leaves the rest of the session to the rounds from the next four lines, after its own events |
| MetadataConsole.RoundValue | BoxCLI/Commands/MetadataSubCommands/MetadataSubCommandBase.cs:100-110 | A value is stored as a decimal only when the float answer is exactly `y`; otherwise it is stored as the string |
| MetadataConsole.NoQuitFails | BoxCLI/Commands/MetadataSubCommands/MetadataSubCommandBase.cs:86-114 | Input without a quitting answer never finishes building |
| MetadataConsole.RoundIsLocal | BoxCLI/Commands/MetadataSubCommands/MetadataSubCommandBase.cs:96-112 | A round reads only its own four lines |
| MetadataConsole.FinishedIgnoresRest | BoxCLI/Commands/MetadataSubCommands/MetadataSubCommandBase.cs:114-116 | After the quitting round, further input is never read |
| MetadataConsole.ScriptBuilds | BoxCLI/Commands/MetadataSubCommands/MetadataSubCommandBase.cs:86-116 | Answering the prompts with a list of fresh entries builds exactly those entries in order |
| MetadataConsole.BuilderRoundTrip | BoxCLI/Commands/MetadataSubCommands/MetadataSubCommandBase.cs:80-117 | Any non-empty metadata with distinct keys and enterable values is built from its own script |
| MetadataBatch.FirstUntyped | BoxCLI/Commands/MetadataSubCommands/MetadataSubCommandBase.cs:172-182 | The index of the first request without an item type; every request before it has one |
| MetadataBatch.CreateMetadata | BoxCLI/Commands/MetadataSubCommands/MetadataSubCommandBase.cs:185-196 | `file` goes to the file call and `folder` to the folder call. Any other type fails with "Metadata currently only supported on files and folders." |
| MetadataBatch.AddOne | BoxCLI/Commands/MetadataSubCommands/MetadataSubCommandBase.cs:183-217 | A record is saved exactly when its create call succeeds. The saved row copies the request with the created metadata. A failure shows "Couldn't add metadata..." and its message |
| MetadataBatch.AddResults | BoxCLI/Commands/MetadataSubCommands/MetadataSubCommandBase.cs:172-218 | One independent result per typed request, in input order |
| MetadataBatch.PrintMetadata | BoxCLI/Commands/MetadataSubCommands/MetadataSubCommandBase.cs:126-144 | JSON output, else one `key: value` line per entry in order |
| MetadataBatch.AddRecord | BoxCLI/Commands/MetadataSubCommands/MetadataSubCommandBase.cs:183-202 | The loop body's dispatch and catch yield AddOne |
| MetadataBatch.ShowRecord | BoxCLI/Commands/MetadataSubCommands/MetadataSubCommandBase.cs:203-217 | The error lines, then the printed metadata; the row is kept only when saving |
| MetadataBatch.AddRecords | BoxCLI/Commands/MetadataSubCommands/MetadataSubCommandBase.cs:172-218 | The loop processes the requests before the first untyped one. An untyped request aborts it with "Must have a Box Item type of file or folder" |
| MetadataBatch.AddMetadataToItemFromFile | BoxCLI/Commands/MetadataSubCommands/MetadataSubCommandBase.cs:159-239 | The whole command is the specification run over the records read, with the `Metadata-Create-timestamp` report plan |
| MetadataBatch.MetadataRunHasNoReport | BoxCLI/Commands/MetadataSubCommands/MetadataSubCommandBase.cs:172-218 | The record loop never calls the report writer |
| MetadataBatch.MetadataRunSplit | BoxCLI/Commands/MetadataSubCommands/MetadataSubCommandBase.cs:183-217 | Per-record isolation of the typed requests: the loop over `a + b` is the loop over `a`, then over `b` |
| MetadataBatch.UnsupportedTypeRefused | BoxCLI/Commands/MetadataSubCommands/MetadataSubCommandBase.cs:185-202 | A type other than file or folder is a per-record failure with two error lines, and nothing is saved |
| MetadataBatch.UntypedAborts | BoxCLI/Commands/MetadataSubCommands/MetadataSubCommandBase.cs:175-182 | An untyped request aborts the batch: later records are never processed, the last line is the error, and the report writer is not called |
| MetadataBatch.TypedReportIffRequested | BoxCLI/Commands/MetadataSubCommands/MetadataSubCommandBase.cs:219-233 | With every request typed, the report writer is called if and only if saving. The call comes right after the loop and carries the successes |
| MetadataBatch.SavedRowsCopyRequests | BoxCLI/Commands/MetadataSubCommands/MetadataSubCommandBase.cs:206-216 | Each saved row copies TemplateKey, Scope, ItemId and ItemType from its request and Metadata from the response |
| CollaborationBase.RoleTable | BoxCLI/Commands/CollaborationSubCommands/CollaborationSubCommandBase.cs:79-89 | The role table in its fixed order; the owner entry is set only when an owner option is given and set |
| CollaborationBase.FirstSet | BoxCLI/Commands/CollaborationSubCommands/CollaborationSubCommandBase.cs:90 | The first set flag: none before it is set |
| CollaborationBase.SelectedRole | BoxCLI/Commands/CollaborationSubCommands/CollaborationSubCommandBase.cs:79-90 | The role of the first set flag in table order; none exactly when no flag is set |
| CollaborationBase.ProcessRoleOptions | BoxCLI/Commands/CollaborationSubCommands/CollaborationSubCommandBase.cs:70-92 | Fails with First's exception exactly when no flag is set; otherwise the lower-cased name of the first set role |
| CollaborationBase.RoleTableIsChain | BoxCLI/Commands/CollaborationSubCommands/CollaborationSubCommandBase.cs:79-90 | Table selection equals the if-chain editor, viewer, uploader, previewer uploader, viewer uploader, co-owner, owner, previewer |
| CollaborationBase.OwnerNeedsOption | BoxCLI/Commands/CollaborationSubCommands/CollaborationSubCommandBase.cs:74-78 | Owner is chosen only when the owner option is supplied and set |
| CollaborationBase.Retype | BoxCLI/Commands/CollaborationSubCommands/CollaborationSubCommandBase.cs:44-47 | The always-true type test overwrites every request's item type with the command's type, leaving the rest unchanged |
| CollaborationBase.RetypeRequest | BoxCLI/Commands/CollaborationSubCommands/CollaborationSubCommandBase.cs:44-47 | The in-loop test and assignment yield Retype |
| CollaborationBase.AddCollaborations | BoxCLI/Commands/CollaborationSubCommands/CollaborationSubCommandBase.cs:42-55 | The loop adds and prints each retyped request until the first failure, which is reported once |
| CollaborationBase.ProcessCollaborationsFromFile | BoxCLI/Commands/CollaborationSubCommands/CollaborationSubCommandBase.cs:32-56 | The whole command: a failed read is one error line, otherwise the add loop over the records read |
| CollaborationBase.AddAllStep | BoxCLI/Commands/CollaborationSubCommands/CollaborationSubCommandBase.cs:42-55 | A success is shown and the loop goes on; a failure ends the run with its one error line |
| CollaborationBase.FirstFailureAborts | BoxCLI/Commands/CollaborationSubCommands/CollaborationSubCommandBase.cs:39-55 | No per-record isolation: the first failing add shows the earlier successes, then one error. Later records are never sent |
| CollaborationBase.AllAddedInOrder | BoxCLI/Commands/CollaborationSubCommands/CollaborationSubCommandBase.cs:42-50 | When every add succeeds, the collaborations are shown in file order |
| CollaborationBase.BulkHasNoReport | BoxCLI/Commands/CollaborationSubCommands/CollaborationSubCommandBase.cs:32-56 | Bulk collaboration processing never calls the report writer |
| CollaborationAdd.FlagsOf | BoxCLI/Commands/CollaborationSubCommands/CollaborationAddCommand.cs:120-123 | This command passes no owner option |
| CollaborationAdd.RoleFor | BoxCLI/Commands/CollaborationSubCommands/CollaborationAddCommand.cs:113-124 | An explicit `--role` wins over the role flags |
| CollaborationAdd.Accessible | BoxCLI/Commands/CollaborationSubCommands/CollaborationAddCommand.cs:131-154 | User id (type user), then group id (type group), then login (type user); unset when none is given. Exactly one of id and login is set |
| CollaborationAdd.ItemTypeFor | BoxCLI/Commands/CollaborationSubCommands/CollaborationAddCommand.cs:104-112 | The type argument is parsed only by the enterprise-scoped command; otherwise the command's own type is used |
| CollaborationAdd.AddOutput | BoxCLI/Commands/CollaborationSubCommands/CollaborationAddCommand.cs:160-170 | Id-only beats JSON, and JSON beats the printed collaboration |
| CollaborationAdd.RequestFor | BoxCLI/Commands/CollaborationSubCommands/CollaborationAddCommand.cs:125-158 | The item is the id and type, plus the role and accessible-by. CanViewPath is true only when its flag is present |
| CollaborationAdd.CreateCollaboration | BoxCLI/Commands/CollaborationSubCommands/CollaborationAddCommand.cs:87-171 | A non-empty bulk path delegates and sends nothing. Without one, a missing id stops the command. A request is sent exactly when the id is given, the item type resolves (`ProcessType` in the enterprise scope, the command's own type otherwise) and a role is chosen. A failing type or role stops the command with that message. The sent request is `RequestFor`: the item, the accessible-by party (user id, else group id, else login), the role and `canViewPath` when flagged. A failed call carries its message; a successful one is shown as `AddOutput` (the id alone, else JSON, else the print) |
| CollaborationAdd.RunCreate | BoxCLI/Commands/CollaborationSubCommands/CollaborationAddCommand.cs:87-171 | Building the request field by field yields CreateCollaboration |
| CollaborationAdd.ResolveType | BoxCLI/Commands/CollaborationSubCommands/CollaborationAddCommand.cs:104-112 | The branch on the command type yields ItemTypeFor |
| CollaborationAdd.ResolveRole | BoxCLI/Commands/CollaborationSubCommands/CollaborationAddCommand.cs:113-124 | The branch on `--role` yields RoleFor |
| CollaborationAdd.BuildRequest | BoxCLI/Commands/CollaborationSubCommands/CollaborationAddCommand.cs:125-158 | The successive field assignments yield RequestFor |
| CollaborationAdd.ShowCollaboration | BoxCLI/Commands/CollaborationSubCommands/CollaborationAddCommand.cs:160-170 | The early returns yield AddOutput |
| CollaborationAdd.NoRoleStops | BoxCLI/Commands/CollaborationSubCommands/CollaborationAddCommand.cs:113-124 | Without `--role` and with no role flag, the command stops before sending anything |
| CollaborationAdd.NeverOwnerByFlags | BoxCLI/Commands/CollaborationSubCommands/CollaborationAddCommand.cs:120-123 | This command can never select the owner role from its flags |
| UserCreate.RoleOf | BoxCLI/Commands/UserSubCommands/UserCreateCommand.cs:101-109 | The `--role` value if given, else `user` |
| UserCreate.UserOutput | BoxCLI/Commands/UserSubCommands/UserCreateCommand.cs:125-136 | Id-only beats JSON, and JSON beats the success line plus print |
| UserCreate.RequestFor | BoxCLI/Commands/UserSubCommands/UserCreateCommand.cs:110-123 | The request carries the name, login, profile and role. It is platform-access-only exactly for an app user |
| UserCreate.CreateUser | BoxCLI/Commands/UserSubCommands/UserCreateCommand.cs:80-137 | A bulk path delegates. Otherwise a missing name, then (for a non-app user) a missing login, stops the command. A request is sent exactly when neither happens, and it is `RequestFor`. A failed call carries its message; a created user is shown as `UserOutput`: the id alone, else JSON, else "Created user." and the print |
| UserCreate.RunCreate | BoxCLI/Commands/UserSubCommands/UserCreateCommand.cs:80-137 | The branches, and the flag set after construction, yield CreateUser |
| UserCreate.AppUserNeedsNoLogin | BoxCLI/Commands/UserSubCommands/UserCreateCommand.cs:94-123 | An app user with a name is always sent, whatever the login, and is marked platform-access-only |
| TaskAssignmentCreate.Assignee | BoxCLI/Commands/TaskAssignmentsSubCommands/TaskAssignmentCreateCommand.cs:61-69 | Exactly one of id and login is set; the user id wins |
| TaskAssignmentCreate.AssignOutput | BoxCLI/Commands/TaskAssignmentsSubCommands/TaskAssignmentCreateCommand.cs:71-77 | JSON when requested, else the success line plus print |
| TaskAssignmentCreate.CreateAssignment | BoxCLI/Commands/TaskAssignmentsSubCommands/TaskAssignmentCreateCommand.cs:48-78 | A missing task id stops the command. With no assignee, an error line is printed and the command returns without sending. A request is sent exactly otherwise, carrying the task id and the assignee. A failed call carries its message; a created assignment is shown as `AssignOutput`: JSON, else "Created task assignment." and the print |
| TaskAssignmentCreate.RunCreate | BoxCLI/Commands/TaskAssignmentsSubCommands/TaskAssignmentCreateCommand.cs:48-78 | The step-by-step request building yields CreateAssignment |
| TaskAssignmentCreate.UserIdWins | BoxCLI/Commands/TaskAssignmentsSubCommands/TaskAssignmentCreateCommand.cs:61-69 | Given both, the user id is sent and the login is not |
| SharedLinkFactory.CreateSubCommand | BoxCLI/Commands/SharedLinkSubCommands/FoldersSharedLinkSubCommandFactory.cs:14-36 | Each command produced has the folder type and the name asked for. Each name yields its command unless an earlier name in the order get, create, update, delete is equal. An unknown name fails with "Command not registered." |
| SharedLinkFactory.NameRoundTrip | BoxCLI/Commands/SharedLinkSubCommands/FoldersSharedLinkSubCommandFactory.cs:16-31 | With distinct names, every folder shared-link command comes from its own name |
| SharedLinkFactory.FirstMatchWins | BoxCLI/Commands/SharedLinkSubCommands/FoldersSharedLinkSubCommandFactory.cs:16-31 | Whenever two of the four names coincide, the shared name yields the command compared first (get, create, update, delete), never the later one |

## Left out

- `UploadFolder` (FolderSubCommandBase.cs:85-96): its point is concurrency (`Parallel.ForEach`, `Task.WhenAll`), which is not modelled.
- SDK calls, CSV/JSON reading, report writers, `OutputJson`, `GeneralUtilities.TranslatePath`: these are function parameters returning `Outcome`, because their code is not part of this model.
- `ConfigureBoxClient`, as-user and one-use-token handling, and `ProcessFields` with the `fields` argument: remote-client setup with no effect on the modelled decisions.
- Console and ANSI output and the `Print*` renderers: only the stream choice and the text are modelled. A printed entity is the event `Print(entity)`.
- `Reporter` colours (`Bold`, `Green`, …): these are a `Palette` parameter, so their escape codes are not fixed.
- The list and paging commands and the thin single-call commands (file rename, user move-root-content, task update, group get, group-membership get, shared-link get): they have no logic beyond one remote call and printing.
- `Configure` methods, option registration, and `ShowHelp`: these are command-line framework plumbing.
- `DateTime.Now` in report names: the formatted timestamp is a string parameter.
- `ProcessMetadataTemplates` (MetadataSubCommandBase.cs:242-303) is commented out in the source.
- `CheckForValue`: its body is not part of this model. It is assumed to stop the command with its message, as the `Stopped` outcomes show.
- `ProcessType`: this is a function parameter, because its body is not part of this model.
- `ProcessAddCollaborationsFromFile` and `CreateUsersFromFile` are not part of this model. The bulk branches of `CollaborationAdd.RunCreate` and `UserCreate.RunCreate` only record the delegation and its arguments. CollaborationAdd.BulkAdd omits the command name and fields arguments.
- `CollaborationBase.ProcessCollaborationsFromFile`: its `id` and `t` parameters are never used by the source. The retyping uses the command's own type (`this._t`), which is passed as `commandType`.
- CollaborationBase.Retype: the in-place update of `Item.Type` on the request objects read is modelled on values. Aliasing of those objects is not captured.
- MetadataBatch.AddMetadataToItemFromFile: its `type` parameter is overwritten from each record before use. The model drops it.
- MetadataBatch.AddOne: a service call that returns a null dictionary without throwing is not modelled; a successful call always yields metadata.
- Decimals.Parse: accepts one optional leading `-` or `+`, then digits with at most one `.`, and nothing more. The default number style of `Decimal.Parse` also accepts thousands separators (`1,000` is 1000), a trailing sign (`5-` is -5), and leading or trailing whitespace. The model refuses these, so in the console builder such a value with the answer `y` fails where the source stores a number; the option parser is unaffected, because its pattern admits only digits and `.`. Culture settings, the 28-digit range limit and the rounding of `System.Decimal` are not modelled either.
- Strings.Lower: ASCII case mapping only; culture-specific and non-ASCII case folding is not modelled.
- The exception messages of `Dictionary.Add`, `Decimal.Parse`, `Enumerable.First` and a null dictionary key are fixed strings. The runtime's exact texts are not part of this model.
- The role name strings of `BoxCollaborationRoles` belong to the SDK, which is not part of this model. Their values are fixed constants in `CollaborationBase`.
- A `null` line from `Console.ReadLine` is modelled as end of input (`None`). Calling `ToLower` on it throws, so the builder fails.
