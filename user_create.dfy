/** `RunCreate` of BoxCLI/Commands/UserSubCommands/UserCreateCommand.cs:
    creating one enterprise user from the command line, or handing a bulk
    file to the bulk routine. */
module UserCreate {
  import opened Wrappers
  import opened Strings
  import opened CommandBase

  const NameRequired: string := "A name is required for this command."
  const LoginRequired: string := "A login is required for this command."
  const DefaultRole: string := "user"
  const CreatedUser: string := "Created user."

  /** The profile options passed through to the request unchanged. */
  datatype Profile = Profile(language: Option<string>, jobTitle: Option<string>, phoneNumber: Option<string>,
                             address: Option<string>, spaceAmount: Option<string>, status: Option<string>,
                             syncDisable: bool, syncEnable: bool,
                             isExemptFromDeviceLimits: bool, notExemptFromDeviceLimits: bool,
                             isExemptFromLoginVerification: bool, notExemptFromLoginVerification: bool,
                             isPasswordResetRequired: bool)

  /** The command's options and arguments; an option that was not given is
      `None`, a flag is `false`. */
  datatype UserOptions = UserOptions(path: Option<string>, name: Option<string>, login: Option<string>,
                                     appUser: bool, role: Option<string>, idOnly: bool, json: bool,
                                     profile: Profile)

  /** The user creation request; `isPlatformAccessOnly` is unset (`None`)
      unless the command sets it. */
  datatype UserRequest = UserRequest(name: string, role: string, login: Option<string>, profile: Profile,
                                     isPlatformAccessOnly: Option<bool>)

  /** A user the service created. */
  datatype User = User(id: string, name: string, login: Option<string>)

  /** How the command ends: it delegates to `CreateUsersFromFile` with the
      path and the JSON choice; it stops with a message before sending
      anything; or it sends its request, and the call either fails with a
      message or its result is shown. */
  datatype UserRun =
    | Delegated(path: string, json: bool)
    | Stopped(msg: string)
    | Sent(request: UserRequest, shown: Outcome<seq<Emit<User>>>)

  /** The role: the `--role` value when given, else `user`. */
  function RoleOf(role: Option<string>): (r: string)
    ensures role.Some? ==> r == role.value
    ensures role.None? ==> r == DefaultRole
  {
    if role.Some? then role.value else DefaultRole
  }

  /** How a created user is shown: its id alone, else JSON, else a success
      line followed by the printed user. */
  function UserOutput(u: User, idOnly: bool, json: bool): (r: seq<Emit<User>>)
    ensures idOnly ==> r == [Info(u.id)]
    ensures !idOnly && json ==> r == [Json(u)]
    ensures !idOnly && !json ==> r == [Success(CreatedUser), Print(u)]
  {
    if idOnly then [Info(u.id)] else if json then [Json(u)] else [Success(CreatedUser), Print(u)]
  }

  /** The request of the single-user path. */
  function RequestFor(o: UserOptions, name: string): (q: UserRequest)
    ensures q.name == name && q.login == o.login && q.profile == o.profile
    ensures q.role == RoleOf(o.role)
    ensures q.isPlatformAccessOnly == Some(true) <==> o.appUser
  {
    UserRequest(name, RoleOf(o.role), o.login, o.profile, if o.appUser then Some(true) else None)
  }

  /** The whole command. */
  function CreateUser(o: UserOptions, settings: Settings, create: UserRequest -> Outcome<User>): (r: UserRun)
    ensures r.Delegated? <==> o.path.Some?
    ensures r.Delegated? ==> r.path == o.path.value && r.json == JsonRequested(o.json, settings)
    ensures o.path.None? && IsNullOrEmpty(o.name) ==> r == Stopped(NameRequired)
    ensures o.path.None? && !IsNullOrEmpty(o.name) && !o.appUser && IsNullOrEmpty(o.login) ==> r == Stopped(LoginRequired)
    ensures r.Sent? <==> o.path.None? && !IsNullOrEmpty(o.name) && (o.appUser || !IsNullOrEmpty(o.login))
    ensures r.Sent? ==> r.request == RequestFor(o, o.name.value)
    ensures r.Sent? ==> r.shown.Ok? == create(r.request).Ok?
    ensures r.Sent? && create(r.request).Err? ==> r.shown == Err(create(r.request).msg)
    ensures r.Sent? && create(r.request).Ok? ==> r.shown == Ok(UserOutput(create(r.request).value, o.idOnly, JsonRequested(o.json, settings)))
  {
    if o.path.Some? then Delegated(o.path.value, JsonRequested(o.json, settings))
    else if RequireValue(o.name, NameRequired).Fail? then Stopped(NameRequired)
    else if !o.appUser && IsNullOrEmpty(o.login) then Stopped(LoginRequired)
    else
      var request := RequestFor(o, o.name.value);
      Sent(request, match create(request)
                    case Err(m) => Err(m)
                    case Ok(u) => Ok(UserOutput(u, o.idOnly, JsonRequested(o.json, settings))))
  }

  /** `RunCreate`: the role chosen in branches, the request built and then
      marked platform-access-only for an app user. */
  method RunCreate(o: UserOptions, settings: Settings, create: UserRequest -> Outcome<User>)
    returns (run: UserRun)
    ensures run == CreateUser(o, settings, create)
  {
    if o.path.Some? {
      var json := false;
      if o.json || settings.outputJson {
        json := true;
      }
      run := Delegated(o.path.value, json);
      return;
    }
    if o.name.None? || o.name.value == "" {
      run := Stopped(NameRequired);
      return;
    }
    if !o.appUser {
      if o.login.None? || o.login.value == "" {
        run := Stopped(LoginRequired);
        return;
      }
    }
    var role: string;
    if o.role.Some? {
      role := o.role.value;
    } else {
      role := DefaultRole;
    }
    var userRequest := UserRequest(o.name.value, role, o.login, o.profile, None);
    if o.appUser {
      userRequest := userRequest.(isPlatformAccessOnly := Some(true));
    }
    var user := create(userRequest);
    if user.Err? {
      run := Sent(userRequest, Err(user.msg));
      return;
    }
    var shown: seq<Emit<User>>;
    if o.idOnly {
      shown := [Info(user.value.id)];
    } else if o.json || settings.outputJson {
      shown := [Json(user.value)];
    } else {
      shown := [Success(CreatedUser), Print(user.value)];
    }
    run := Sent(userRequest, Ok(shown));
  }

  /** An app user needs no login: with a name and `--app-user`, the request
      is sent whatever the login, and it is marked platform-access-only. */
  lemma AppUserNeedsNoLogin(o: UserOptions, settings: Settings, create: UserRequest -> Outcome<User>)
    requires o.path.None? && !IsNullOrEmpty(o.name) && o.appUser
    ensures CreateUser(o, settings, create).Sent?
    ensures CreateUser(o, settings, create).request.isPlatformAccessOnly == Some(true)
  {
  }
}
