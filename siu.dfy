/** Login against the SIU identity provider (`SIUAuthService`) and the SIU
    user directory (`SIUUserService`). A successful provider login is matched
    to a local Planifika user by subject id; a subject without a local user
    is looked up in the SIU directory and provisioned locally. */
module Siu {
  import opened Common
  import opened Uuids
  import opened Tables
  import opened UserRecords
  import opened Users

  /** A row of the SIU `usersiu` table. */
  datatype UserSIU = UserSIU(
    idUserSIU: Option<int>,
    name: Option<string>,
    photoUrl: Option<string>,
    supabaseUserId: Option<Uuid>)

  /** What `externalLogin` emits: the `user` and `access_token` entries of its map. */
  datatype Login = Login(user: UserPlanifika, accessToken: Option<string>)

  /** The two facts `externalLogin` reads out of the provider's token reply. */
  datatype Credentials = Credentials(accessToken: Option<string>, subject: Uuid)

  function SiuNotFoundMessage(id: Uuid): string {
    "Usuario no encontrado con supabaseUserId: " + ToString(id)
  }

  /** `SIUUserService.findBySupabaseId(id)`: the one directory entry with that
      subject id; `EntityNotFoundException` when there is none, and the
      repository's `IncorrectResultSizeDataAccessException` when there are two. */
  function FindBySupabaseId(directory: seq<UserSIU>, id: Uuid): (r: Result<UserSIU>)
    ensures r.Ok? ==> r.value in directory && r.value.supabaseUserId == Some(id)
    ensures r.Ok? ==> forall i :: 0 <= i < |directory| && directory[i].supabaseUserId == Some(id) ==> directory[i] == r.value
    ensures r == Err(Error(NotFound, SiuNotFoundMessage(id))) <==>
      forall i :: 0 <= i < |directory| ==> directory[i].supabaseUserId != Some(id)
    ensures r == Err(Error(IncorrectResultSize, "")) <==>
      exists i, j :: 0 <= i < j < |directory| && directory[i].supabaseUserId == Some(id) && directory[j].supabaseUserId == Some(id)
    ensures r.Err? ==> r == Err(Error(NotFound, SiuNotFoundMessage(id))) || r == Err(Error(IncorrectResultSize, ""))
  {
    match SingleResult(directory, (u: UserSIU) => u.supabaseUserId == Some(id))
    case Err(e) => Err(e)
    case Ok(None) => Err(Error(NotFound, SiuNotFoundMessage(id)))
    case Ok(Some(u)) => Ok(u)
  }

  /** The not-found message names the subject id it looked for, so two
      different subjects never produce the same message. */
  lemma {:induction false} SiuNotFoundMessageNamesSubject(a: Uuid, b: Uuid)
    requires SiuNotFoundMessage(a) == SiuNotFoundMessage(b)
    ensures a == b
  {
    var prefix := "Usuario no encontrado con supabaseUserId: ";
    assert ToString(a) == SiuNotFoundMessage(a)[|prefix|..];
    assert ToString(b) == SiuNotFoundMessage(b)[|prefix|..];
    ToStringInjective(a, b);
  }

  /** `SIUAuthService.signIn(email, password)` given the provider's reply to
      the password grant. `Map.of` rejects a null email or password before
      any request is made; an error status is replaced by a fixed message. */
  function SignIn(email: Option<string>, password: Option<string>, reply: Http<map<string, Json>>): (r: Result<map<string, Json>>)
    ensures (email.None? || password.None?) ==> r.Err? && r.error.kind == NullPointer
    ensures email.Some? && password.Some? && IsErrorStatus(reply.status) ==>
      r == Err(Error(Runtime, "Error durante la petición de autenticación"))
    ensures r.Ok? <==> email.Some? && password.Some? && !IsErrorStatus(reply.status)
    ensures r.Ok? ==> r.value == reply.body
  {
    if email.None? || password.None? then Err(Error(NullPointer, ""))
    else if IsErrorStatus(reply.status) then Err(Error(Runtime, "Error durante la petición de autenticación"))
    else Ok(reply.body)
  }

  /** `UUID.fromString((String) ((Map) auth.get("user")).get("id"))`. */
  function SubjectOf(auth: map<string, Json>): (r: Result<Uuid>)
    ensures r.Ok? <==> Get(auth, "user").JObject? && Get(Get(auth, "user").fields, "id").JString?
                       && WellFormed(Get(Get(auth, "user").fields, "id").s)
    ensures r.Ok? ==> Parse(Get(Get(auth, "user").fields, "id").s) == Some(r.value)
    ensures Get(auth, "user").JNull? ==> r.Err? && r.error.kind == NullPointer
    ensures Get(auth, "user").JObject? && Get(Get(auth, "user").fields, "id").JNull? ==>
      r.Err? && r.error.kind == NullPointer
    ensures Get(auth, "user").JObject? && Get(Get(auth, "user").fields, "id").JString? && r.Err? ==>
      r.error.kind == IllegalArgument
  {
    match Get(auth, "user")
    case JNull => Err(Error(NullPointer, ""))
    case JObject(user) =>
      (match CastString(Get(user, "id"))
       case Err(e) => Err(e)
       case Ok(None) => Err(Error(NullPointer, ""))
       case Ok(Some(text)) =>
         match Parse(text)
         case None => Err(Error(IllegalArgument, ""))
         case Some(id) => Ok(id))
    case _ => Err(Error(ClassCast, ""))
  }

  /** SIUAuthService.java lines 57-58, in `externalLogin`: the access token is cast first, then the subject id is read. */
  function ReadCredentials(auth: map<string, Json>): (r: Result<Credentials>)
    ensures CastString(Get(auth, "access_token")).Err? ==> r == Err(CastString(Get(auth, "access_token")).error)
    ensures r.Ok? <==> CastString(Get(auth, "access_token")).Ok? && SubjectOf(auth).Ok?
    ensures r.Ok? ==> r.value == Credentials(CastString(Get(auth, "access_token")).value, SubjectOf(auth).value)
  {
    match CastString(Get(auth, "access_token"))
    case Err(e) => Err(e)
    case Ok(token) =>
      match SubjectOf(auth)
      case Err(e) => Err(e)
      case Ok(id) => Ok(Credentials(token, id))
  }

  /** Everything `externalLogin` learns before it touches a database. */
  function LoginCredentials(email: Option<string>, password: Option<string>, reply: Http<map<string, Json>>): (r: Result<Credentials>)
    ensures SignIn(email, password, reply).Err? ==> r == Err(SignIn(email, password, reply).error)
    ensures r.Ok? <==> SignIn(email, password, reply).Ok? && ReadCredentials(reply.body).Ok?
    ensures r.Ok? ==> r == ReadCredentials(reply.body)
  {
    match SignIn(email, password, reply)
    case Err(e) => Err(e)
    case Ok(auth) => ReadCredentials(auth)
  }

  predicate HasSubject(d: DtoUser, id: Uuid) {
    d.supabaseUserId == Some(id)
  }

  /** The local lookup by subject id over the listed rows. `fault` stands for
      an exception other than `EntityNotFoundException` (a lost connection). */
  function LocalLookup(rows: seq<DtoUser>, id: Uuid, fault: Option<Error>): (r: Result<DtoUser>)
    ensures fault.Some? ==> r == Err(fault.value)
    ensures fault.None? && r.Ok? ==> r.value in rows && HasSubject(r.value, id)
    ensures fault.None? ==> (r.Err? <==> forall i :: 0 <= i < |rows| ==> !HasSubject(rows[i], id))
    ensures fault.None? && r.Err? ==> r.error.kind == NotFound
  {
    if fault.Some? then Err(fault.value)
    else
      match Find(rows, (d: DtoUser) => HasSubject(d, id))
      case Some(d) => Ok(d)
      case None => Err(Error(NotFound, ""))
  }

  /** `createUserFromExternalSystem`: a blank user with the directory entry's
      name and photo and the subject id's text; no id, email, status, type or
      organization. */
  function NewUserFrom(entry: UserSIU, id: Uuid): (u: UserPlanifika)
    ensures u.idUser.None? && u.email.None? && u.password.None?
    ensures u.idUserStatus.None? && u.idUserType.None? && u.idOrganization.None?
    ensures u.name == entry.name && u.photoUrl == entry.photoUrl
    ensures u.supabaseUserId.Some? && Parse(u.supabaseUserId.value) == Some(id)
  {
    ParseToString(id);
    BlankUser.(name := entry.name, photoUrl := entry.photoUrl, supabaseUserId := Some(ToString(id)))
  }

  /** The user `createUserFromExternalSystem` builds has no id, so
      `toDtoUser` unboxes null and `UserService.save` always throws. */
  lemma NewUserCannotBeSaved(entry: UserSIU, id: Uuid)
    ensures ToDtoUser(NewUserFrom(entry, id)).Err?
    ensures ToDtoUser(NewUserFrom(entry, id)).error.kind == NullPointer
  {
  }

  /** A user provisioned under a fresh id converts cleanly and keeps its subject. */
  lemma NewUserWithIdCanBeSaved(entry: UserSIU, id: Uuid, key: int)
    ensures ToDtoUser(NewUserFrom(entry, id).(idUser := Some(key))).Ok?
    ensures HasSubject(ToDtoUser(NewUserFrom(entry, id).(idUser := Some(key))).value, id)
  {
  }

  /** Once a row with the subject id is stored, the local lookup finds one. */
  lemma {:induction false} StoredSubjectIsFound(t: Table<DtoUser>, k: int, id: Uuid)
    requires t.Valid() && k in t.rows && HasSubject(t.rows[k], id)
    ensures LocalLookup(t.Values(), id, None).Ok?
  {
    t.ListsRow(k);
    var i :| 0 <= i < |t.Values()| && t.Values()[i] == t.rows[k];
  }

  class SIUAuthService {
    /** The local user service. */
    const userService: UserService
    /** The SIU `usersiu` table, read only. */
    const directory: seq<UserSIU>

    constructor (userService: UserService, directory: seq<UserSIU>)
      ensures this.userService == userService && this.directory == directory
    {
      this.userService := userService;
      this.directory := directory;
    }

    /** `externalLogin(email, password)` as written. A subject without a
        local user reaches `userService.save` with a null id, so the call
        fails and no user is ever provisioned. `reply` is the provider's
        answer; `fault` an unexpected failure of the local lookup. */
    method ExternalLoginAsWritten(email: Option<string>, password: Option<string>, reply: Http<map<string, Json>>,
                                  fault: Option<Error>) returns (r: Result<Login>)
      requires userService.Valid()
      modifies userService
      ensures userService.Valid()
      ensures userService.table == old(userService.table)
      ensures LoginCredentials(email, password, reply).Err? ==> r == Err(LoginCredentials(email, password, reply).error)
      ensures LoginCredentials(email, password, reply).Ok? ==>
        var c := LoginCredentials(email, password, reply).value;
        var local := LocalLookup(userService.table.Values(), c.subject, fault);
        && (local.Ok? ==> r == Ok(Login(ToUserPlanifika(local.value), c.accessToken)))
        && (local.Err? && local.error.kind != NotFound ==> r == Err(local.error))
        && (local.Err? && local.error.kind == NotFound ==>
              if FindBySupabaseId(directory, c.subject).Err? then r == Err(FindBySupabaseId(directory, c.subject).error)
              else r.Err? && r.error.kind == NullPointer)
    {
      var creds := LoginCredentials(email, password, reply);
      if creds.Err? {
        return Err(creds.error);
      }
      var c := creds.value;
      var local := LocalLookup(userService.table.Values(), c.subject, fault);
      if local.Ok? {
        return Ok(Login(ToUserPlanifika(local.value), c.accessToken));
      }
      if local.error.kind != NotFound {
        return Err(local.error);
      }
      var entry := FindBySupabaseId(directory, c.subject);
      if entry.Err? {
        return Err(entry.error);
      }
      NewUserCannotBeSaved(entry.value, c.subject);
      var saved := userService.Save(NewUserFrom(entry.value, c.subject));
      r := match saved case Err(e) => Err(e) case Ok(u) => Ok(Login(u, c.accessToken));
    }

    /** `externalLogin(email, password)` with the provisioning it intends: a
        subject found in the SIU directory but not locally is stored under a
        fresh id, and a later login finds it. */
    method ExternalLogin(email: Option<string>, password: Option<string>, reply: Http<map<string, Json>>,
                         fault: Option<Error>) returns (r: Result<Login>)
      requires userService.Valid()
      modifies userService
      ensures userService.Valid()
      ensures LoginCredentials(email, password, reply).Err? ==>
        r == Err(LoginCredentials(email, password, reply).error) && userService.table == old(userService.table)
      ensures LoginCredentials(email, password, reply).Ok? ==>
        var c := LoginCredentials(email, password, reply).value;
        var local := LocalLookup(old(userService.table).Values(), c.subject, fault);
        var entry := FindBySupabaseId(directory, c.subject);
        && (local.Ok? ==>
              r == Ok(Login(ToUserPlanifika(local.value), c.accessToken)) && userService.table == old(userService.table))
        && (local.Err? && local.error.kind != NotFound ==>
              r == Err(local.error) && userService.table == old(userService.table))
        && (local.Err? && local.error.kind == NotFound && entry.Err? ==>
              r == Err(entry.error) && userService.table == old(userService.table))
        && (local.Err? && local.error.kind == NotFound && entry.Ok? ==>
              exists k ::
                && k !in old(userService.table).rows
                && var row := ToDtoUser(NewUserFrom(entry.value, c.subject).(idUser := Some(k))).value;
                && userService.table == old(userService.table).Put(k, row)
                && HasSubject(row, c.subject)
                && r == Ok(Login(ToUserPlanifika(row), c.accessToken)))
    {
      var creds := LoginCredentials(email, password, reply);
      if creds.Err? {
        return Err(creds.error);
      }
      var c := creds.value;
      var local := LocalLookup(userService.table.Values(), c.subject, fault);
      if local.Ok? {
        return Ok(Login(ToUserPlanifika(local.value), c.accessToken));
      }
      if local.error.kind != NotFound {
        return Err(local.error);
      }
      var entry := FindBySupabaseId(directory, c.subject);
      if entry.Err? {
        return Err(entry.error);
      }
      var user := NewUserFrom(entry.value, c.subject);
      var saved := userService.Insert(user);
      r := match saved case Err(e) => Err(e) case Ok(u) => Ok(Login(u, c.accessToken));
    }
  }
}
