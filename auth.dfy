/** `AuthService`: sign-up against the identity provider, the merged profile
    view with auto-provisioning of a missing local user, and the profile
    update that writes to the provider and to the local row. Every provider
    reply is an input; the local `userplanifika` repository of this service
    stores `UserPlanifika` rows under identity-generated ids. */
module Auth {
  import opened Common
  import opened Uuids
  import opened Tables
  import opened UserRecords

  // ---------------------------------------------------------------------
  // Provider error replies

  /** `bodyToMono(String.class).defaultIfEmpty("[No response body]")`. */
  function BodyOrDefault(text: string): (s: string)
    ensures text != "" ==> s == text
    ensures text == "" ==> s == "[No response body]"
  {
    if text == "" then "[No response body]" else text
  }

  /** The message the `onStatus` handlers raise: a label, the status code
      and the reply body. */
  function StatusError(prefix: string, status: int, text: string): string {
    prefix + " (" + IntText(status) + "): " + BodyOrDefault(text)
  }

  /** The message names its status code and reply body: two messages with
      the same label are equal only for the same code and body. */
  lemma StatusErrorNamesStatus(prefix: string, a: int, ta: string, b: int, tb: string)
    requires StatusError(prefix, a, ta) == StatusError(prefix, b, tb)
    ensures a == b && BodyOrDefault(ta) == BodyOrDefault(tb)
  {
    var xa, xb := IntText(a), IntText(b);
    var ya, yb := ": " + BodyOrDefault(ta), ": " + BodyOrDefault(tb);
    assert StatusError(prefix, a, ta) == (prefix + " (") + (xa + [')'] + ya);
    assert StatusError(prefix, b, tb) == (prefix + " (") + (xb + [')'] + yb);
    assert ')' !in xa && ')' !in xb;
    SplitAtFirst(prefix + " (", xa, ')', ya, xb, yb);
    IntTextInjective(a, b);
    assert BodyOrDefault(ta) == ya[2..] && BodyOrDefault(tb) == yb[2..];
  }

  // ---------------------------------------------------------------------
  // signUp

  /** The prefix `signUp` puts in front of every error message. */
  const SignUpPrefix := "Error en signUp: "

  /** What `signUp` emits: `{"auth", "db"}` or `{"error"}`. */
  datatype SignUpReply = SignedUp(auth: map<string, Json>, db: map<string, Json>) | SignUpError(message: string)

  /** The map `signUp` emits for a reply. */
  function ReplyMap(reply: SignUpReply): (m: map<string, Json>)
    ensures reply.SignedUp? ==> m.Keys == {"auth", "db"}
    ensures reply.SignUpError? ==> m.Keys == {"error"}
  {
    match reply
    case SignedUp(a, d) => map["auth" := JObject(a), "db" := JObject(d)]
    case SignUpError(msg) => map["error" := JString(msg)]
  }

  /** AuthService.java lines 72-79: the id candidate comes from `user.id` whenever the key
      "user" is present (a null `user` gives no candidate); only without that
      key is the top-level `id` read. JNull stands for no candidate. */
  function SignUpIdCandidate(response: map<string, Json>): (r: Result<Json>)
    ensures "user" in response && response["user"].JObject? ==> r == Ok(Get(response["user"].fields, "id"))
    ensures "user" in response && response["user"].JNull? ==> r == Ok(JNull)
    ensures "user" in response && !response["user"].JObject? && !response["user"].JNull? ==>
      r.Err? && r.error.kind == ClassCast
    ensures "user" !in response ==> r == Ok(Get(response, "id"))
  {
    if "user" in response then
      match response["user"]
      case JNull => Ok(JNull)
      case JObject(user) => Ok(Get(user, "id"))
      case _ => Err(Error(ClassCast, ""))
    else Ok(Get(response, "id"))
  }

  /** AuthService.java lines 81-92: the subject id of a sign-up reply, `UUID.fromString` of the
      candidate's text. */
  function SignUpSubject(response: map<string, Json>): (r: Result<Uuid>)
    ensures r.Ok? <==> SignUpIdCandidate(response).Ok? && SignUpIdCandidate(response).value != JNull
                       && WellFormed(JsonText(SignUpIdCandidate(response).value))
    ensures r.Ok? ==> Parse(JsonText(SignUpIdCandidate(response).value)) == Some(r.value)
    ensures SignUpIdCandidate(response) == Ok(JNull) ==>
      r == Err(Error(Runtime, "No se encontró el ID del usuario en la respuesta de Supabase: " + JsonText(JObject(response))))
    ensures SignUpIdCandidate(response).Ok? && SignUpIdCandidate(response).value != JNull && r.Err? ==>
      r == Err(Error(Runtime, "Error al parsear ID de Supabase: " + JsonText(SignUpIdCandidate(response).value)))
  {
    match SignUpIdCandidate(response)
    case Err(e) => Err(e)
    case Ok(candidate) =>
      if candidate == JNull then
        Err(Error(Runtime, "No se encontró el ID del usuario en la respuesta de Supabase: " + JsonText(JObject(response))))
      else
        match Parse(JsonText(candidate))
        case None => Err(Error(Runtime, "Error al parsear ID de Supabase: " + JsonText(candidate)))
        case Some(id) => Ok(id)
  }

  /** With a "user" entry present, the top-level "id" plays no part. */
  lemma UserEntryShadowsId(response: map<string, Json>, v: Json)
    requires "user" in response
    ensures SignUpSubject(response["id" := v]).Ok? <==> SignUpSubject(response).Ok?
    ensures SignUpSubject(response).Ok? ==> SignUpSubject(response["id" := v]) == SignUpSubject(response)
  {
    assert response["id" := v]["user"] == response["user"];
  }

  /** The PostgREST row `signUp` inserts (AuthService.java lines 95-101). */
  predicate IsInsertRow(p: map<string, Json>, subject: Uuid, name: Option<string>, photoUrl: Option<string>,
                        userRole: Option<int>, organizationId: Option<int>) {
    && p.Keys == {"supabaseuserid", "name", "photourl", "iduserstatus", "idusertype", "idorganization"}
    && p["supabaseuserid"] == JString(ToString(subject))
    && p["name"] == OptString(name)
    && p["photourl"] == OptString(photoUrl)
    && p["iduserstatus"] == JNumber(1)
    && p["idusertype"] == JNumber(if userRole.Some? then userRole.value else 1)
    && p["idorganization"] == OptNumber(organizationId)
  }

  /** The insert payload, filled one `put` at a time. */
  method InsertPayload(subject: Uuid, name: Option<string>, photoUrl: Option<string>,
                       userRole: Option<int>, organizationId: Option<int>) returns (p: map<string, Json>)
    ensures IsInsertRow(p, subject, name, photoUrl, userRole, organizationId)
    ensures p["supabaseuserid"].JString? && Parse(p["supabaseuserid"].s) == Some(subject)
    ensures p["idusertype"] == JNumber(1) <==> userRole.None? || userRole == Some(1)
  {
    p := map[];
    p := p["supabaseuserid" := JString(ToString(subject))];
    p := p["name" := OptString(name)];
    p := p["photourl" := OptString(photoUrl)];
    p := p["iduserstatus" := JNumber(1)];
    p := p["idusertype" := JNumber(if userRole.Some? then userRole.value else 1)];
    p := p["idorganization" := OptNumber(organizationId)];
    ParseToString(subject);
  }

  // ---------------------------------------------------------------------
  // getUserWithDatabaseInfo and updateProfile: the provider's user profile

  /** What `(String) user.get("id")` followed by `UUID.fromString` yields. */
  datatype SubjectRead = NoSubject | NotText | BadText(text: string) | Subject(id: Uuid)

  function ReadSubject(profile: map<string, Json>): (r: SubjectRead)
    ensures r.NoSubject? <==> Get(profile, "id").JNull?
    ensures r.NotText? <==> !Get(profile, "id").JNull? && !Get(profile, "id").JString?
    ensures r.BadText? <==> Get(profile, "id").JString? && !WellFormed(Get(profile, "id").s)
    ensures r.BadText? ==> r.text == Get(profile, "id").s
    ensures r.Subject? ==> Get(profile, "id").JString? && Parse(Get(profile, "id").s) == Some(r.id)
  {
    match CastString(Get(profile, "id"))
    case Err(_) => NotText
    case Ok(None) => NoSubject
    case Ok(Some(text)) =>
      match Parse(text)
      case None => BadText(text)
      case Some(id) => Subject(id)
  }

  /** `user_metadata.full_name`, else `user_metadata.name`, when the metadata is a map. */
  function MetaName(meta: Json): (r: Option<string>)
    ensures !meta.JObject? ==> r.None?
    ensures meta.JObject? && Get(meta.fields, "full_name") != JNull ==> r == Some(JsonText(Get(meta.fields, "full_name")))
    ensures meta.JObject? && Get(meta.fields, "full_name") == JNull && Get(meta.fields, "name") != JNull ==>
      r == Some(JsonText(Get(meta.fields, "name")))
    ensures meta.JObject? && Get(meta.fields, "full_name") == JNull && Get(meta.fields, "name") == JNull ==> r.None?
  {
    match meta
    case JObject(m) =>
      if Get(m, "full_name") != JNull then Some(JsonText(Get(m, "full_name")))
      else if Get(m, "name") != JNull then Some(JsonText(Get(m, "name")))
      else None
    case _ => None
  }

  /** The text before the first '@', or the whole address when it has none. */
  function EmailLocalPart(email: string): (r: string)
    ensures |r| <= |email| && r == email[..|r|]
    ensures '@' !in r
    ensures '@' in email ==> email[|r|] == '@'
    ensures '@' !in email ==> r == email
  {
    if '@' in email then email[..IndexOf(email, '@')] else email
  }

  /** AuthService.java lines 199-212: the name a provisioned user gets. */
  function ProvisionedName(meta: Json, email: Option<string>): (r: Option<string>)
    ensures MetaName(meta).Some? ==> r == MetaName(meta)
    ensures MetaName(meta).None? && email.Some? ==> r == Some(EmailLocalPart(email.value))
    ensures r.None? <==> MetaName(meta).None? && email.None?
  {
    if MetaName(meta).Some? then MetaName(meta)
    else if email.Some? then Some(EmailLocalPart(email.value))
    else None
  }

  /** AuthService.java lines 205-208: `photourl`, else `avatar_url`, when the metadata is a map. */
  function ProvisionedPhoto(meta: Json): (r: Option<string>)
    ensures !meta.JObject? ==> r.None?
    ensures meta.JObject? && Get(meta.fields, "photourl") != JNull ==> r == Some(JsonText(Get(meta.fields, "photourl")))
    ensures meta.JObject? && Get(meta.fields, "photourl") == JNull && Get(meta.fields, "avatar_url") != JNull ==>
      r == Some(JsonText(Get(meta.fields, "avatar_url")))
    ensures meta.JObject? && Get(meta.fields, "photourl") == JNull && Get(meta.fields, "avatar_url") == JNull ==> r.None?
  {
    match meta
    case JObject(m) =>
      var photo := if Get(m, "photourl") == JNull then Get(m, "avatar_url") else Get(m, "photourl");
      if photo == JNull then None else Some(JsonText(photo))
    case _ => None
  }

  /** A non-null claim whose text is "admin" in any letter case. */
  predicate AdminClaim(claim: Json) {
    claim != JNull && IsAdminText(JsonText(claim))
  }

  /** Only a JSON string claim can be an admin claim. */
  lemma AdminClaimIsString(claim: Json)
    ensures AdminClaim(claim) <==> claim.JString? && IsAdminText(claim.s)
  {
    if AdminClaim(claim) {
      AdminTextIsString(claim);
    }
  }

  /** AuthService.java lines 217-226: user type 2 for an admin `role` or `user_role`, else 1. */
  function DerivedUserType(profile: map<string, Json>): (t: int)
    ensures t == 1 || t == 2
    ensures t == 2 <==> AdminClaim(Get(profile, "role")) || AdminClaim(Get(profile, "user_role"))
  {
    var t := if AdminClaim(Get(profile, "role")) then 2 else 1;
    if AdminClaim(Get(profile, "user_role")) then 2 else t
  }

  /** An "admin" role claim in any case, and only a string one, makes an admin user. */
  lemma {:induction false} AdminRoleMakesAdminUser(profile: map<string, Json>)
    ensures DerivedUserType(profile) == 2 <==>
      (Get(profile, "role").JString? && IsAdminText(Get(profile, "role").s))
      || (Get(profile, "user_role").JString? && IsAdminText(Get(profile, "user_role").s))
  {
    AdminClaimIsString(Get(profile, "role"));
    AdminClaimIsString(Get(profile, "user_role"));
  }

  /** The map `getUserWithDatabaseInfo` emits; `userType` and `idusertype`
      are two keys holding the same value. */
  datatype ProfileView = ProfileView(
    userId: Option<int>,
    name: Option<string>,
    email: Json,
    photoUrl: Option<string>,
    userType: Option<int>,
    idUserStatus: Option<int>,
    idOrganization: Option<int>,
    supabaseUserId: Option<string>,
    created: bool)

  /** AuthService.java lines 176-186 (and 231-241): a stored user as the view shows it. */
  function ViewOf(u: UserPlanifika, email: Json, created: bool): (v: ProfileView)
    ensures v.userId == u.idUser && v.name == u.name && v.photoUrl == u.photoUrl
    ensures v.userType == u.idUserType && v.idUserStatus == u.idUserStatus
    ensures v.idOrganization == u.idOrganization && v.supabaseUserId == u.supabaseUserId
    ensures v.email == email && v.created == created
  {
    ProfileView(u.idUser, u.name, email, u.photoUrl, u.idUserType, u.idUserStatus, u.idOrganization, u.supabaseUserId, created)
  }

  // ---------------------------------------------------------------------
  // updateProfile

  /** The provider update payload of AuthService.java lines 289-304: the
      password when one is given, and a `data` object with the name (twice)
      and the photo when either is given; nothing else. */
  predicate IsUpdatePayload(p: map<string, Json>, name: Option<string>, password: Option<string>,
                            photoUrl: Option<string>) {
    && p.Keys <= {"password", "data"}
    && ("password" in p <==> HasText(password))
    && (HasText(password) ==> p["password"] == JString(password.value))
    && ("data" in p <==> HasText(name) || HasText(photoUrl))
    && ("data" in p ==> p["data"].JObject? && IsProfileData(p["data"].fields, name, photoUrl))
  }

  /** The `data` object of an update: the name under `name` and `full_name`,
      and the photo under `photourl`, each only when given. */
  predicate IsProfileData(d: map<string, Json>, name: Option<string>, photoUrl: Option<string>) {
    && d.Keys <= {"name", "full_name", "photourl"}
    && ("name" in d <==> HasText(name)) && ("full_name" in d <==> HasText(name))
    && ("photourl" in d <==> HasText(photoUrl))
    && (HasText(name) ==> d["name"] == JString(name.value) && d["full_name"] == JString(name.value))
    && (HasText(photoUrl) ==> d["photourl"] == JString(photoUrl.value))
  }

  /** AuthService.java lines 290-304: the update payload, filled one `put` at a time. */
  method UpdatePayload(name: Option<string>, password: Option<string>, photoUrl: Option<string>)
    returns (p: map<string, Json>)
    ensures IsUpdatePayload(p, name, password, photoUrl)
    ensures p == map[] <==> !HasText(password) && !HasText(name) && !HasText(photoUrl)
  {
    p := map[];
    if HasText(password) {
      p := p["password" := JString(password.value)];
    }
    if HasText(name) || HasText(photoUrl) {
      var data: map<string, Json> := map[];
      if HasText(name) {
        data := data["name" := JString(name.value)];
        data := data["full_name" := JString(name.value)];
      }
      if HasText(photoUrl) {
        data := data["photourl" := JString(photoUrl.value)];
      }
      p := p["data" := JObject(data)];
    }
  }

  /** The `db` part of an update: the saved row's id, name and photo, or `{"skipped": true}`. */
  datatype DbPart = DbUpdated(idUser: Option<int>, name: Option<string>, photoUrl: Option<string>) | DbSkipped

  /** What `updateProfile` emits: the `auth`, `db` and `supabaseUserId` entries. */
  datatype ProfileUpdate = ProfileUpdate(auth: map<string, Json>, db: DbPart, supabaseUserId: Uuid)

  const NeedOneField := "Debe proporcionar 'name', 'password' o 'photourl' para actualizar"
  const NoSubjectMessage := "No se encontró el ID del usuario en Supabase"
  const LocalUserMissing := "Error al actualizar datos en la base de datos: Usuario no encontrado en la base de datos de la aplicación"

  // ---------------------------------------------------------------------
  // The local repository

  /** A stored user whose subject id text denotes `id`. */
  predicate HasSubject(u: UserPlanifika, id: Uuid) {
    u.supabaseUserId.Some? && Parse(u.supabaseUserId.value) == Some(id)
  }

  /** `findBySupabaseUserId(id)`: the key of the first listed row with that subject id. */
  function LocalKey(t: Table<UserPlanifika>, id: Uuid): (r: Option<int>)
    requires t.Valid()
    ensures r.Some? ==> r.value in t.rows && HasSubject(t.rows[r.value], id)
    ensures r.None? <==> forall k :: k in t.rows ==> !HasSubject(t.rows[k], id)
  {
    var found := Find(t.order, (k: int) => k in t.rows && HasSubject(t.rows[k], id));
    if found.None? then
      assert forall k :: k in t.rows ==> !HasSubject(t.rows[k], id) by {
        forall k | k in t.rows ensures !HasSubject(t.rows[k], id) {
          var i :| 0 <= i < |t.order| && t.order[i] == k;
        }
      }
      None
    else found
  }

  class AuthService {
    /** The `userplanifika` rows this service reads and writes. */
    var users: Table<UserPlanifika>
    /** The next value of the identity column. */
    var nextUserId: int

    /** Every row sits under its own id, below the identity counter. */
    ghost predicate Valid()
      reads this
    {
      && users.Valid()
      && forall k :: k in users.rows ==> k < nextUserId && users.rows[k].idUser == Some(k)
    }

    constructor ()
      ensures Valid() && users == EmptyTable() && nextUserId == 1
    {
      users := EmptyTable();
      nextUserId := 1;
    }

    /** `signUp(...)` given the provider's sign-up reply and the database's reply
        to the insert. `insert` is the row sent to the database, if any. Only a
        null email or password escapes as an exception (from `Map.of`, before
        any request); every other failure becomes an `{"error"}` reply. */
    method SignUp(name: Option<string>, email: Option<string>, password: Option<string>, photoUrl: Option<string>,
                  userRole: Option<int>, organizationId: Option<int>,
                  authReply: Http<map<string, Json>>, dbReply: Http<seq<map<string, Json>>>)
      returns (insert: Option<map<string, Json>>, r: Result<SignUpReply>)
      ensures r.Err? <==> email.None? || password.None?
      ensures r.Err? ==> r.error.kind == NullPointer && insert.None?
      ensures r.Ok? && IsErrorStatus(authReply.status) ==>
        insert.None? && r.value == SignUpError(SignUpPrefix + StatusError("Supabase Auth Error", authReply.status, authReply.text))
      ensures r.Ok? && !IsErrorStatus(authReply.status) && SignUpSubject(authReply.body).Err? ==>
        insert.None? && r.value == SignUpError(SignUpPrefix + SignUpSubject(authReply.body).error.message)
      ensures r.Ok? && !IsErrorStatus(authReply.status) && SignUpSubject(authReply.body).Ok? ==>
        && insert.Some?
        && IsInsertRow(insert.value, SignUpSubject(authReply.body).value, name, photoUrl, userRole, organizationId)
        && (IsErrorStatus(dbReply.status) ==>
              r.value == SignUpError(SignUpPrefix + StatusError("Supabase DB Error", dbReply.status, dbReply.text)))
        && (!IsErrorStatus(dbReply.status) && dbReply.body == [] ==>
              r.value == SignUpError(SignUpPrefix + "Inserción en DB Supabase exitosa, pero no devolvió datos."))
        && (!IsErrorStatus(dbReply.status) && dbReply.body != [] ==>
              r.value == SignedUp(authReply.body, dbReply.body[0]))
      ensures r.Ok? && r.value.SignedUp? ==> insert.Some?
    {
      insert := None;
      if email.None? || password.None? {
        return None, Err(Error(NullPointer, ""));
      }
      if IsErrorStatus(authReply.status) {
        return None, Ok(SignUpError(SignUpPrefix + StatusError("Supabase Auth Error", authReply.status, authReply.text)));
      }
      var subject := SignUpSubject(authReply.body);
      if subject.Err? {
        return None, Ok(SignUpError(SignUpPrefix + subject.error.message));
      }
      var row := InsertPayload(subject.value, name, photoUrl, userRole, organizationId);
      insert := Some(row);
      if IsErrorStatus(dbReply.status) {
        r := Ok(SignUpError(SignUpPrefix + StatusError("Supabase DB Error", dbReply.status, dbReply.text)));
      } else if dbReply.body == [] {
        r := Ok(SignUpError(SignUpPrefix + "Inserción en DB Supabase exitosa, pero no devolvió datos."));
      } else {
        r := Ok(SignedUp(authReply.body, dbReply.body[0]));
      }
    }

    /** AuthService.java lines 193-228: the user to provision, filled through its setters. */
    method ProvisionedUser(profile: map<string, Json>, id: Uuid, email: Option<string>) returns (u: UserPlanifika)
      ensures u.idUser.None? && u.email.None? && u.password.None?
      ensures u.supabaseUserId == Some(ToString(id)) && HasSubject(u, id)
      ensures u.name == ProvisionedName(Get(profile, "user_metadata"), email)
      ensures u.photoUrl == ProvisionedPhoto(Get(profile, "user_metadata"))
      ensures u.idUserStatus == Some(StatusId(ACTIVE))
      ensures u.idUserType == Some(DerivedUserType(profile))
      ensures u.idOrganization.None?
    {
      var e := new UserPlanifikaEntity();
      e.SetSupabaseUserId(Some(ToString(id)));
      var meta := Get(profile, "user_metadata");
      e.SetName(ProvisionedName(meta, email));
      e.SetPhotoUrl(ProvisionedPhoto(meta));
      e.SetIdUserStatus(Some(StatusId(ACTIVE)));
      e.SetIdUserType(Some(DerivedUserType(profile)));
      e.SetIdOrganization(None);
      u := e.Value();
      ParseToString(id);
    }

    /** `getUserWithDatabaseInfo(token)` given the provider's reply to
        `getUser(token)`: the local user merged with the provider's email, or
        a freshly provisioned user when none has the subject id. */
    method GetUserWithDatabaseInfo(reply: Http<map<string, Json>>) returns (r: Result<ProfileView>)
      requires Valid()
      modifies this
      ensures Valid()
      ensures IsErrorStatus(reply.status) ==>
        r.Err? && r.error.kind == HttpStatus && users == old(users) && nextUserId == old(nextUserId)
      ensures !IsErrorStatus(reply.status) && !ReadSubject(reply.body).Subject? ==>
        && users == old(users) && nextUserId == old(nextUserId) && r.Err? && r.error.kind == Runtime
        && (ReadSubject(reply.body).NoSubject? ==> r.error.message == NoSubjectMessage)
        && (ReadSubject(reply.body).BadText? ==> StartsWith(r.error.message, "Error al parsear el ID de Supabase: "))
        && (ReadSubject(reply.body).NotText? ==> StartsWith(r.error.message, "Error al obtener información del usuario: "))
      ensures !IsErrorStatus(reply.status) && ReadSubject(reply.body).Subject? ==>
        var id := ReadSubject(reply.body).id;
        var key := LocalKey(old(users), id);
        var email := CastString(Get(reply.body, "email"));
        && (key.Some? ==>
              && users == old(users) && nextUserId == old(nextUserId)
              && r == Ok(ViewOf(old(users).rows[key.value], Get(reply.body, "email"), false)))
        && (key.None? && email.Err? ==>
              && users == old(users) && nextUserId == old(nextUserId)
              && r.Err? && StartsWith(r.error.message, "Error al auto-provisionar usuario local: "))
        && (key.None? && email.Ok? ==>
              && nextUserId == old(nextUserId) + 1
              && users.rows.Keys == old(users).rows.Keys + {old(nextUserId)}
              && r.Ok? && r.value.created
              && r.value.email == OptString(email.value)
              && users.rows[old(nextUserId)].idUser == r.value.userId == Some(old(nextUserId))
              && HasSubject(users.rows[old(nextUserId)], id)
              && users.rows[old(nextUserId)].name == r.value.name
                 == ProvisionedName(Get(reply.body, "user_metadata"), email.value)
              && users.rows[old(nextUserId)].photoUrl == r.value.photoUrl
                 == ProvisionedPhoto(Get(reply.body, "user_metadata"))
              && users.rows[old(nextUserId)].idUserStatus == r.value.idUserStatus == Some(1)
              && users.rows[old(nextUserId)].idUserType == r.value.userType == Some(DerivedUserType(reply.body))
              && users.rows[old(nextUserId)].idOrganization == r.value.idOrganization == None
              && forall k :: k in old(users).rows ==> users.rows[k] == old(users).rows[k])
    {
      if IsErrorStatus(reply.status) {
        return Err(Error(HttpStatus, ""));
      }
      var profile := reply.body;
      var subject := ReadSubject(profile);
      match subject
      case NotText =>
        return Err(Error(Runtime, "Error al obtener información del usuario: "));
      case NoSubject =>
        return Err(Error(Runtime, NoSubjectMessage));
      case BadText(_) =>
        return Err(Error(Runtime, "Error al parsear el ID de Supabase: "));
      case Subject(id) =>
        var key := LocalKey(users, id);
        if key.Some? {
          return Ok(ViewOf(users.rows[key.value], Get(profile, "email"), false));
        }
        var email := CastString(Get(profile, "email"));
        if email.Err? {
          return Err(Error(Runtime, "Error al auto-provisionar usuario local: "));
        }
        var user := ProvisionedUser(profile, id, email.value);
        var saved := user.(idUser := Some(nextUserId));
        users := users.Put(nextUserId, saved);
        nextUserId := nextUserId + 1;
        r := Ok(ViewOf(saved, OptString(email.value), true));
    }

    /** `updateProfile(token, name, password, photourl)` given the provider's
        reply to `getUser(token)` and to the update. `payload` is the provider
        update sent, if any. The local row is rewritten whenever a name or a
        photo is given and the subject id parses, whatever the provider
        answers to the update. */
    method UpdateProfile(name: Option<string>, password: Option<string>, photoUrl: Option<string>,
                         userReply: Http<map<string, Json>>, updateReply: Http<map<string, Json>>)
      returns (payload: Option<map<string, Json>>, r: Result<ProfileUpdate>)
      requires Valid()
      modifies this
      ensures Valid()
      ensures nextUserId == old(nextUserId)
      ensures !HasText(name) && !HasText(password) && !HasText(photoUrl) ==>
        r == Err(Error(IllegalArgument, NeedOneField)) && payload.None? && users == old(users)
      ensures (HasText(name) || HasText(password) || HasText(photoUrl)) && IsErrorStatus(userReply.status) ==>
        r.Err? && r.error.kind == Runtime && payload.None? && users == old(users)
      ensures (HasText(name) || HasText(password) || HasText(photoUrl)) && !IsErrorStatus(userReply.status)
              && !ReadSubject(userReply.body).Subject? ==>
        && r.Err? && r.error.kind == Runtime && payload.None? && users == old(users)
        && (ReadSubject(userReply.body).NoSubject? ==> r.error.message == NoSubjectMessage)
        && (ReadSubject(userReply.body).BadText? ==>
              r.error.message == "ID de usuario Supabase inválido: " + ReadSubject(userReply.body).text)
      ensures (HasText(name) || HasText(password) || HasText(photoUrl)) && !IsErrorStatus(userReply.status)
              && ReadSubject(userReply.body).Subject? ==>
        var id := ReadSubject(userReply.body).id;
        var needDb := HasText(name) || HasText(photoUrl);
        var key := LocalKey(old(users), id);
        var authFailed := IsErrorStatus(updateReply.status);
        var dbFailed := needDb && key.None?;
        && payload.Some?
        && IsUpdatePayload(payload.value, name, password, photoUrl)
        && (needDb && key.Some? ==>
              users == old(users).Put(key.value, old(users).rows[key.value].(
                name := if HasText(name) then name else old(users).rows[key.value].name,
                photoUrl := if HasText(photoUrl) then photoUrl else old(users).rows[key.value].photoUrl)))
        && (!needDb || key.None? ==> users == old(users))
        && (authFailed && !dbFailed ==>
              r == Err(Error(Runtime, StatusError("Supabase Auth Update Error", updateReply.status, updateReply.text))))
        && (dbFailed && !authFailed ==> r == Err(Error(Runtime, LocalUserMissing)))
        && (authFailed && dbFailed ==> r.Err?)
        && (!authFailed && !dbFailed ==> r.Ok? && r.value.auth == updateReply.body && r.value.supabaseUserId == id)
        && (!authFailed && !needDb ==> r == Ok(ProfileUpdate(updateReply.body, DbSkipped, id)))
        && (!authFailed && needDb && key.Some? ==>
              var row := users.rows[key.value];
              r == Ok(ProfileUpdate(updateReply.body, DbUpdated(row.idUser, row.name, row.photoUrl), id)))
    {
      payload := None;
      var hasName, hasPassword, hasPhoto := HasText(name), HasText(password), HasText(photoUrl);
      if !hasName && !hasPassword && !hasPhoto {
        return None, Err(Error(IllegalArgument, NeedOneField));
      }
      if IsErrorStatus(userReply.status) {
        return None, Err(Error(Runtime, ""));
      }
      var subject := ReadSubject(userReply.body);
      if subject.NotText? {
        return None, Err(Error(Runtime, ""));
      } else if subject.NoSubject? {
        return None, Err(Error(Runtime, NoSubjectMessage));
      } else if subject.BadText? {
        return None, Err(Error(Runtime, "ID de usuario Supabase inválido: " + subject.text));
      }
      var id := subject.id;
      var p := UpdatePayload(name, password, photoUrl);
      payload := Some(p);
      var db: Result<DbPart> := Ok(DbSkipped);
      if hasName || hasPhoto {
        var key := LocalKey(users, id);
        if key.None? {
          db := Err(Error(Runtime, LocalUserMissing));
        } else {
          var row := users.rows[key.value];
          if hasName {
            row := row.(name := name);
          }
          if hasPhoto {
            row := row.(photoUrl := photoUrl);
          }
          users := users.Put(key.value, row);
          db := Ok(DbUpdated(row.idUser, row.name, row.photoUrl));
        }
      }
      if db.Err? {
        r := Err(db.error);
      } else if IsErrorStatus(updateReply.status) {
        r := Err(Error(Runtime, StatusError("Supabase Auth Update Error", updateReply.status, updateReply.text)));
      } else {
        r := Ok(ProfileUpdate(updateReply.body, db.value, id));
      }
    }
  }

  /** A second profile request for a provisioned subject finds the row the
      first one stored instead of provisioning again. */
  lemma {:induction false} ProvisionedUserIsFound(t: Table<UserPlanifika>, k: int, u: UserPlanifika, id: Uuid)
    requires t.Valid() && HasSubject(u, id)
    ensures LocalKey(t.Put(k, u), id).Some?
  {
    assert k in t.Put(k, u).rows && HasSubject(t.Put(k, u).rows[k], id);
  }
}
