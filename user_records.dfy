/** The two shapes of a local user: `UserPlanifika` (the service-level
    entity, subject id as text, also carrying email and password) and
    `DtoUser` (the `userplanifika` table row, subject id as a UUID), the
    conversions between them, and the user status catalog. Both records are
    values here; `UserPlanifikaEntity` and `DtoUserEntity` are the mutable
    objects with their getters and setters. */
module UserRecords {
  import opened Common
  import opened Uuids

  /** `UserStatusEnum`. */
  datatype UserStatusEnum = ACTIVE | DELETED

  /** `getId()`. */
  function StatusId(s: UserStatusEnum): (id: int)
    ensures id == 1 <==> s == ACTIVE
    ensures id == 2 <==> s == DELETED
  {
    match s
    case ACTIVE => 1
    case DELETED => 2
  }

  /** `name()`. */
  function StatusName(s: UserStatusEnum): string {
    match s
    case ACTIVE => "ACTIVE"
    case DELETED => "DELETED"
  }

  /** `UserStatusEnum.valueOf(name)`; None stands for its IllegalArgumentException. */
  function StatusValueOf(name: string): (r: Option<UserStatusEnum>)
    ensures r.Some? ==> StatusName(r.value) == name
    ensures r.None? <==> name != "ACTIVE" && name != "DELETED"
  {
    if name == "ACTIVE" then Some(ACTIVE) else if name == "DELETED" then Some(DELETED) else None
  }

  /** `valueOf(s.name())` gives `s` back, so no two statuses share a name. */
  lemma StatusNameRoundTrip(s: UserStatusEnum)
    ensures StatusValueOf(StatusName(s)) == Some(s)
  {
  }

  /** The service-level user (`model/UserPlanifika`). */
  datatype UserPlanifika = UserPlanifika(
    idUser: Option<int>,
    name: Option<string>,
    email: Option<string>,
    password: Option<string>,
    photoUrl: Option<string>,
    idUserStatus: Option<int>,
    idUserType: Option<int>,
    idOrganization: Option<int>,
    supabaseUserId: Option<string>)

  /** `new UserPlanifika()`: every field null. */
  const BlankUser := UserPlanifika(None, None, None, None, None, None, None, None, None)

  /** The table row (`dto/DtoUser`); its key is a primitive `int`. */
  datatype DtoUser = DtoUser(
    idUser: int,
    name: Option<string>,
    photoUrl: Option<string>,
    idUserStatus: Option<int>,
    idUserType: Option<int>,
    idOrganization: Option<int>,
    supabaseUserId: Option<Uuid>)

  /** Subject id text that `UUID.fromString` rejects. */
  predicate BadSubjectText(t: Option<string>) {
    t.Some? && !WellFormed(t.value)
  }

  /** `UserPlanifika.toDtoUser()`. The id is unboxed into an `int` before the
      subject id is parsed, so a null id fails first. */
  function ToDtoUser(u: UserPlanifika): (r: Result<DtoUser>)
    ensures r.Err? <==> u.idUser.None? || BadSubjectText(u.supabaseUserId)
    ensures u.idUser.None? ==> r.Err? && r.error.kind == NullPointer
    ensures u.idUser.Some? && BadSubjectText(u.supabaseUserId) ==> r.Err? && r.error.kind == IllegalArgument
    ensures r.Ok? ==> && r.value.idUser == u.idUser.value
                      && r.value.name == u.name
                      && r.value.photoUrl == u.photoUrl
                      && r.value.idUserStatus == u.idUserStatus
                      && r.value.idUserType == u.idUserType
                      && r.value.idOrganization == u.idOrganization
    ensures r.Ok? ==> (r.value.supabaseUserId.None? <==> u.supabaseUserId.None?)
    ensures r.Ok? && u.supabaseUserId.Some? ==> Parse(u.supabaseUserId.value) == r.value.supabaseUserId
  {
    if u.idUser.None? then Err(Error(NullPointer, ""))
    else
      var subject :=
        match u.supabaseUserId
        case None => Ok(None)
        case Some(t) =>
          match Parse(t)
          case None => Err(Error(IllegalArgument, ""))
          case Some(id) => Ok(Some(id));
      match subject
      case Err(e) => Err(e)
      case Ok(id) =>
        Ok(DtoUser(u.idUser.value, u.name, u.photoUrl, u.idUserStatus, u.idUserType, u.idOrganization, id))
  }

  /** `DtoUser.toUserPlanifika()`. */
  function ToUserPlanifika(d: DtoUser): (u: UserPlanifika)
    ensures u.idUser == Some(d.idUser)
    ensures u.name == d.name && u.photoUrl == d.photoUrl
    ensures u.idUserStatus == d.idUserStatus && u.idUserType == d.idUserType
    ensures u.idOrganization == d.idOrganization
    ensures u.email.None? && u.password.None?
    ensures d.supabaseUserId.None? <==> u.supabaseUserId.None?
    ensures d.supabaseUserId.Some? ==> u.supabaseUserId == Some(ToString(d.supabaseUserId.value))
  {
    UserPlanifika(Some(d.idUser), d.name, None, None, d.photoUrl, d.idUserStatus, d.idUserType, d.idOrganization,
                  match d.supabaseUserId case None => None case Some(id) => Some(ToString(id)))
  }

  /** A row read back as a user converts to exactly the same row. */
  lemma DtoRoundTrip(d: DtoUser)
    ensures ToDtoUser(ToUserPlanifika(d)) == Ok(d)
  {
    if d.supabaseUserId.Some? {
      ParseToString(d.supabaseUserId.value);
    }
  }

  /** A user with an id and a canonical (or null) subject id survives the trip
      through the table, losing only its email and password. */
  lemma UserRoundTrip(u: UserPlanifika)
    requires u.idUser.Some?
    requires u.supabaseUserId.Some? ==> Canonical(u.supabaseUserId.value)
    ensures ToDtoUser(u).Ok?
    ensures ToUserPlanifika(ToDtoUser(u).value) == u.(email := None, password := None)
  {
    if u.supabaseUserId.Some? {
      ToStringParse(u.supabaseUserId.value);
    }
  }

  /** The mutable `UserPlanifika` object: each setter writes its own field. */
  class UserPlanifikaEntity {
    var idUser: Option<int>
    var name: Option<string>
    var email: Option<string>
    var password: Option<string>
    var photoUrl: Option<string>
    var idUserStatus: Option<int>
    var idUserType: Option<int>
    var idOrganization: Option<int>
    var supabaseUserId: Option<string>

    /** The record the object currently holds. */
    function Value(): UserPlanifika
      reads this
    {
      UserPlanifika(idUser, name, email, password, photoUrl, idUserStatus, idUserType, idOrganization, supabaseUserId)
    }

    constructor ()
      ensures Value() == BlankUser
    {
      idUser, name, email, password, photoUrl := None, None, None, None, None;
      idUserStatus, idUserType, idOrganization, supabaseUserId := None, None, None, None;
    }

    function GetIdUser(): Option<int> reads this { idUser }
    function GetName(): Option<string> reads this { name }
    function GetEmail(): Option<string> reads this { email }
    function GetPassword(): Option<string> reads this { password }
    function GetPhotoUrl(): Option<string> reads this { photoUrl }
    function GetIdUserStatus(): Option<int> reads this { idUserStatus }
    function GetIdUserType(): Option<int> reads this { idUserType }
    function GetIdOrganization(): Option<int> reads this { idOrganization }
    function GetSupabaseUserId(): Option<string> reads this { supabaseUserId }

    method SetIdUser(v: Option<int>)
      modifies this
      ensures GetIdUser() == v && Value() == old(Value()).(idUser := v)
    {
      idUser := v;
    }

    method SetName(v: Option<string>)
      modifies this
      ensures GetName() == v && Value() == old(Value()).(name := v)
    {
      name := v;
    }

    method SetEmail(v: Option<string>)
      modifies this
      ensures GetEmail() == v && Value() == old(Value()).(email := v)
    {
      email := v;
    }

    method SetPassword(v: Option<string>)
      modifies this
      ensures GetPassword() == v && Value() == old(Value()).(password := v)
    {
      password := v;
    }

    method SetPhotoUrl(v: Option<string>)
      modifies this
      ensures GetPhotoUrl() == v && Value() == old(Value()).(photoUrl := v)
    {
      photoUrl := v;
    }

    method SetIdUserStatus(v: Option<int>)
      modifies this
      ensures GetIdUserStatus() == v && Value() == old(Value()).(idUserStatus := v)
    {
      idUserStatus := v;
    }

    method SetIdUserType(v: Option<int>)
      modifies this
      ensures GetIdUserType() == v && Value() == old(Value()).(idUserType := v)
    {
      idUserType := v;
    }

    method SetIdOrganization(v: Option<int>)
      modifies this
      ensures GetIdOrganization() == v && Value() == old(Value()).(idOrganization := v)
    {
      idOrganization := v;
    }

    method SetSupabaseUserId(v: Option<string>)
      modifies this
      ensures GetSupabaseUserId() == v && Value() == old(Value()).(supabaseUserId := v)
    {
      supabaseUserId := v;
    }
  }

  /** The mutable `DtoUser` object: each setter writes its own field. */
  class DtoUserEntity {
    var idUser: int
    var name: Option<string>
    var photoUrl: Option<string>
    var idUserStatus: Option<int>
    var idUserType: Option<int>
    var idOrganization: Option<int>
    var supabaseUserId: Option<Uuid>

    /** The row the object currently holds. */
    function Value(): DtoUser
      reads this
    {
      DtoUser(idUser, name, photoUrl, idUserStatus, idUserType, idOrganization, supabaseUserId)
    }

    constructor ()
      ensures Value() == DtoUser(0, None, None, None, None, None, None)
    {
      idUser, name, photoUrl := 0, None, None;
      idUserStatus, idUserType, idOrganization, supabaseUserId := None, None, None, None;
    }

    function GetIdUser(): int reads this { idUser }
    function GetName(): Option<string> reads this { name }
    function GetPhotoUrl(): Option<string> reads this { photoUrl }
    function GetIdUserStatus(): Option<int> reads this { idUserStatus }
    function GetIdUserType(): Option<int> reads this { idUserType }
    function GetIdOrganization(): Option<int> reads this { idOrganization }
    function GetSupabaseUserId(): Option<Uuid> reads this { supabaseUserId }

    method SetIdUser(v: int)
      modifies this
      ensures GetIdUser() == v && Value() == old(Value()).(idUser := v)
    {
      idUser := v;
    }

    method SetName(v: Option<string>)
      modifies this
      ensures GetName() == v && Value() == old(Value()).(name := v)
    {
      name := v;
    }

    method SetPhotoUrl(v: Option<string>)
      modifies this
      ensures GetPhotoUrl() == v && Value() == old(Value()).(photoUrl := v)
    {
      photoUrl := v;
    }

    method SetIdUserStatus(v: Option<int>)
      modifies this
      ensures GetIdUserStatus() == v && Value() == old(Value()).(idUserStatus := v)
    {
      idUserStatus := v;
    }

    method SetIdUserType(v: Option<int>)
      modifies this
      ensures GetIdUserType() == v && Value() == old(Value()).(idUserType := v)
    {
      idUserType := v;
    }

    method SetIdOrganization(v: Option<int>)
      modifies this
      ensures GetIdOrganization() == v && Value() == old(Value()).(idOrganization := v)
    {
      idOrganization := v;
    }

    method SetSupabaseUserId(v: Option<Uuid>)
      modifies this
      ensures GetSupabaseUserId() == v && Value() == old(Value()).(supabaseUserId := v)
    {
      supabaseUserId := v;
    }
  }
}
