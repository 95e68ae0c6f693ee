/** `UserService`: create, read and status changes over the `userplanifika`
    table, whose rows are `DtoUser` values keyed by their id. */
module Users {
  import opened Common
  import opened Uuids
  import opened Tables
  import opened UserRecords

  /** The largest of `keys`, or 0 for none. */
  function MaxKey(keys: seq<int>): (m: int)
    ensures forall x :: x in keys ==> x <= m
  {
    if keys == [] then 0
    else
      var rest := MaxKey(keys[1..]);
      assert forall x :: x in keys ==> x == keys[0] || x in keys[1..];
      if keys[0] > rest then keys[0] else rest
  }

  /** The message of UserService.java line 47. */
  function UserNotFoundMessage(id: int): string {
    "Usuario no encontrado con id: " + IntText(id)
  }

  class UserService {
    /** The repository: rows by `iduser`, in the order `findAll` lists them. */
    var table: Table<DtoUser>

    /** `status.hashCode()`: a JVM identity hash of the enum constant, which
        this model leaves uninterpreted. */
    const statusHash: UserStatusEnum -> int

    /** The table is well formed and every row sits under its own id. */
    ghost predicate Valid()
      reads this
    {
      table.Valid() && forall k :: k in table.rows ==> table.rows[k].idUser == k
    }

    constructor (statusHash: UserStatusEnum -> int)
      ensures Valid() && table == EmptyTable() && this.statusHash == statusHash
    {
      table := EmptyTable();
      this.statusHash := statusHash;
    }

    /** `findAll()`: one converted user per row, in listing order. */
    method FindAll() returns (users: seq<UserPlanifika>)
      requires Valid()
      ensures |users| == |table.order| == |table.rows|
      ensures forall i :: 0 <= i < |users| ==> users[i] == ToUserPlanifika(table.rows[table.order[i]])
      ensures forall i :: 0 <= i < |users| ==> ToDtoUser(users[i]) == Ok(table.rows[table.order[i]])
    {
      var rows := table.Values();
      table.ListsEveryRow();
      users := [];
      var i := 0;
      while i < |rows|
        invariant 0 <= i <= |rows|
        invariant |users| == i
        invariant forall j :: 0 <= j < i ==> users[j] == ToUserPlanifika(rows[j])
      {
        users := users + [ToUserPlanifika(rows[i])];
        i := i + 1;
      }
      forall i | 0 <= i < |users| ensures ToDtoUser(users[i]) == Ok(table.rows[table.order[i]]) {
        DtoRoundTrip(rows[i]);
      }
    }

    /** `findById(id)`: the stored row as a user, or empty. */
    function FindById(id: int): (r: Option<UserPlanifika>)
      reads this
      requires Valid()
      ensures r.None? <==> id !in table.rows
      ensures r.Some? ==> r.value.idUser == Some(id) && ToDtoUser(r.value) == Ok(table.rows[id])
      ensures r.Some? ==> r.value.email.None? && r.value.password.None?
    {
      if id in table.rows then
        DtoRoundTrip(table.rows[id]);
        Some(ToUserPlanifika(table.rows[id]))
      else None
    }

    /** `save(user)`: store the converted row under its id and return it read back. */
    method Save(u: UserPlanifika) returns (r: Result<UserPlanifika>)
      requires Valid()
      modifies this
      ensures Valid()
      ensures ToDtoUser(u).Err? ==> r == Err(ToDtoUser(u).error) && table == old(table)
      ensures ToDtoUser(u).Ok? ==>
        var d := ToDtoUser(u).value;
        table == old(table).Put(d.idUser, d) && r == Ok(ToUserPlanifika(d))
    {
      var converted := ToDtoUser(u);
      match converted
      case Err(e) =>
        r := Err(e);
      case Ok(d) =>
        table := table.Put(d.idUser, d);
        r := Ok(ToUserPlanifika(d));
    }

    /** `updateStatus(userId, statusName)`. The id is looked up before the
        name is read; the name is upper-cased and must name an enum constant. */
    method UpdateStatus(userId: int, statusName: Option<string>) returns (r: Result<UserPlanifika>)
      requires Valid()
      modifies this
      ensures Valid()
      ensures userId !in old(table.rows) ==>
        r == Err(Error(NotFound, UserNotFoundMessage(userId))) && table == old(table)
      ensures userId in old(table.rows) && statusName.None? ==>
        r.Err? && r.error.kind == NullPointer && table == old(table)
      ensures userId in old(table.rows) && statusName.Some? && StatusValueOf(ToUpper(statusName.value)).None? ==>
        r == Err(Error(IllegalArgument, "Estado inválido: " + statusName.value)) && table == old(table)
      ensures userId in old(table.rows) && statusName.Some? && StatusValueOf(ToUpper(statusName.value)).Some? ==>
        var row := old(table.rows[userId]).(idUserStatus := Some(statusHash(StatusValueOf(ToUpper(statusName.value)).value)));
        table == old(table).Put(userId, row) && r == Ok(ToUserPlanifika(row))
    {
      var found := table.Get(userId);
      if found.None? {
        return Err(Error(NotFound, UserNotFoundMessage(userId)));
      }
      var user := ToUserPlanifika(found.value);
      if statusName.None? {
        return Err(Error(NullPointer, ""));
      }
      var status := StatusValueOf(ToUpper(statusName.value));
      if status.None? {
        return Err(Error(IllegalArgument, "Estado inválido: " + statusName.value));
      }
      user := user.(idUserStatus := Some(statusHash(status.value)));
      DtoRoundTrip(found.value.(idUserStatus := Some(statusHash(status.value))));
      r := Save(user);
    }

    /** `delete(id)`: a soft delete that rewrites the status of an existing
        row and silently ignores a missing one. */
    method Delete(id: int)
      requires Valid()
      modifies this
      ensures Valid()
      ensures id !in old(table.rows) ==> table == old(table)
      ensures id in old(table.rows) ==>
        table == old(table).Put(id, old(table.rows[id]).(idUserStatus := Some(statusHash(DELETED))))
    {
      var found := table.Get(id);
      if found.Some? {
        var user := ToUserPlanifika(found.value).(idUserStatus := Some(statusHash(DELETED)));
        DtoRoundTrip(found.value.(idUserStatus := Some(statusHash(DELETED))));
        var _ := Save(user);
      }
    }

    /** Insert a user the database has not numbered yet, under a fresh id, as
        an identity column would. `UserService.save` has no such branch; this
        is the behaviour `SIUAuthService` needs when it creates a user. */
    method Insert(u: UserPlanifika) returns (r: Result<UserPlanifika>)
      requires Valid()
      requires u.idUser.None?
      modifies this
      ensures Valid()
      ensures BadSubjectText(u.supabaseUserId) ==> r.Err? && table == old(table)
      ensures !BadSubjectText(u.supabaseUserId) ==>
        exists id ::
          && id !in old(table.rows)
          && ToDtoUser(u.(idUser := Some(id))).Ok?
          && table == old(table).Put(id, ToDtoUser(u.(idUser := Some(id))).value)
          && r == Ok(ToUserPlanifika(ToDtoUser(u.(idUser := Some(id))).value))
    {
      var id := MaxKey(table.order) + 1;
      assert id !in table.rows;
      r := Save(u.(idUser := Some(id)));
    }
  }

  /** The not-found message names the id it looked for, so two different
      ids never produce the same message. */
  lemma UserNotFoundNamesId(a: int, b: int)
    requires UserNotFoundMessage(a) == UserNotFoundMessage(b)
    ensures a == b
  {
    PrefixedIntTextInjective("Usuario no encontrado con id: ", a, b);
  }
}
