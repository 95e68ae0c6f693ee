/** `TicketService`: support tickets and their status catalog, two tables
    with identity-generated ids. */
module Tickets {
  import opened Common
  import opened Tables

  /** A row of `ticketsupport`. The service always stores a status id. */
  datatype TicketSupport = TicketSupport(
    idTickets: int,
    idPlanifikaUser: Option<int>,
    idTicketStatus: int,
    title: Option<string>,
    description: Option<string>,
    answer: Option<string>,
    idDrimsoftUser: Option<int>)

  /** A row of `ticketstatus`. */
  datatype TicketStatus = TicketStatus(idTicketStatus: int, name: Option<string>)

  /** `TicketResponse`: a ticket with the name of its status. */
  datatype TicketResponse = TicketResponse(
    idTickets: int,
    idPlanifikaUser: Option<int>,
    idTicketStatus: int,
    ticketStatusName: Option<string>,
    title: Option<string>,
    description: Option<string>,
    answer: Option<string>,
    idDrimsoftUser: Option<int>)

  /** The fields `createTicket` reads from its request. */
  datatype CreateTicketRequest = CreateTicketRequest(
    idPlanifikaUser: Option<int>, title: Option<string>, description: Option<string>)

  /** The fields `updateTicket` reads from its request; null ones are left alone. */
  datatype UpdateTicketRequest = UpdateTicketRequest(
    idTicketStatus: Option<int>, answer: Option<string>, idDrimsoftUser: Option<int>)

  const Pending := "PENDING"

  function TicketNotFound(id: int): Error {
    Error(NotFound, "Ticket not found with id: " + IntText(id))
  }

  /** The not-found error names the ticket id it looked for. */
  lemma TicketNotFoundNamesId(a: int, b: int)
    requires TicketNotFound(a) == TicketNotFound(b)
    ensures a == b
  {
    PrefixedIntTextInjective("Ticket not found with id: ", a, b);
  }

  /** `mapToResponse(ticket, status)`: every ticket field, and the status's
      name when there is a status. */
  function Respond(t: TicketSupport, status: Option<TicketStatus>): (r: TicketResponse)
    ensures r.idTickets == t.idTickets && r.idPlanifikaUser == t.idPlanifikaUser
    ensures r.idTicketStatus == t.idTicketStatus
    ensures r.title == t.title && r.description == t.description
    ensures r.answer == t.answer && r.idDrimsoftUser == t.idDrimsoftUser
    ensures status.None? ==> r.ticketStatusName.None?
    ensures status.Some? ==> r.ticketStatusName == status.value.name
  {
    TicketResponse(t.idTickets, t.idPlanifikaUser, t.idTicketStatus,
                   if status.Some? then status.value.name else None,
                   t.title, t.description, t.answer, t.idDrimsoftUser)
  }

  /** `mapToResponse(ticket)`: the status is looked up by the ticket's status id. */
  function RespondIn(statuses: Table<TicketStatus>, t: TicketSupport): (r: TicketResponse)
    ensures r == Respond(t, statuses.Get(t.idTicketStatus))
    ensures t.idTicketStatus !in statuses.rows ==> r.ticketStatusName.None?
  {
    Respond(t, statuses.Get(t.idTicketStatus))
  }

  /** Each listed ticket has the response `RespondIn` gives it. */
  function Responses(statuses: Table<TicketStatus>, ts: seq<TicketSupport>): (r: seq<TicketResponse>)
    ensures |r| == |ts|
    ensures forall i :: 0 <= i < |ts| ==> r[i] == RespondIn(statuses, ts[i])
  {
    MapSeq(ts, (t: TicketSupport) => RespondIn(statuses, t))
  }

  /** Responding keeps tickets with different ids apart. */
  lemma ResponsesKeepIds(statuses: Table<TicketStatus>, ts: seq<TicketSupport>)
    requires forall i, j :: 0 <= i < j < |ts| ==> ts[i].idTickets != ts[j].idTickets
    ensures forall i, j :: 0 <= i < j < |Responses(statuses, ts)| ==>
      Responses(statuses, ts)[i].idTickets != Responses(statuses, ts)[j].idTickets
  {
  }

  predicate IsPending(s: TicketStatus) {
    s.name == Some(Pending)
  }

  /** A status table whose rows sit under their own ids. */
  ghost predicate StatusTable(t: Table<TicketStatus>) {
    t.Valid() && forall k :: k in t.rows ==> t.rows[k].idTicketStatus == k
  }

  /** At most one stored status is named PENDING. */
  ghost predicate OnePending(t: Table<TicketStatus>) {
    forall k1, k2 :: k1 in t.rows && k2 in t.rows && IsPending(t.rows[k1]) && IsPending(t.rows[k2]) ==> k1 == k2
  }

  /** `ticketStatusRepository.findByName("PENDING")`: the status of that name,
      none, or `IncorrectResultSizeDataAccessException` when two share it. */
  function FindPending(t: Table<TicketStatus>): (r: Result<Option<TicketStatus>>)
    requires StatusTable(t)
    ensures r.Ok? && r.value.Some? ==>
      var s := r.value.value;
      IsPending(s) && s.idTicketStatus in t.rows && t.rows[s.idTicketStatus] == s
    ensures r == Ok(None) <==> forall k :: k in t.rows ==> !IsPending(t.rows[k])
    ensures r.Err? <==> !OnePending(t)
    ensures r.Err? ==> r.error == Error(IncorrectResultSize, "")
  {
    var vs := t.Values();
    var r := SingleResult(vs, IsPending);
    NoneListedPending(t);
    TwoListedPending(t);
    if r.Ok? && r.value.Some? then
      var i :| 0 <= i < |vs| && vs[i] == r.value.value && IsPending(vs[i]);
      assert t.order[i] in t.rows;
      r
    else r
  }

  /** Every stored status is listed at some position. */
  lemma ListedAt(t: Table<TicketStatus>, k: int) returns (i: int)
    requires t.Valid() && k in t.rows
    ensures 0 <= i < |t.order| && t.order[i] == k && t.Values()[i] == t.rows[k]
  {
    i :| 0 <= i < |t.order| && t.order[i] == k;
  }

  /** No status is listed as PENDING exactly when none is stored as PENDING. */
  lemma NoneListedPending(t: Table<TicketStatus>)
    requires t.Valid()
    ensures (forall i :: 0 <= i < |t.Values()| ==> !IsPending(t.Values()[i])) <==>
            (forall k :: k in t.rows ==> !IsPending(t.rows[k]))
  {
    forall k | k in t.rows && forall i :: 0 <= i < |t.Values()| ==> !IsPending(t.Values()[i])
      ensures !IsPending(t.rows[k])
    {
      var i := ListedAt(t, k);
    }
  }

  /** Two positions list PENDING exactly when two stored statuses are PENDING. */
  lemma TwoListedPending(t: Table<TicketStatus>)
    requires t.Valid()
    ensures (exists i, j :: 0 <= i < j < |t.Values()| && IsPending(t.Values()[i]) && IsPending(t.Values()[j])) <==>
            !OnePending(t)
  {
    var vs := t.Values();
    if !OnePending(t) {
      var k1, k2 :| k1 in t.rows && k2 in t.rows && IsPending(t.rows[k1]) && IsPending(t.rows[k2]) && k1 != k2;
      var i1 := ListedAt(t, k1);
      var i2 := ListedAt(t, k2);
      if i1 < i2 {
        assert 0 <= i1 < i2 < |vs| && IsPending(vs[i1]) && IsPending(vs[i2]);
      } else {
        assert 0 <= i2 < i1 < |vs| && IsPending(vs[i2]) && IsPending(vs[i1]);
      }
    }
    if exists i, j :: 0 <= i < j < |vs| && IsPending(vs[i]) && IsPending(vs[j]) {
      var i, j :| 0 <= i < j < |vs| && IsPending(vs[i]) && IsPending(vs[j]);
      assert t.order[i] != t.order[j] && t.order[i] in t.rows && t.order[j] in t.rows;
    }
  }

  /** After the first ticket creates it, the PENDING status is what
      `findByName` answers, so later tickets reuse it. */
  lemma {:induction false} CreatedPendingIsFound(t: Table<TicketStatus>, k: int)
    requires StatusTable(t) && FindPending(t) == Ok(None) && k !in t.rows
    ensures StatusTable(t.Put(k, TicketStatus(k, Some(Pending))))
    ensures OnePending(t.Put(k, TicketStatus(k, Some(Pending))))
    ensures FindPending(t.Put(k, TicketStatus(k, Some(Pending)))) == Ok(Some(TicketStatus(k, Some(Pending))))
  {
    var t' := t.Put(k, TicketStatus(k, Some(Pending)));
    assert StatusTable(t');
    assert OnePending(t');
    var r := FindPending(t');
    assert r.value.Some? by {
      assert k in t'.rows && IsPending(t'.rows[k]);
    }
    assert r.value.value.idTicketStatus == k;
  }

  /** A ticket table whose rows sit under their own ids. */
  ghost predicate TicketTable(t: Table<TicketSupport>) {
    t.Valid() && forall k :: k in t.rows ==> t.rows[k].idTickets == k
  }

  /** The stored tickets that satisfy `p`, each answered once, in listing order. */
  function ResponsesWhere(tickets: Table<TicketSupport>, statuses: Table<TicketStatus>,
                          p: TicketSupport -> bool): (r: seq<TicketResponse>)
    requires TicketTable(tickets)
    ensures forall i :: 0 <= i < |r| ==>
      exists k :: k in tickets.rows && p(tickets.rows[k]) && r[i] == RespondIn(statuses, tickets.rows[k])
    ensures forall k :: k in tickets.rows && p(tickets.rows[k]) ==> RespondIn(statuses, tickets.rows[k]) in r
    ensures forall i, j :: 0 <= i < j < |r| ==> r[i].idTickets != r[j].idTickets
  {
    var listed := tickets.Values();
    var chosen := Filter(listed, p);
    var r := Responses(statuses, chosen);
    forall k | k in tickets.rows && p(tickets.rows[k]) ensures RespondIn(statuses, tickets.rows[k]) in r {
      tickets.ListsRow(k);
      var j :| 0 <= j < |chosen| && chosen[j] == tickets.rows[k];
      assert r[j] == RespondIn(statuses, tickets.rows[k]);
    }
    forall i | 0 <= i < |r|
      ensures exists k :: k in tickets.rows && p(tickets.rows[k]) && r[i] == RespondIn(statuses, tickets.rows[k])
    {
      var j :| 0 <= j < |listed| && listed[j] == chosen[i];
      var k := tickets.order[j];
      assert k in tickets.rows && p(tickets.rows[k]) && r[i] == RespondIn(statuses, tickets.rows[k]);
    }
    ChosenTicketsDistinct(tickets, p);
    ResponsesKeepIds(statuses, chosen);
    r
  }

  /** In a table whose tickets sit under their own ids, the tickets that satisfy
      `p` carry pairwise different ids. */
  lemma ChosenTicketsDistinct(tickets: Table<TicketSupport>, p: TicketSupport -> bool)
    requires TicketTable(tickets)
    ensures forall i, j :: 0 <= i < j < |Filter(tickets.Values(), p)| ==>
      Filter(tickets.Values(), p)[i].idTickets != Filter(tickets.Values(), p)[j].idTickets
  {
    var listed := tickets.Values();
    var id := (t: TicketSupport) => t.idTickets;
    forall i, j | 0 <= i < j < |listed| ensures id(listed[i]) != id(listed[j]) {
      assert id(listed[i]) == tickets.order[i] && id(listed[j]) == tickets.order[j];
    }
    FilterKeepsDistinct(listed, p, id);
  }

  class TicketService {
    var tickets: Table<TicketSupport>
    var statuses: Table<TicketStatus>
    var nextTicketId: int
    var nextStatusId: int

    /** Both tables are well formed and every row sits under its own id,
        below its identity counter. */
    ghost predicate Valid()
      reads this
    {
      && TicketTable(tickets)
      && (forall k :: k in tickets.rows ==> k < nextTicketId)
      && StatusTable(statuses)
      && OnePending(statuses)
      && (forall k :: k in statuses.rows ==> k < nextStatusId)
    }

    constructor ()
      ensures Valid() && tickets == EmptyTable() && statuses == EmptyTable()
    {
      tickets, statuses := EmptyTable(), EmptyTable();
      nextTicketId, nextStatusId := 1, 1;
    }

    /** TicketService.java lines 31-36: the PENDING status, created and saved only when none exists. */
    method PendingStatus() returns (status: TicketStatus)
      requires Valid()
      modifies this
      ensures Valid()
      ensures tickets == old(tickets) && nextTicketId == old(nextTicketId)
      ensures FindPending(statuses) == Ok(Some(status))
      ensures FindPending(old(statuses)) != Ok(None) ==>
        FindPending(old(statuses)) == Ok(Some(status)) && statuses == old(statuses) && nextStatusId == old(nextStatusId)
      ensures FindPending(old(statuses)) == Ok(None) ==>
        && status == TicketStatus(old(nextStatusId), Some(Pending))
        && statuses == old(statuses).Put(old(nextStatusId), status)
        && nextStatusId == old(nextStatusId) + 1
    {
      var pending := FindPending(statuses);
      if pending != Ok(None) {
        status := pending.value.value;
      } else {
        status := TicketStatus(nextStatusId, Some(Pending));
        CreatedPendingIsFound(statuses, nextStatusId);
        statuses := statuses.Put(nextStatusId, status);
        nextStatusId := nextStatusId + 1;
      }
    }

    /** `createTicket(request)`: the ticket is filed under the PENDING status,
        with no answer and no assigned Drimsoft user. */
    method CreateTicket(request: CreateTicketRequest) returns (r: TicketResponse)
      requires Valid()
      modifies this
      ensures Valid()
      ensures FindPending(statuses).Ok? && FindPending(statuses).value.Some?
      ensures FindPending(old(statuses)) != Ok(None) ==>
        statuses == old(statuses) && nextStatusId == old(nextStatusId)
      ensures FindPending(old(statuses)) == Ok(None) ==>
        && statuses == old(statuses).Put(old(nextStatusId), TicketStatus(old(nextStatusId), Some(Pending)))
        && nextStatusId == old(nextStatusId) + 1
      ensures nextTicketId == old(nextTicketId) + 1
      ensures tickets == old(tickets).Put(old(nextTicketId), TicketSupport(
        old(nextTicketId), request.idPlanifikaUser, FindPending(statuses).value.value.idTicketStatus,
        request.title, request.description, None, None))
      ensures r == Respond(tickets.rows[old(nextTicketId)], FindPending(statuses).value)
      ensures r.ticketStatusName == Some(Pending)
    {
      var status := PendingStatus();
      var ticket := TicketSupport(nextTicketId, request.idPlanifikaUser, status.idTicketStatus,
                                  request.title, request.description, None, None);
      tickets := tickets.Put(nextTicketId, ticket);
      nextTicketId := nextTicketId + 1;
      r := Respond(ticket, Some(status));
    }

    /** `getAllTickets()`: one response per stored ticket, in listing order. */
    function GetAllTickets(): (r: seq<TicketResponse>)
      reads this
      requires Valid()
      ensures |r| == |tickets.order| == |tickets.rows|
      ensures forall i :: 0 <= i < |r| ==> r[i] == RespondIn(statuses, tickets.rows[tickets.order[i]])
    {
      tickets.ListsEveryRow();
      Responses(statuses, tickets.Values())
    }

    /** `getTicketById(id)`. */
    function GetTicketById(id: int): (r: Result<TicketResponse>)
      reads this
      requires Valid()
      ensures r.Err? <==> id !in tickets.rows
      ensures r.Err? ==> r.error == TicketNotFound(id)
      ensures r.Ok? ==> r.value == RespondIn(statuses, tickets.rows[id]) && r.value.idTickets == id
    {
      if id in tickets.rows then Ok(RespondIn(statuses, tickets.rows[id])) else Err(TicketNotFound(id))
    }

    /** `getTicketsByPlanifikaUser(userId)`: exactly the tickets of that user,
        each once. */
    function GetTicketsByPlanifikaUser(userId: Option<int>): (r: seq<TicketResponse>)
      reads this
      requires Valid()
      ensures forall i :: 0 <= i < |r| ==> r[i].idPlanifikaUser == userId
      ensures forall k :: k in tickets.rows && tickets.rows[k].idPlanifikaUser == userId ==>
        RespondIn(statuses, tickets.rows[k]) in r
      ensures forall i :: 0 <= i < |r| ==> exists k :: k in tickets.rows && r[i] == RespondIn(statuses, tickets.rows[k])
      ensures forall i, j :: 0 <= i < j < |r| ==> r[i].idTickets != r[j].idTickets
    {
      ResponsesWhere(tickets, statuses, (t: TicketSupport) => t.idPlanifikaUser == userId)
    }

    /** `getTicketsByStatus(statusId)`: exactly the tickets in that status,
        each once. */
    function GetTicketsByStatus(statusId: Option<int>): (r: seq<TicketResponse>)
      reads this
      requires Valid()
      ensures forall i :: 0 <= i < |r| ==> Some(r[i].idTicketStatus) == statusId
      ensures forall k :: k in tickets.rows && Some(tickets.rows[k].idTicketStatus) == statusId ==>
        RespondIn(statuses, tickets.rows[k]) in r
      ensures forall i :: 0 <= i < |r| ==> exists k :: k in tickets.rows && r[i] == RespondIn(statuses, tickets.rows[k])
      ensures forall i, j :: 0 <= i < j < |r| ==> r[i].idTickets != r[j].idTickets
    {
      ResponsesWhere(tickets, statuses, (t: TicketSupport) => Some(t.idTicketStatus) == statusId)
    }

    /** `updateTicket(id, request)`: overwrite status, answer and Drimsoft user
        where the request gives a value; nothing else changes. */
    method UpdateTicket(id: int, request: UpdateTicketRequest) returns (r: Result<TicketResponse>)
      requires Valid()
      modifies this
      ensures Valid()
      ensures statuses == old(statuses) && nextTicketId == old(nextTicketId) && nextStatusId == old(nextStatusId)
      ensures id !in old(tickets.rows) ==> r == Err(TicketNotFound(id)) && tickets == old(tickets)
      ensures id in old(tickets.rows) ==>
        var before := old(tickets.rows[id]);
        && tickets.order == old(tickets.order)
        && tickets.rows.Keys == old(tickets.rows.Keys)
        && (forall k :: k in tickets.rows && k != id ==> tickets.rows[k] == old(tickets.rows[k]))
        && var after := tickets.rows[id];
        && after.idTickets == before.idTickets && after.idPlanifikaUser == before.idPlanifikaUser
        && after.title == before.title && after.description == before.description
        && after.idTicketStatus == (if request.idTicketStatus.Some? then request.idTicketStatus.value else before.idTicketStatus)
        && after.answer == (if request.answer.Some? then request.answer else before.answer)
        && after.idDrimsoftUser == (if request.idDrimsoftUser.Some? then request.idDrimsoftUser else before.idDrimsoftUser)
        && r == Ok(RespondIn(statuses, after))
    {
      var found := tickets.Get(id);
      if found.None? {
        return Err(TicketNotFound(id));
      }
      var ticket := found.value;
      if request.idTicketStatus.Some? {
        ticket := ticket.(idTicketStatus := request.idTicketStatus.value);
      }
      if request.answer.Some? {
        ticket := ticket.(answer := request.answer);
      }
      if request.idDrimsoftUser.Some? {
        ticket := ticket.(idDrimsoftUser := request.idDrimsoftUser);
      }
      tickets := tickets.Put(id, ticket);
      r := Ok(RespondIn(statuses, ticket));
    }

    /** `deleteTicket(id)`: remove an existing ticket, or fail with NotFound. */
    method DeleteTicket(id: int) returns (r: Outcome)
      requires Valid()
      modifies this
      ensures Valid()
      ensures statuses == old(statuses) && nextTicketId == old(nextTicketId) && nextStatusId == old(nextStatusId)
      ensures id !in old(tickets.rows) ==> r == Fail(TicketNotFound(id)) && tickets == old(tickets)
      ensures id in old(tickets.rows) ==> r == Pass && tickets == old(tickets).Remove(id)
      ensures tickets.rows == old(tickets.rows) - {id}
      ensures GetTicketById(id) == Err(TicketNotFound(id))
    {
      if id !in tickets.rows {
        return Fail(TicketNotFound(id));
      }
      tickets := tickets.Remove(id);
      r := Pass;
    }
  }
}
