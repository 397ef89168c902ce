/** The ticket controllers: listing with filter and pagination totals, creation under a
    project, and the owner-or-role policies of update and delete. Database calls go through
    the collection functions of TicketStore; a runtime exception inside a handler's `try` is
    forwarded with `next(error)` (`Raised`). */
module Tickets {
  import opened Common
  import opened TicketStore

  /** How a handler ends: `res.status(s).json(...)`, `next(new ErrorResponse(...))`, or
      `next(error)` for an exception raised inside the `try`. */
  datatype Reply<T> = Sent(status: int, data: T) | Reject(err: ErrorResponse) | Raised

  /** The JSON body of a ticket listing. */
  datatype TicketsPage = TicketsPage(page: nat, limit: nat, count: nat, total: nat, totalPages: nat, data: seq<Ticket>)

  /** Query keys consumed by pagination and by the `user` filter. */
  const REMOVE_FIELDS: seq<string> := ["select", "sort", "limit", "page", "user"]

  const ADMIN: string := "admin"
  const PROJECT_MANAGER: string := "project manager"

  const UNAUTHORIZED: ErrorResponse := ErrorResponse("Unauthorized to delete this ticket", 401)

  function TicketNotFound(id: string): ErrorResponse
  {
    ErrorResponse("Ticket with id " + id + " not found", 404)
  }

  function NoProject(id: string): ErrorResponse
  {
    ErrorResponse("No project with the id " + id, 404)
  }

  function Lookup(q: map<string, string>, key: string): Option<string>
  {
    if key in q then Some(q[key]) else None
  }

  // ---------------------------------------------------------------------------
  // getTickets

  /** The query copy with the pagination and `user` keys deleted. */
  function Stripped(q: map<string, string>): (r: map<string, string>)
    ensures forall k :: k in r <==> k in q && k !in REMOVE_FIELDS
    ensures forall k :: k in r ==> r[k] == q[k]
  {
    map k | k in q && k !in REMOVE_FIELDS :: q[k]
  }

  /** `reqQuery = { ...req.query }` followed by the `delete` loop. */
  method StripQuery(query: map<string, string>) returns (reqQuery: map<string, string>)
    ensures reqQuery == Stripped(query)
  {
    reqQuery := query;
    for i := 0 to |REMOVE_FIELDS|
      invariant forall k :: k in reqQuery <==> k in query && k !in REMOVE_FIELDS[..i]
      invariant forall k :: k in reqQuery ==> reqQuery[k] == query[k]
    {
      reqQuery := reqQuery - {REMOVE_FIELDS[i]};
    }
    assert REMOVE_FIELDS[..|REMOVE_FIELDS|] == REMOVE_FIELDS;
  }

  /** The filter `getTickets` chooses: the route's project first, then `?user=`, then whatever
      remains of the query. */
  function SelectFilter(routeId: Option<string>, query: map<string, string>): (f: Filter)
    ensures Truthy(routeId) ==> f == ByProject(routeId.value)
    ensures !Truthy(routeId) && Truthy(Lookup(query, "user")) ==> f == ByUser(query["user"])
    ensures f.ByFields? <==> !Truthy(routeId) && !Truthy(Lookup(query, "user"))
    ensures f.ByFields? ==> f.conditions == Stripped(query)
    ensures f.ByFields? ==> forall k :: k in f.conditions ==> k in query && k !in REMOVE_FIELDS
  {
    if Truthy(routeId) then ByProject(routeId.value)
    else if Truthy(Lookup(query, "user")) then ByUser(query["user"])
    else ByFields(Stripped(query))
  }

  /** A ticket is listed for `?user=u` exactly when u submitted it or is developing it. */
  lemma UserFilterMeansSubmitterOrDeveloper(u: string, t: Ticket, db: seq<Ticket>)
    ensures t in Find(db, ByUser(u)) <==>
      t in db && (Field(t, "submitter") == Some(u) || Field(t, "developer") == Some(u))
  {
    FindExactly(db, ByUser(u), t);
  }

  /** `Math.ceil(n / d)`. */
  function CeilDiv(n: nat, d: nat): (r: nat)
    requires d > 0
    ensures r * d >= n
    ensures r == 0 || (r - 1) * d < n
  {
    var r := (n + d - 1) / d;
    CeilDivBounds(n, d, r);
    r
  }

  lemma CeilDivBounds(n: nat, d: nat, r: nat)
    requires d > 0 && r == (n + d - 1) / d
    ensures r * d >= n && (r == 0 || (r - 1) * d < n)
  {
    var m := (n + d - 1) % d;
    assert n + d - 1 == r * d + m && 0 <= m < d;
    if r > 0 {
      assert (r - 1) * d == r * d - d;
    }
  }

  /** Only the smallest page count that covers `n` satisfies CeilDiv's contract. */
  lemma CeilDivUnique(n: nat, d: nat, r: nat)
    requires d > 0
    requires r * d >= n && (r == 0 || (r - 1) * d < n)
    ensures r == CeilDiv(n, d)
  {
    var c := CeilDiv(n, d);
    if r < c {
      MulMonotone(r, c - 1, d);
    } else if r > c {
      MulMonotone(c, r - 1, d);
    }
  }

  lemma {:induction false} MulMonotone(a: nat, b: nat, d: nat)
    requires a <= b
    ensures a * d <= b * d
  {
    if a < b {
      MulMonotone(a, b - 1, d);
      assert b * d == (b - 1) * d + d;
    }
  }

  /** `getTickets`. `advancedResults` is not part of this model: its select/sort/skip/limit
      step is the function `paginate`, and the page and limit it reports are inputs. */
  method GetTickets(req: Request, db: seq<Ticket>, paginate: seq<Ticket> -> seq<Ticket>, page: nat, limit: nat)
    returns (reply: Reply<TicketsPage>)
    requires limit > 0
    ensures reply.Sent? && reply.status == 201
    ensures reply.data.data == paginate(Find(db, SelectFilter(req.routeId, req.query)))
    ensures reply.data.count == |reply.data.data|
    ensures reply.data.total == |db|
    ensures reply.data.totalPages * limit >= |db|
    ensures reply.data.totalPages == 0 || (reply.data.totalPages - 1) * limit < |db|
    ensures reply.data.page == page && reply.data.limit == limit
  {
    var reqQuery := StripQuery(req.query);
    var filter: Filter;
    if Truthy(req.routeId) {
      filter := ByProject(req.routeId.value);
    } else if Truthy(Lookup(req.query, "user")) {
      filter := ByUser(req.query["user"]);
    } else {
      filter := ByFields(reqQuery);
    }
    var tickets := paginate(Find(db, filter));
    var total := |db|;   // Ticket.countDocuments() counts the whole collection
    var totalPages := CeilDiv(total, limit);
    reply := Sent(201, TicketsPage(page, limit, |tickets|, total, totalPages, tickets));
  }

  // ---------------------------------------------------------------------------
  // addTicket

  /** `addTicket` on route `/projects/:id/tickets`: the body's `project` and `submitter` are
      overwritten from the route and the caller, then the project must exist. */
  method AddTicket(req: Request, projects: set<string>, db: seq<Ticket>, newId: string)
    returns (reply: Reply<Ticket>, db': seq<Ticket>)
    requires req.routeId.Some?
    modifies req`body
    ensures req.user.None? ==>
      req.body == old(req.body)["project" := req.routeId.value] && reply == Raised && db' == db
    ensures req.user.Some? ==>
      req.body == old(req.body)["project" := req.routeId.value]["submitter" := req.user.value.id]
    ensures req.user.Some? && req.routeId.value !in projects ==>
      reply == Reject(NoProject(req.routeId.value)) && db' == db
    ensures req.user.Some? && req.routeId.value in projects ==>
      && reply == Sent(201, Ticket(newId, req.body))
      && db' == db + [Ticket(newId, req.body)]
      && FieldIs(db'[|db|], "project", req.routeId.value)
      && FieldIs(db'[|db|], "submitter", req.user.value.id)
  {
    var routeId := req.routeId.value;
    req.body := req.body["project" := routeId];
    if req.user.None? {
      return Raised, db;   // `req.user.id` throws
    }
    req.body := req.body["submitter" := req.user.value.id];
    if routeId !in projects {
      return Reject(NoProject(routeId)), db;
    }
    var ticket := Ticket(newId, req.body);
    db' := db + [ticket];
    reply := Sent(201, ticket);
  }

  // ---------------------------------------------------------------------------
  // updateTicket and deleteTicket

  predicate IsStaff(u: UserRecord)
  {
    u.role == ADMIN || u.role == PROJECT_MANAGER
  }

  /** The one policy both handlers apply: the owner named by the document, or staff. */
  predicate OwnerOrStaff(u: UserRecord, owner: Option<string>)
  {
    owner == Some(u.id) || IsStaff(u)
  }

  /** `updateTicket`'s check: with a developer assigned, that developer or staff; without, staff. */
  predicate MayUpdate(u: UserRecord, t: Ticket)
    ensures "developer" in t.fields ==>
      (MayUpdate(u, t) <==> u.id == t.fields["developer"] || u.role == ADMIN || u.role == PROJECT_MANAGER)
    ensures "developer" !in t.fields ==>
      (MayUpdate(u, t) <==> u.role == ADMIN || u.role == PROJECT_MANAGER)
  {
    OwnerOrStaff(u, Field(t, "developer"))
  }

  /** `deleteTicket`'s check: the submitter or staff. */
  predicate MayDelete(u: UserRecord, t: Ticket)
    ensures "submitter" in t.fields ==>
      (MayDelete(u, t) <==> u.id == t.fields["submitter"] || u.role == ADMIN || u.role == PROJECT_MANAGER)
    ensures "submitter" !in t.fields ==> (MayDelete(u, t) <==> u.role == ADMIN || u.role == PROJECT_MANAGER)
  {
    OwnerOrStaff(u, Field(t, "submitter"))
  }

  /** Submitting a ticket grants no right to update it: only its developer or staff may. */
  lemma SubmitterAloneCannotUpdate(u: UserRecord, t: Ticket)
    requires FieldIs(t, "submitter", u.id) && !IsStaff(u)
    requires Field(t, "developer") != Some(u.id)
    ensures !MayUpdate(u, t)
  {
  }

  /** `updateTicket` on route `/ticket/:id`. A missing ticket is a 404 whoever asks; the reply
      carries the document as it was read, before the update. */
  method UpdateTicket(req: Request, db: seq<Ticket>) returns (reply: Reply<Ticket>, db': seq<Ticket>)
    requires req.routeId.Some?
    ensures FindById(db, req.routeId.value).None? ==>
      reply == Reject(TicketNotFound(req.routeId.value)) && db' == db
    ensures FindById(db, req.routeId.value).Some? ==>
      var t := FindById(db, req.routeId.value).value;
      && (req.user.None? ==> reply == Raised && db' == db)
      && (req.user.Some? && MayUpdate(req.user.value, t) ==>
            reply == Sent(200, t) && db' == UpdateById(db, req.routeId.value, req.body))
      && (req.user.Some? && !MayUpdate(req.user.value, t) ==>
            reply == Reject(UNAUTHORIZED) && db' == db)
  {
    var id := req.routeId.value;
    var found := FindById(db, id);
    if found.None? {
      return Reject(TicketNotFound(id)), db;
    }
    var ticket := found.value;
    if req.user.None? {
      return Raised, db;   // `req.user.id` or `req.user.role` throws
    }
    var user := req.user.value;
    if "developer" in ticket.fields {
      if user.id == ticket.fields["developer"] || user.role == ADMIN || user.role == PROJECT_MANAGER {
        db' := UpdateById(db, id, req.body);
      } else {
        return Reject(UNAUTHORIZED), db;
      }
    } else {
      if user.role == ADMIN || user.role == PROJECT_MANAGER {
        db' := UpdateById(db, id, req.body);
      } else {
        return Reject(UNAUTHORIZED), db;
      }
    }
    reply := Sent(200, ticket);
  }

  /** `deleteTicket` on route `/ticket/:id`. A missing ticket is a 404 whoever asks; a ticket
      without a submitter makes `ticket.submitter.toString()` throw. */
  method DeleteTicket(req: Request, db: seq<Ticket>) returns (reply: Reply<()>, db': seq<Ticket>)
    requires req.routeId.Some?
    ensures FindById(db, req.routeId.value).None? ==>
      reply == Reject(TicketNotFound(req.routeId.value)) && db' == db
    ensures FindById(db, req.routeId.value).Some? ==>
      var t := FindById(db, req.routeId.value).value;
      && (req.user.None? || "submitter" !in t.fields ==> reply == Raised && db' == db)
      && (req.user.Some? && "submitter" in t.fields && MayDelete(req.user.value, t) ==>
            reply == Sent(200, ()) && db' == RemoveById(db, req.routeId.value))
      && (req.user.Some? && "submitter" in t.fields && !MayDelete(req.user.value, t) ==>
            reply == Reject(UNAUTHORIZED) && db' == db)
  {
    var id := req.routeId.value;
    var found := FindById(db, id);
    if found.None? {
      return Reject(TicketNotFound(id)), db;
    }
    var ticket := found.value;
    if req.user.None? || "submitter" !in ticket.fields {
      return Raised, db;
    }
    var user := req.user.value;
    if user.id == ticket.fields["submitter"] || user.role == ADMIN || user.role == PROJECT_MANAGER {
      db' := RemoveById(db, id);
    } else {
      return Reject(UNAUTHORIZED), db;
    }
    reply := Sent(200, ());
  }

  /** A permitted delete of a ticket in a well-keyed collection removes exactly that ticket. */
  lemma DeleteRemovesExactlyTheTicket(db: seq<Ticket>, id: string)
    requires UniqueIds(db) && FindById(db, id).Some?
    ensures |RemoveById(db, id)| == |db| - 1
    ensures FindById(db, id).value !in RemoveById(db, id)
    ensures forall t :: t in db && t.id != id ==> t in RemoveById(db, id)
  {
    RemoveByIdRemovesOne(db, id);
  }
}
