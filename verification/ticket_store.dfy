/** The ticket collection as the controllers see it: an ordered sequence of documents, each a
    map from field name to value (references to users and projects are their id strings). */
module TicketStore {
  import opened Common

  datatype Ticket = Ticket(id: string, fields: map<string, string>)

  /** The document's `key` is set to `v`. */
  predicate FieldIs(t: Ticket, key: string, v: string)
  {
    key in t.fields && t.fields[key] == v
  }

  /** A field that may be unset (`ticket.developer` before one is assigned). */
  function Field(t: Ticket, key: string): Option<string>
  {
    if key in t.fields then Some(t.fields[key]) else None
  }

  /** The three filters `getTickets` hands to `Ticket.find`. */
  datatype Filter =
    | ByProject(project: string)                // { project: id }
    | ByUser(user: string)                      // { $or: [{ submitter: u }, { developer: u }] }
    | ByFields(conditions: map<string, string>) // the remaining query, field by field

  predicate Matches(f: Filter, t: Ticket)
  {
    match f
    case ByProject(p) => FieldIs(t, "project", p)
    case ByUser(u) => FieldIs(t, "submitter", u) || FieldIs(t, "developer", u)
    case ByFields(c) => forall k :: k in c ==> FieldIs(t, k, c[k])
  }

  /** `Ticket.find(filter)`: the matching documents in collection order. */
  function Find(db: seq<Ticket>, f: Filter): (r: seq<Ticket>)
    ensures |r| <= |db|
    ensures forall i :: 0 <= i < |r| ==> Matches(f, r[i])
  {
    if db == [] then []
    else if Matches(f, db[0]) then [db[0]] + Find(db[1..], f)
    else Find(db[1..], f)
  }

  /** `find` loses no matching document and invents none. */
  lemma {:induction false} FindExactly(db: seq<Ticket>, f: Filter, t: Ticket)
    ensures t in Find(db, f) <==> t in db && Matches(f, t)
  {
    if db != [] {
      FindExactly(db[1..], f, t);
      assert db == [db[0]] + db[1..];
    }
  }

  /** The primary key: no two documents share an id. */
  predicate UniqueIds(db: seq<Ticket>)
  {
    forall i, j :: 0 <= i < |db| && 0 <= j < |db| && db[i].id == db[j].id ==> i == j
  }

  /** `Ticket.findById(id)`: the first document with that id, or null. */
  function FindById(db: seq<Ticket>, id: string): (r: Option<Ticket>)
    ensures r.Some? ==> r.value in db && r.value.id == id
    ensures r.None? <==> forall i :: 0 <= i < |db| ==> db[i].id != id
  {
    if db == [] then None
    else if db[0].id == id then Some(db[0])
    else FindById(db[1..], id)
  }

  /** `findByIdAndUpdate(id, body)`: the body's fields are set on the document with that id
      (fields the body does not name keep their values); every other document is untouched. */
  function UpdateById(db: seq<Ticket>, id: string, body: map<string, string>): (r: seq<Ticket>)
    ensures |r| == |db|
    ensures forall i :: 0 <= i < |db| && db[i].id != id ==> r[i] == db[i]
    ensures forall i :: 0 <= i < |db| && db[i].id == id ==>
      r[i].id == id && (forall k :: k in r[i].fields <==> k in db[i].fields || k in body)
      && (forall k :: k in body ==> r[i].fields[k] == body[k])
      && (forall k :: k in db[i].fields && k !in body ==> r[i].fields[k] == db[i].fields[k])
  {
    if db == [] then []
    else
      var head := if db[0].id == id then Ticket(id, db[0].fields + body) else db[0];
      [head] + UpdateById(db[1..], id, body)
  }

  /** `ticket.remove()`: the document with that id leaves the collection, the rest stay. */
  function RemoveById(db: seq<Ticket>, id: string): (r: seq<Ticket>)
    ensures |r| <= |db|
    ensures forall t :: t in r <==> t in db && t.id != id
  {
    if db == [] then []
    else if db[0].id == id then RemoveById(db[1..], id)
    else [db[0]] + RemoveById(db[1..], id)
  }

  /** Under unique ids, removing a present document shrinks the collection by exactly one. */
  lemma {:induction false} RemoveByIdRemovesOne(db: seq<Ticket>, id: string)
    requires UniqueIds(db)
    requires FindById(db, id).Some?
    ensures |RemoveById(db, id)| == |db| - 1
  {
    assert UniqueIds(db[1..]) by {
      forall i, j | 0 <= i < |db[1..]| && 0 <= j < |db[1..]| && db[1..][i].id == db[1..][j].id
        ensures i == j
      {
        assert db[i + 1].id == db[j + 1].id;
      }
    }
    if db[0].id == id {
      RemoveByIdAbsent(db, id);
    } else {
      RemoveByIdRemovesOne(db[1..], id);
    }
  }

  /** Removing an id that no document carries changes nothing. */
  lemma {:induction false} RemoveByIdAbsent(db: seq<Ticket>, id: string)
    requires UniqueIds(db) && |db| > 0 && db[0].id == id
    ensures RemoveById(db[1..], id) == db[1..]
  {
    var rest := db[1..];
    assert forall i :: 0 <= i < |rest| ==> rest[i].id != id by {
      forall i | 0 <= i < |rest| ensures rest[i].id != id {
        assert db[i + 1] == rest[i];
      }
    }
    RemoveByIdNoMatch(rest, id);
  }

  lemma {:induction false} RemoveByIdNoMatch(db: seq<Ticket>, id: string)
    requires forall i :: 0 <= i < |db| ==> db[i].id != id
    ensures RemoveById(db, id) == db
  {
    if db != [] {
      RemoveByIdNoMatch(db[1..], id);
      assert db == [db[0]] + db[1..];
    }
  }

  /** Updating keeps every id in place, so it keeps the primary key. */
  lemma UpdateByIdKeepsUniqueIds(db: seq<Ticket>, id: string, body: map<string, string>)
    requires UniqueIds(db)
    ensures UniqueIds(UpdateById(db, id, body))
  {
    var r := UpdateById(db, id, body);
    assert forall i :: 0 <= i < |db| ==> r[i].id == db[i].id;
  }

  /** Appending a document under an unused id keeps the primary key. */
  lemma CreateKeepsUniqueIds(db: seq<Ticket>, t: Ticket)
    requires UniqueIds(db)
    requires FindById(db, t.id).None?
    ensures UniqueIds(db + [t])
  {
  }
}
