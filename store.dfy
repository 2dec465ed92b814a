/** The repository collaborator of each service, as an in-memory table, and a
    journal of every call made to any table. */
module Store {
  import opened Wrappers

  /** The three tables, one per entity. */
  datatype Table = Notifications | Channels | Methods

  /** A call made to a repository, as a test double records it. */
  datatype Event =
    | FindByIdCall(table: Table, id: int)
    | FindAllCall(table: Table)
    | SaveCall(table: Table, id: int)
    | DeleteByIdCall(table: Table, id: int)

  /** The calls made so far, in order, shared by all repositories. */
  class Journal {
    ghost var events: seq<Event>

    constructor ()
      ensures events == []
    {
      events := [];
    }
  }

  /** A repository: rows by id, and the next id the store will generate.
      `idOf` reads an entity's id and `withId` sets it. */
  class Repository<E(!new)> {
    const table: Table
    const idOf: E -> Option<int>
    const withId: (E, int) -> E
    const journal: Journal
    var rows: map<int, E>
    var nextId: int

    /** Every row carries its own key, and generated keys are never in use. */
    ghost predicate Valid()
      reads this
    {
      && (forall e, k :: idOf(withId(e, k)) == Some(k))
      && (forall k :: k in rows ==> k < nextId && idOf(rows[k]) == Some(k))
    }

    constructor (table: Table, idOf: E -> Option<int>, withId: (E, int) -> E, journal: Journal)
      requires forall e, k :: idOf(withId(e, k)) == Some(k)
      ensures Valid()
      ensures this.table == table && this.journal == journal && rows == map[]
      ensures forall e :: this.idOf(e) == idOf(e)
      ensures forall e, k :: this.withId(e, k) == withId(e, k)
    {
      this.table := table;
      this.idOf := idOf;
      this.withId := withId;
      this.journal := journal;
      rows := map[];
      nextId := 1;
    }

    /** What `save` persists: the entity itself, or, when it has no id yet, the
        entity with the next generated id. */
    ghost function Persisted(e: E): (p: E)
      reads this
    {
      if idOf(e).Some? then e else withId(e, nextId)
    }

    /** `save`: insert or fully replace the row under the entity's id. */
    method Save(e: E) returns (saved: E)
      requires Valid()
      modifies this, journal
      ensures Valid()
      ensures saved == old(Persisted(e))
      ensures idOf(saved).Some?
      ensures idOf(e).None? ==> idOf(saved).value !in old(rows)
      ensures rows == old(rows)[idOf(saved).value := saved]
      ensures journal.events == old(journal.events) + [SaveCall(table, idOf(saved).value)]
    {
      var key: int;
      if idOf(e).Some? {
        saved, key := e, idOf(e).value;
      } else {
        saved, key := withId(e, nextId), nextId;
      }
      rows := rows[key := saved];
      if nextId <= key {
        nextId := key + 1;
      }
      journal.events := journal.events + [SaveCall(table, key)];
    }

    /** `findById`: the row under `id`, if any. */
    method FindById(id: int) returns (found: Option<E>)
      modifies journal
      ensures found == if id in rows then Some(rows[id]) else None
      ensures journal.events == old(journal.events) + [FindByIdCall(table, id)]
    {
      found := if id in rows then Some(rows[id]) else None;
      journal.events := journal.events + [FindByIdCall(table, id)];
    }

    /** `findAll`: the whole table; paging is left to the caller. */
    method FindAll() returns (page: map<int, E>)
      modifies journal
      ensures page == rows
      ensures journal.events == old(journal.events) + [FindAllCall(table)]
    {
      page := rows;
      journal.events := journal.events + [FindAllCall(table)];
    }

    /** `deleteById`: remove the row under `id`; an absent id is not an error. */
    method DeleteById(id: int)
      requires Valid()
      modifies this, journal
      ensures Valid()
      ensures rows == old(rows) - {id} && nextId == old(nextId)
      ensures journal.events == old(journal.events) + [DeleteByIdCall(table, id)]
    {
      rows := rows - {id};
      journal.events := journal.events + [DeleteByIdCall(table, id)];
    }
  }
}
