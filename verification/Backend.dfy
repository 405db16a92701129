/**
 * What a backend keeps about record identifiers, with the history the theorems
 * need: every insertion so far, in order, and for each inserted identifier the
 * root of its rotation chain and the identifier it replaced.
 */
module Backend {
  import opened Common

  datatype Backend = Backend(
    present: set<Id>,
    inserted: set<Id>,
    log: seq<Id>,
    root: map<Id, Id>,
    parent: map<Id, Id>)

  /** The conditional statements the stores rely on. */
  datatype Effect =
    | Insert(id: Id)                       // only if absent
    | Update(id: Id)                       // only if present
    | Rotate(source: Id, id: Id)           // atomically, source present and target absent
    | Remove(id: Id)
    | InsertAfter(source: Id, id: Id)      // second half of a two-statement rotation

  function Empty(): Backend {
    Backend({}, {}, [], map[], map[])
  }

  function RootOf(b: Backend, id: Id): Id {
    if id in b.root then b.root[id] else id
  }

  function Add(b: Backend, id: Id, root: Id): Backend {
    b.(present := b.present + {id}, inserted := b.inserted + {id}, log := b.log + [id], root := b.root[id := root])
  }

  /** The effect is refused exactly when its condition fails; refused writes change nothing. */
  predicate Accepts(b: Backend, e: Effect) {
    match e
    case Insert(id) => id !in b.present
    case Update(id) => id in b.present
    case Rotate(source, id) => source in b.present && id !in b.present
    case Remove(id) => id in b.present
    case InsertAfter(_, id) => id !in b.present
  }

  function Exec(b: Backend, e: Effect): Backend {
    if !Accepts(b, e) then b else
    match e
    case Insert(id) => Add(b, id, id)
    case Update(id) => b
    case Rotate(source, id) =>
      Add(b, id, RootOf(b, source)).(present := b.present - {source} + {id}, parent := b.parent[id := source])
    case Remove(id) => b.(present := b.present - {id})
    case InsertAfter(source, id) =>
      Add(b, id, RootOf(b, source)).(parent := b.parent[id := source])
  }

  function Purge(b: Backend, ids: set<Id>): Backend {
    b.(present := b.present - ids)
  }

  /** The identifiers an effect may add. */
  function Adds(e: Effect): set<Id> {
    match e
    case Insert(id) => {id}
    case Rotate(_, id) => {id}
    case InsertAfter(_, id) => {id}
    case _ => {}
  }

  /** `b'` follows `b` by adding at most the identifiers in `added`, none inserted before. */
  predicate Follows(b: Backend, b': Backend, added: set<Id>) {
    && b'.present <= b.present + added
    && b.inserted <= b'.inserted
    && (forall id :: id in b'.inserted && id !in b.inserted ==> id in added)
    && (forall id :: id in added ==> id !in b.inserted)
  }
}
