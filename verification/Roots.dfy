/**
 * Rotation chains: every inserted identifier belongs to the chain of the fresh
 * session it descends from. `k` holds the sources already removed by a rotation
 * whose second statement is still to come, with the save that removed them.
 */
module Roots {
  import opened Common
  import opened Backend

  type Carried = iset<(nat, nat, Id)>

  ghost predicate RootsWf(b: Backend) {
    && b.root.Keys == b.inserted
    && (forall id {:trigger RootOf(b, id)} :: id in b.inserted ==> RootOf(b, id) in b.inserted)
    && b.present <= b.inserted
    && (forall i :: 0 <= i < |b.log| ==> b.log[i] in b.inserted)
    && (forall i, j :: 0 <= i < j < |b.log| ==> b.log[i] != b.log[j])
  }

  /** At most one identifier of a chain is present, and none while one is carried. */
  ghost predicate OnePerRoot(b: Backend, k: Carried) {
    && (forall i, j :: i in b.present && j in b.present && RootOf(b, i) == RootOf(b, j) ==> i == j)
    && (forall x, j :: x in k && j in b.present ==> RootOf(b, x.2) != RootOf(b, j))
    && (forall x, y :: x in k && y in k && RootOf(b, x.2) == RootOf(b, y.2) ==> x == y)
  }

  /** An identifier is replaced at most once, and never while it is present or carried. */
  ghost predicate OneSuccessor(b: Backend, k: Carried) {
    && (forall i :: i in b.parent ==> i in b.inserted && b.parent[i] in b.inserted && b.parent[i] !in b.present)
    && (forall i, j :: i in b.parent && j in b.parent && b.parent[i] == b.parent[j] ==> i == j)
    && (forall i, x :: i in b.parent && x in k ==> b.parent[i] != x.2)
    && (forall i :: i in b.parent ==> RootOf(b, i) == RootOf(b, b.parent[i]))
  }

  /** A chain is named after its first identifier. */
  ghost predicate FirstIsRoot(b: Backend) {
    forall i {:trigger RootOf(b, i)} :: i in b.inserted && i !in b.parent ==> RootOf(b, i) == i
  }

  ghost predicate RootsInv(b: Backend, k: Carried) {
    && RootsWf(b)
    && (forall x :: x in k ==> x.2 in b.inserted && x.2 !in b.present)
    && OnePerRoot(b, k)
    && OneSuccessor(b, k)
    && FirstIsRoot(b)
  }

  /** `b'` adds `id` with chain `root` to `b` and takes `source` away. */
  ghost predicate Replaces(b: Backend, b': Backend, id: Id, root: Id) {
    && id !in b.inserted
    && b'.present <= b.present + {id}
    && (forall i {:trigger RootOf(b', i)} :: i in b.inserted ==> RootOf(b', i) == RootOf(b, i))
    && RootOf(b', id) == root
    && (forall i :: i in b'.inserted <==> i == id || i in b.inserted)
  }

  /** Identifiers keep their root when a new one is added. */
  lemma AddKeepsWf(b: Backend, b': Backend, id: Id, root: Id)
    requires RootsWf(b) && id !in b.inserted && (root == id || root in b.inserted)
    requires b'.inserted == b.inserted + {id} && b'.log == b.log + [id] && b'.root == b.root[id := root]
    requires b'.present <= b.present + {id}
    ensures RootsWf(b') && Replaces(b, b', id, root)
  {
    assert forall i {:trigger RootOf(b', i)} :: i in b.inserted ==> RootOf(b', i) == RootOf(b, i);
    assert RootOf(b', id) == root;
  }

  lemma ReplaceKeepsOnePerRoot(b: Backend, b': Backend, k: Carried, k': Carried, id: Id, root: Id)
    requires OnePerRoot(b, k) && Replaces(b, b', id, root) && k' <= k
    requires forall i :: i in b.present ==> i in b.inserted
    requires forall x :: x in k ==> x.2 in b.inserted
    requires forall i :: i in b'.present && i != id ==> RootOf(b, i) != root
    requires forall x :: x in k' ==> RootOf(b, x.2) != root
    ensures OnePerRoot(b', k')
  {
  }

  lemma ReplaceKeepsOneSuccessor(b: Backend, b': Backend, k: Carried, k': Carried, source: Id, id: Id)
    requires OneSuccessor(b, k) && Replaces(b, b', id, RootOf(b, source)) && k' <= k
    requires source in b.inserted && source !in b'.present && b'.parent == b.parent[id := source]
    requires forall i :: i in b.parent ==> b.parent[i] != source
    requires forall x :: x in k' ==> x.2 != source
    ensures OneSuccessor(b', k')
  {
  }

  lemma ReplaceKeepsFirst(b: Backend, b': Backend, id: Id, root: Id)
    requires FirstIsRoot(b) && Replaces(b, b', id, root)
    requires if id in b'.parent then b'.parent.Keys == b.parent.Keys + {id} else root == id && b'.parent == b.parent
    ensures FirstIsRoot(b')
  {
  }

  lemma InsertKeepsOneSuccessor(b: Backend, b': Backend, k: Carried, id: Id)
    requires OneSuccessor(b, k) && Replaces(b, b', id, id) && b'.parent == b.parent
    ensures OneSuccessor(b', k)
  {
  }

  lemma RootsOfInserted(b: Backend, id: Id)
    requires RootsWf(b) && id !in b.inserted
    ensures forall i {:trigger RootOf(b, i)} :: i in b.inserted ==> RootOf(b, i) != id
  {
  }

  lemma InsertKeepsRoots(b: Backend, k: Carried, id: Id)
    requires RootsInv(b, k) && id !in b.inserted
    ensures RootsInv(Exec(b, Insert(id)), k)
  {
    var b' := Exec(b, Insert(id));
    AddKeepsWf(b, b', id, id);
    RootsOfInserted(b, id);
    ReplaceKeepsOnePerRoot(b, b', k, k, id, id);
    ReplaceKeepsFirst(b, b', id, id);
    InsertKeepsOneSuccessor(b, b', k, id);
  }

  /** Extending the chain of `source` by `id`, once `source` is absent and no longer carried. */
  lemma ExtendKeepsRoots(b: Backend, b': Backend, k: Carried, k': Carried, source: Id, id: Id)
    requires RootsInv(b, k) && k' <= k && id !in b.inserted && source in b.inserted
    requires Replaces(b, b', id, RootOf(b, source)) && RootsWf(b')
    requires source !in b'.present && b'.parent == b.parent[id := source] && id !in b.parent
    requires forall i :: i in b'.present && i != id ==> RootOf(b, i) != RootOf(b, source)
    requires forall x :: x in k' ==> RootOf(b, x.2) != RootOf(b, source) && x.2 != source
    requires forall i :: i in b.parent ==> b.parent[i] != source
    ensures RootsInv(b', k')
  {
    var root := RootOf(b, source);
    assert forall x :: x in k ==> x.2 in b.inserted;
    KnownIds(b, k);
    assert forall x :: x in k' ==> x.2 in b'.inserted && x.2 !in b'.present;
    hide RootsWf, Replaces, OnePerRoot, OneSuccessor, FirstIsRoot, RootOf;
    ReplaceKeepsOnePerRoot(b, b', k, k', id, root);
    ReplaceKeepsFirst(b, b', id, root);
    ReplaceKeepsOneSuccessor(b, b', k, k', source, id);
  }

  lemma KnownIds(b: Backend, k: Carried)
    requires RootsInv(b, k)
    ensures forall i :: i in b.present ==> i in b.inserted
    ensures forall i :: i in b.parent ==> i in b.inserted
  {
  }

  /** A present source has no successor, is carried by nobody and shares its chain with nothing present. */
  lemma PresentSource(b: Backend, k: Carried, source: Id)
    requires RootsInv(b, k) && source in b.present
    ensures forall i :: i in b.present && i != source ==> RootOf(b, i) != RootOf(b, source)
    ensures forall x :: x in k ==> RootOf(b, x.2) != RootOf(b, source) && x.2 != source
    ensures forall i :: i in b.parent ==> b.parent[i] != source
    ensures source in b.inserted && RootOf(b, source) in b.inserted
  {
  }

  /** `b'` replaces `source` by `id` at the end of its chain. */
  ghost predicate Succeeds(b: Backend, b': Backend, source: Id, id: Id) {
    && b'.inserted == b.inserted + {id} && b'.log == b.log + [id]
    && b'.root == b.root[id := RootOf(b, source)] && b'.parent == b.parent[id := source]
    && b'.present == b.present - {source} + {id}
  }

  lemma SucceedKeepsRoots(b: Backend, b': Backend, k: Carried, source: Id, id: Id)
    requires RootsInv(b, k) && id !in b.inserted && source in b.present && Succeeds(b, b', source, id)
    ensures RootsInv(b', k)
  {
    var root := RootOf(b, source);
    PresentSource(b, k, source);
    AddKeepsWf(b, b', id, root);
    KnownIds(b, k);
    hide RootsInv, RootsWf, Replaces, RootOf;
    ExtendKeepsRoots(b, b', k, k, source, id);
  }

  lemma RotateKeepsRoots(b: Backend, k: Carried, source: Id, id: Id)
    requires RootsInv(b, k) && id !in b.inserted
    ensures RootsInv(Exec(b, Rotate(source, id)), k)
  {
    assert RootsWf(b) && id !in b.present;
    hide RootsInv, RootsWf, RootOf;
    if source in b.present {
      SucceedKeepsRoots(b, Exec(b, Rotate(source, id)), k, source, id);
    }
  }

  lemma ShrinkKeepsRoots(b: Backend, k: Carried, k': Carried, ids: set<Id>)
    requires RootsInv(b, k) && k' <= k
    ensures RootsInv(Purge(b, ids), k')
  {
    var b' := Purge(b, ids);
    assert forall i :: RootOf(b', i) == RootOf(b, i);
    assert RootsWf(b');
    assert OnePerRoot(b', k');
    assert OneSuccessor(b', k');
  }

  /** Removing a present source and carrying it. */
  lemma CarryKeepsRoots(b: Backend, k: Carried, f: nat, c: nat, source: Id)
    requires RootsInv(b, k) && source in b.present
    ensures RootsInv(Exec(b, Remove(source)), k + iset{(f, c, source)})
  {
    var b' := Exec(b, Remove(source));
    assert forall i :: RootOf(b', i) == RootOf(b, i);
    assert RootsWf(b');
    assert OnePerRoot(b', k + iset{(f, c, source)});
    assert OneSuccessor(b', k + iset{(f, c, source)});
  }

  /** A carried source has no successor, is absent and shares its chain with nothing present or carried. */
  lemma CarriedSource(b: Backend, k: Carried, f: nat, c: nat, source: Id)
    requires RootsInv(b, k) && (f, c, source) in k
    ensures source in b.inserted && source !in b.present && RootOf(b, source) in b.inserted
    ensures forall i :: i in b.present ==> RootOf(b, i) != RootOf(b, source)
    ensures forall x :: x in k - iset{(f, c, source)} ==> RootOf(b, x.2) != RootOf(b, source) && x.2 != source
    ensures forall i :: i in b.parent ==> b.parent[i] != source
  {
  }

  /** The second statement: the carried source's chain gets its next identifier. */
  lemma LandKeepsRoots(b: Backend, k: Carried, f: nat, c: nat, source: Id, id: Id)
    requires RootsInv(b, k) && id !in b.inserted && (f, c, source) in k
    ensures RootsInv(Exec(b, InsertAfter(source, id)), k - iset{(f, c, source)})
  {
    var b' := Exec(b, InsertAfter(source, id));
    var k' := k - iset{(f, c, source)};
    var root := RootOf(b, source);
    CarriedSource(b, k, f, c, source);
    AddKeepsWf(b, b', id, root);
    KnownIds(b, k);
    hide RootsInv, RootsWf, Replaces, RootOf;
    ExtendKeepsRoots(b, b', k, k', source, id);
  }
}
