/**
 * The hierarchical document store: a map from key paths
 * (collection, document, collection, document, ...) to documents.
 * Reads return what was last written; `Set` replaces a whole document.
 */
module Firestore {
  import opened Wrappers
  import opened PyValue
  import IdOrder

  type Path = seq<string>
  type Store = map<Path, Doc>

  /** The ids of the documents that sit directly in collection `coll`. */
  function ChildIds(store: Store, coll: Path): (ids: set<string>)
    ensures forall id :: id in ids <==> coll + [id] in store
  {
    var ids := set p | p in store && |p| == |coll| + 1 && p[..|coll|] == coll :: p[|coll|];
    assert forall id :: coll + [id] in store ==> (coll + [id])[|coll|] in ids;
    assert forall p :: p in store && |p| == |coll| + 1 && p[..|coll|] == coll ==> p == coll + [p[|coll|]];
    ids
  }

  /** The documents of collection `coll` with the given ids, in the order of `ids`. */
  function DocsOf(store: Store, coll: Path, ids: seq<string>): (r: seq<Doc>)
    requires forall i :: 0 <= i < |ids| ==> coll + [ids[i]] in store
    ensures |r| == |ids|
    ensures forall i :: 0 <= i < |ids| ==> r[i] == store[coll + [ids[i]]]
  {
    if ids == [] then []
    else DocsOf(store, coll, ids[..|ids| - 1]) + [store[coll + [ids[|ids| - 1]]]]
  }

  /** What streaming collection `coll` yields: its documents in ascending id order. */
  ghost function Listing(store: Store, coll: Path): (r: seq<Doc>)
    ensures |r| == |ChildIds(store, coll)|
  {
    DocsOf(store, coll, IdOrder.Sorted(ChildIds(store, coll)))
  }

  /** `{doc.id: doc.to_dict() for doc in coll.stream()}` */
  function ChildMap(store: Store, coll: Path): (m: map<string, Doc>)
    ensures m.Keys == ChildIds(store, coll)
    ensures forall id :: id in m ==> m[id] == store[coll + [id]]
  {
    map id | id in ChildIds(store, coll) :: store[coll + [id]]
  }

  class DocumentStore {
    var docs: Store

    constructor (initial: Store)
      ensures docs == initial
    {
      docs := initial;
    }

    /** `ref.get().to_dict()`: the document, or None when it does not exist. */
    method Get(path: Path) returns (d: Option<Doc>)
      ensures path in docs ==> d == Some(docs[path])
      ensures path !in docs ==> d == None
    {
      d := if path in docs then Some(docs[path]) else None;
    }

    /** `ref.set(doc)`: full replace, no merge. */
    method Set(path: Path, doc: Doc)
      modifies this
      ensures docs == old(docs)[path := doc]
    {
      docs := docs[path := doc];
    }

    /** The ids of collection `coll`, in the order a stream yields them. */
    method ListIds(coll: Path) returns (ids: seq<string>)
      ensures ids == IdOrder.Sorted(ChildIds(docs, coll))
    {
      ids := SortIds(ChildIds(docs, coll));
    }

    /** `coll.stream()`, each document turned into its data. */
    method Stream(coll: Path) returns (ds: seq<Doc>)
      ensures ds == Listing(docs, coll)
    {
      var ids := ListIds(coll);
      ds := [];
      var i := 0;
      while i < |ids|
        invariant 0 <= i <= |ids|
        invariant ds == DocsOf(docs, coll, ids[..i])
      {
        PrefixStep(ids, i);
        ds := ds + [docs[coll + [ids[i]]]];
        i := i + 1;
      }
      PrefixStep(ids, |ids|);
    }
  }

  /** How a prefix one longer relates to the prefix before it. */
  lemma PrefixStep(ids: seq<string>, i: nat)
    requires i <= |ids|
    ensures ids[..|ids|] == ids
    ensures i < |ids| ==> ids[..i + 1][..i] == ids[..i] && ids[..i + 1][i] == ids[i]
  {
  }

  /** Lists the ids of `s` one least id at a time. */
  method SortIds(s: set<string>) returns (ids: seq<string>)
    ensures ids == IdOrder.Sorted(s)
  {
    var rest := s;
    ids := [];
    while rest != {}
      invariant ids + IdOrder.Sorted(rest) == IdOrder.Sorted(s)
      decreases rest
    {
      IdOrder.LeastExists(rest);
      var m :| IdOrder.IsLeast(m, rest);
      PeelLeast(ids, rest, m);
      ids := ids + [m];
      rest := rest - {m};
    }
  }

  lemma PeelLeast(ids: seq<string>, rest: set<string>, m: string)
    requires IdOrder.IsLeast(m, rest)
    ensures (ids + [m]) + IdOrder.Sorted(rest - {m}) == ids + IdOrder.Sorted(rest)
  {
    IdOrder.SortedUnfold(rest, m);
  }
}
