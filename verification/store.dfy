/**
 * An in-memory stand-in for one MongoDB collection: documents keyed by
 * `_id`, kept in insertion order (the natural order `find` returns), with
 * fresh identifiers handed out on insert.
 */
module Store {
  import opened Wrappers
  import opened Js
  import opened Mongo
  import opened Seqs

  /** The entries of `docs` in the order `ids` lists them. */
  function Listing<T>(ids: seq<Id>, docs: map<Id, T>): (r: seq<Entry<T>>)
    requires forall i :: 0 <= i < |ids| ==> ids[i] in docs
    ensures |r| == |ids|
    ensures forall i :: 0 <= i < |ids| ==> r[i] == Entry(ids[i], docs[ids[i]])
  {
    if ids == [] then [] else [Entry(ids[0], docs[ids[0]])] + Listing(ids[1..], docs)
  }

  /** `ids` without `id`. */
  function Without(ids: seq<Id>, id: Id): (r: seq<Id>)
    ensures forall x :: x in r <==> x in ids && x != id
    ensures NoDuplicates(ids) ==> NoDuplicates(r)
    ensures |r| <= |ids|
  {
    if ids == [] then []
    else if ids[0] == id then Without(ids[1..], id)
    else
      var rest := Without(ids[1..], id);
      assert NoDuplicates(ids) ==> ids[0] !in ids[1..];
      assert NoDuplicates(ids) ==> NoDuplicates(ids[1..]) by {
        if NoDuplicates(ids) {
          forall i, j | 0 <= i < j < |ids[1..]| ensures ids[1..][i] != ids[1..][j] {
            assert ids[1..][i] == ids[i + 1] && ids[1..][j] == ids[j + 1];
          }
        }
      }
      [ids[0]] + rest
  }

  /** `entries` without the entry whose `_id` is `id`. */
  function Drop<T>(entries: seq<Entry<T>>, id: Id): seq<Entry<T>> {
    if entries == [] then []
    else if entries[0].id == id then Drop(entries[1..], id)
    else [entries[0]] + Drop(entries[1..], id)
  }

  lemma {:induction false} ListingWithout<T>(ids: seq<Id>, docs: map<Id, T>, id: Id)
    requires forall i :: 0 <= i < |ids| ==> ids[i] in docs
    ensures forall i :: 0 <= i < |Without(ids, id)| ==> Without(ids, id)[i] in docs - {id}
    ensures Listing(Without(ids, id), docs - {id}) == Drop(Listing(ids, docs), id)
  {
    var w := Without(ids, id);
    forall i | 0 <= i < |w| ensures w[i] in docs - {id} {
      assert w[i] in w;
    }
    if ids != [] {
      assert forall i :: 0 <= i < |ids[1..]| ==> ids[1..][i] == ids[i + 1];
      ListingWithout(ids[1..], docs, id);
      assert Listing(ids, docs)[1..] == Listing(ids[1..], docs);
      if ids[0] != id {
        var rest := Without(ids[1..], id);
        assert w == [ids[0]] + rest;
        assert Listing(w, docs - {id})[1..] == Listing(rest, docs - {id});
      }
    }
  }

  /** Every stored `_id` is listed once, and every one is below the next to hand out. */
  ghost predicate Consistent<T>(docs: map<Id, T>, order: seq<Id>, nextId: Id) {
    && NoDuplicates(order)
    && (forall id :: id in docs <==> id in order)
    && (forall id :: id in docs ==> id < nextId)
  }

  lemma CreateConsistent<T>(docs: map<Id, T>, order: seq<Id>, nextId: Id, doc: T)
    requires Consistent(docs, order, nextId)
    ensures Consistent(docs[nextId := doc], order + [nextId], nextId + 1)
    ensures forall i :: 0 <= i < |order| ==> order[i] in docs
    ensures Listing(order + [nextId], docs[nextId := doc]) == Listing(order, docs) + [Entry(nextId, doc)]
  {
    assert nextId !in order;
    assert forall i :: 0 <= i < |order| ==> order[i] in order;
    ListingAppend(order, docs, nextId, doc);
    var ext := order + [nextId];
    forall i, j | 0 <= i < j < |ext| ensures ext[i] != ext[j] {
      assert ext[i] == order[i] && ext[i] in order;
      if j < |order| {
        assert ext[j] == order[j];
      }
    }
  }

  lemma DeleteConsistent<T>(docs: map<Id, T>, order: seq<Id>, nextId: Id, id: Id)
    requires Consistent(docs, order, nextId)
    ensures Consistent(docs - {id}, Without(order, id), nextId)
    ensures forall i :: 0 <= i < |order| ==> order[i] in docs
    ensures forall i :: 0 <= i < |Without(order, id)| ==> Without(order, id)[i] in docs - {id}
    ensures Listing(Without(order, id), docs - {id}) == Drop(Listing(order, docs), id)
  {
    assert forall i :: 0 <= i < |order| ==> order[i] in order;
    ListingWithout(order, docs, id);
  }

  class Collection<T> {
    /** The stored documents by `_id`. */
    var docs: map<Id, T>
    /** The `_id`s in insertion order. */
    var order: seq<Id>
    /** Every `_id` handed out so far is below this one. */
    var nextId: Id

    ghost predicate Valid()
      reads this
    {
      Consistent(docs, order, nextId)
    }

    /** The collection as `find({})` returns it. */
    function Entries(): (r: seq<Entry<T>>)
      reads this
      requires Valid()
      ensures |r| == |order|
    {
      assert forall i :: 0 <= i < |order| ==> order[i] in order;
      Listing(order, docs)
    }

    constructor ()
      ensures Valid()
      ensures docs == map[] && order == []
    {
      docs := map[];
      order := [];
      nextId := 0;
    }

    /** `Model.create`: stores `doc` under a fresh `_id`. */
    method Create(doc: T) returns (id: Id)
      requires Valid()
      modifies this
      ensures Valid()
      ensures id !in old(docs)
      ensures docs == old(docs)[id := doc]
      ensures order == old(order) + [id]
      ensures Entries() == old(Entries()) + [Entry(id, doc)]
    {
      id := nextId;
      CreateConsistent(docs, order, nextId, doc);
      docs := docs[id := doc];
      order := order + [id];
      nextId := nextId + 1;
    }

    /**
     * `Model.findByIdAndUpdate(id, update, { new: true })`: the updated
     * document, or None when no document has that `_id`.
     */
    method UpdateById(id: Id, update: T -> T) returns (r: Option<T>)
      requires Valid()
      modifies this
      ensures Valid()
      ensures id in old(docs) ==> r == Some(update(old(docs)[id])) && docs == old(docs)[id := r.value]
      ensures id !in old(docs) ==> r == None && docs == old(docs)
      ensures order == old(order) && nextId == old(nextId)
      ensures |Entries()| == |old(Entries())|
      ensures forall i :: 0 <= i < |order| ==>
        Entries()[i] == if order[i] == id then Entry(id, r.value) else old(Entries())[i]
    {
      if id in docs {
        var d := update(docs[id]);
        docs := docs[id := d];
        r := Some(d);
      } else {
        r := None;
      }
    }

    /** `Model.findByIdAndDelete(id)`: the removed document, or None when no document has that `_id`. */
    method DeleteById(id: Id) returns (r: Option<T>)
      requires Valid()
      modifies this
      ensures Valid()
      ensures id in old(docs) ==> r == Some(old(docs)[id]) && docs == old(docs) - {id}
      ensures id !in old(docs) ==> r == None && docs == old(docs) && order == old(order)
      ensures Entries() == Drop(old(Entries()), id)
      ensures nextId == old(nextId)
    {
      ghost var before := Entries();
      DeleteConsistent(docs, order, nextId, id);
      if id in docs {
        r := Some(docs[id]);
        docs := docs - {id};
        order := Without(order, id);
      } else {
        r := None;
        DropAbsent(before, id);
      }
    }
  }

  /** Appending a fresh `_id` appends its entry to the listing. */
  lemma {:induction false} ListingAppend<T>(ids: seq<Id>, docs: map<Id, T>, id: Id, doc: T)
    requires forall i :: 0 <= i < |ids| ==> ids[i] in docs
    requires id !in ids
    ensures forall i :: 0 <= i < |ids + [id]| ==> (ids + [id])[i] in docs[id := doc]
    ensures Listing(ids + [id], docs[id := doc]) == Listing(ids, docs) + [Entry(id, doc)]
  {
    var ext := ids + [id];
    forall i | 0 <= i < |ext| ensures ext[i] in docs[id := doc] {
      if i < |ids| {
        assert ext[i] == ids[i];
      }
    }
    var l := Listing(ext, docs[id := doc]);
    var m := Listing(ids, docs) + [Entry(id, doc)];
    forall i | 0 <= i < |l| ensures l[i] == m[i] {
      if i < |ids| {
        assert ext[i] == ids[i] && ids[i] != id;
      }
    }
  }

  /** Dropping an `_id` no entry carries changes nothing. */
  lemma {:induction false} DropAbsent<T>(entries: seq<Entry<T>>, id: Id)
    requires forall i :: 0 <= i < |entries| ==> entries[i].id != id
    ensures Drop(entries, id) == entries
  {
    if entries != [] {
      DropAbsent(entries[1..], id);
      assert entries == [entries[0]] + entries[1..];
    }
  }
}
