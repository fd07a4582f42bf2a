/** Annotation records and the `AnnotationService` that stores them in one flat,
    ordered array. The pure functions give each edit's effect on the array's
    contents; the `AnnotationService` class adds the array's identity, which
    decides what an open iterator sees after an edit. */
module Annotations {
  import opened Wrappers
  import opened Iteration

  /** A 3D position (a `THREE.Vector3`), held only as data. */
  datatype Vec3 = Vec3(x: real, y: real, z: real)

  /** `AnnotationData`. */
  datatype Annotation = Annotation(id: string, text: string, position: Vec3)

  /** True when no record of `store` carries `id`. */
  predicate Absent(store: seq<Annotation>, id: string)
  {
    forall k :: 0 <= k < |store| ==> store[k].id != id
  }

  /** `addAnnotation`: build a record with the given id (the source draws it at
      random), text and a copy of the position, and push it at the end. */
  function Add(store: seq<Annotation>, id: string, text: string, position: Vec3)
    : (r: (seq<Annotation>, Annotation))
    ensures r.1.id == id && r.1.text == text && r.1.position == position
    ensures |r.0| == |store| + 1 && r.0[|store|] == r.1
    ensures r.0[..|store|] == store
  {
    var record := Annotation(id, text, position);
    (store + [record], record)
  }

  /** `Array.prototype.find` by id, as an index: the first record carrying `id`,
      or `|store|` when there is none. */
  function FindIndex(store: seq<Annotation>, id: string): (i: nat)
    ensures i <= |store|
    ensures forall k :: 0 <= k < i ==> store[k].id != id
    ensures i < |store| ==> store[i].id == id
    ensures i == |store| <==> Absent(store, id)
  {
    if |store| == 0 then 0
    else if store[0].id == id then 0
    else 1 + FindIndex(store[1..], id)
  }

  /** `updateAnnotation`: change the text of the first record carrying `id`. */
  function Update(store: seq<Annotation>, id: string, newText: string): (r: seq<Annotation>)
    ensures |r| == |store|
    ensures forall k :: 0 <= k < |store| ==>
              r[k].id == store[k].id && r[k].position == store[k].position
    ensures forall k :: 0 <= k < |store| && k != FindIndex(store, id) ==> r[k] == store[k]
    ensures FindIndex(store, id) < |store| ==> r[FindIndex(store, id)].text == newText
    ensures Absent(store, id) ==> r == store
  {
    var i := FindIndex(store, id);
    if i < |store| then store[i := store[i].(text := newText)] else store
  }

  /** `removeAnnotation`: keep, in order, exactly the records not carrying `id`. */
  function RemoveAll(store: seq<Annotation>, id: string): (r: seq<Annotation>)
    ensures forall a :: a in r <==> a in store && a.id != id
    ensures |r| <= |store|
    ensures Absent(r, id)
  {
    if |store| == 0 then []
    else (if store[0].id == id then [] else [store[0]]) + RemoveAll(store[1..], id)
  }

  /** Removal works record by record: the result for a concatenation is the
      concatenation of the results, so the kept records keep their order. */
  lemma {:induction false} RemoveAllConcat(a: seq<Annotation>, b: seq<Annotation>, id: string)
    ensures RemoveAll(a + b, id) == RemoveAll(a, id) + RemoveAll(b, id)
    decreases |a|
  {
    if |a| == 0 {
      assert a + b == b;
    } else {
      assert (a + b)[1..] == a[1..] + b;
      RemoveAllConcat(a[1..], b, id);
    }
  }

  /** Removing an id no record carries changes nothing. */
  lemma {:induction false} RemoveAbsent(store: seq<Annotation>, id: string)
    requires Absent(store, id)
    ensures RemoveAll(store, id) == store
    decreases |store|
  {
    if |store| > 0 {
      RemoveAbsent(store[1..], id);
      assert store == [store[0]] + store[1..];
    }
  }

  /** Removing twice is removing once. */
  lemma RemoveIdempotent(store: seq<Annotation>, id: string)
    ensures RemoveAll(RemoveAll(store, id), id) == RemoveAll(store, id)
  {
    RemoveAbsent(RemoveAll(store, id), id);
  }

  /** Adding a record under a fresh id and then removing that id restores the store. */
  lemma AddThenRemove(store: seq<Annotation>, id: string, text: string, position: Vec3)
    requires Absent(store, id)
    ensures RemoveAll(Add(store, id, text, position).0, id) == store
  {
    var record := Annotation(id, text, position);
    RemoveAllConcat(store, [record], id);
    RemoveAbsent(store, id);
    assert RemoveAll([record], id) == [];
  }

  /** After an update, the first record carrying the id has the new text; an
      update is undone by updating back to the old text. */
  lemma UpdateThenRestore(store: seq<Annotation>, id: string, newText: string)
    requires !Absent(store, id)
    ensures var i := FindIndex(store, id);
      && FindIndex(Update(store, id, newText), id) == i
      && Update(Update(store, id, newText), id, store[i].text) == store
  {
    var i := FindIndex(store, id);
    var updated := Update(store, id, newText);
    assert updated[i].id == id;
    assert forall k :: 0 <= k < i ==> updated[k].id != id;
    FindIndexIsFirst(updated, id, i);
  }

  /** Any index carrying `id` with no earlier one is what `find` returns. */
  lemma {:induction false} FindIndexIsFirst(store: seq<Annotation>, id: string, i: nat)
    requires i < |store| && store[i].id == id
    requires forall k :: 0 <= k < i ==> store[k].id != id
    ensures FindIndex(store, id) == i
    decreases i
  {
    if i > 0 {
      FindIndexIsFirst(store[1..], id, i - 1);
    }
  }

  /** The service: one array object, replaced wholesale by `removeAnnotation` and
      edited in place by `addAnnotation` and `updateAnnotation`. */
  class AnnotationService {
    var annotations: Box<Annotation>

    constructor()
      ensures annotations.elems == [] && fresh(annotations)
    {
      annotations := new Box([]);
    }

    /** Pushes into the CURRENT array and returns the new record. */
    method AddAnnotation(id: string, text: string, position: Vec3) returns (record: Annotation)
      modifies annotations
      ensures (annotations.elems, record) == Add(old(annotations.elems), id, text, position)
    {
      var r := Add(annotations.elems, id, text, position);
      annotations.elems := r.0;
      record := r.1;
    }

    /** Edits the first matching record where it is, in the current array. */
    method UpdateAnnotation(id: string, newText: string)
      modifies annotations
      ensures annotations.elems == Update(old(annotations.elems), id, newText)
    {
      annotations.elems := Update(annotations.elems, id, newText);
    }

    /** Installs a NEW filtered array; the old array object is left as it was. */
    method RemoveAnnotation(id: string)
      modifies this
      ensures fresh(annotations)
      ensures annotations.elems == RemoveAll(old(annotations.elems), id)
    {
      annotations := new Box(RemoveAll(annotations.elems, id));
    }

    /** A new cursor over the current array, held by reference. */
    method CreateIterator() returns (it: Cursor<Annotation>)
      ensures fresh(it)
      ensures it.source == annotations && it.position == 0
    {
      it := new Cursor(annotations);
    }
  }

  /** A cursor opened before `removeAnnotation` keeps walking the replaced array,
      so it still yields the removed record while the service holds none. */
  method IteratorOutlivesRemoval(id: string, text: string, position: Vec3)
    returns (seen: Option<Annotation>, stored: seq<Annotation>)
    ensures seen == Some(Annotation(id, text, position))
    ensures stored == []
  {
    var service := new AnnotationService();
    var record := service.AddAnnotation(id, text, position);
    var it := service.CreateIterator();
    service.RemoveAnnotation(id);
    seen := it.Next();
    stored := service.annotations.elems;
  }

  /** A cursor opened on an empty service sees a record added later, with the text
      of a later update, because both edit the array it holds. */
  method IteratorSeesLaterAddAndUpdate(id: string, text: string, newText: string, position: Vec3)
    returns (seen: Option<Annotation>, after: Option<Annotation>)
    ensures seen == Some(Annotation(id, newText, position))
    ensures after == None
  {
    var service := new AnnotationService();
    var it := service.CreateIterator();
    var record := service.AddAnnotation(id, text, position);
    service.UpdateAnnotation(id, newText);
    seen := it.Next();
    after := it.Next();
  }

  /** A cursor opened before a removal misses records added after it, since those
      go into the new array. */
  method IteratorMissesAddAfterRemoval(id: string, otherId: string, text: string, position: Vec3)
    returns (seen: seq<Option<Annotation>>)
    ensures seen == [Some(Annotation(id, text, position)), None]
  {
    var service := new AnnotationService();
    var first := service.AddAnnotation(id, text, position);
    var it := service.CreateIterator();
    service.RemoveAnnotation(id);
    var second := service.AddAnnotation(otherId, text, position);
    var a := it.Next();
    var b := it.Next();
    seen := [a, b];
  }
}
