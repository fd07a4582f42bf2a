/** `Database` and `I2DToolsFactory`: the in-memory persistence stage and the tool
    factory the generation pipeline consults. */
module Storage {
  import opened Wrappers
  import opened Annotations

  /** Layouts stored under string ids, plus a flat list of annotation records.
      `L` is the type of a stored layout, which the database never inspects. */
  datatype Database<L> = Database(layouts: map<string, L>, annotations: seq<Annotation>)

  /** A new, empty database. */
  function EmptyDatabase<L>(): (db: Database<L>)
    ensures db.layouts == map[] && db.annotations == []
  {
    Database(map[], [])
  }

  /** `store`: put the layout under `id` (the source draws it at random) and return
      the id. Like `Map.set`, it overwrites an existing entry under the same id. */
  function Store<L>(db: Database<L>, id: string, layout: L): (r: (Database<L>, string))
    ensures r.1 == id
    ensures r.0.layouts.Keys == db.layouts.Keys + {id}
    ensures r.0.layouts[id] == layout
    ensures forall k :: k in db.layouts && k != id ==> r.0.layouts[k] == db.layouts[k]
    ensures r.0.annotations == db.annotations
  {
    (db.(layouts := db.layouts[id := layout]), id)
  }

  /** `getLayout`: the layout stored under `id`, or `undefined`. */
  function GetLayout<L>(db: Database<L>, id: string): (r: Option<L>)
    ensures r.Some? <==> id in db.layouts
    ensures r.Some? ==> r.value == db.layouts[id]
  {
    if id in db.layouts then Some(db.layouts[id]) else None
  }

  /** `getLayout` of the id `store` returned gives the stored layout. */
  lemma StoreThenGet<L>(db: Database<L>, id: string, layout: L)
    ensures GetLayout(Store(db, id, layout).0, Store(db, id, layout).1) == Some(layout)
  {
  }

  /** Storing under a fresh id keeps every earlier layout retrievable and unchanged,
      and an id never stored stays missing. */
  lemma StoreKeepsOthers<L>(db: Database<L>, id: string, layout: L, other: string)
    requires id !in db.layouts
    requires other != id
    ensures GetLayout(Store(db, id, layout).0, other) == GetLayout(db, other)
  {
  }

  /** `addAnnotation`: push at the end. */
  function AddAnnotation<L>(db: Database<L>, data: Annotation): (r: Database<L>)
    ensures r.annotations == db.annotations + [data]
    ensures r.layouts == db.layouts
  {
    db.(annotations := db.annotations + [data])
  }

  /** `getAnnotations`: the list, in insertion order. */
  function GetAnnotations<L>(db: Database<L>): seq<Annotation>
  {
    db.annotations
  }

  /** Add each record of `items` in turn. */
  function AddEach<L>(db: Database<L>, items: seq<Annotation>): (r: Database<L>)
    ensures r.layouts == db.layouts
    decreases |items|
  {
    if |items| == 0 then db else AddEach(AddAnnotation(db, items[0]), items[1..])
  }

  /** `getAnnotations` after any run of `addAnnotation` calls lists the earlier
      annotations followed by the added ones, in the order they were added. */
  lemma {:induction false} GetAnnotationsInAddOrder<L>(db: Database<L>, items: seq<Annotation>)
    ensures GetAnnotations(AddEach(db, items)) == GetAnnotations(db) + items
    decreases |items|
  {
    if |items| > 0 {
      GetAnnotationsInAddOrder(AddAnnotation(db, items[0]), items[1..]);
      assert GetAnnotations(db) + [items[0]] + items[1..] == GetAnnotations(db) + items;
    }
  }

  /** `deleteAnnotation`: keep exactly the entries not carrying `id`, in order. */
  function DeleteAnnotation<L>(db: Database<L>, id: string): (r: Database<L>)
    ensures forall a :: a in GetAnnotations(r) <==> a in GetAnnotations(db) && a.id != id
    ensures r.annotations == RemoveAll(db.annotations, id)
    ensures r.layouts == db.layouts
  {
    db.(annotations := RemoveAll(db.annotations, id))
  }

  /** Annotations come back in the order they were added, and deleting an id is
      idempotent and a no-op when absent. */
  lemma AnnotationsInOrder<L>(db: Database<L>, data: Annotation, id: string)
    ensures GetAnnotations(AddAnnotation(db, data)) == GetAnnotations(db) + [data]
    ensures DeleteAnnotation(DeleteAnnotation(db, id), id) == DeleteAnnotation(db, id)
    ensures Absent(db.annotations, id) ==> DeleteAnnotation(db, id) == db
  {
    RemoveIdempotent(db.annotations, id);
    if Absent(db.annotations, id) {
      RemoveAbsent(db.annotations, id);
    }
  }

  /** A drawing tool made by `I2DToolsFactory`. Tools are untyped in the source and
      none is ever made, so the type has no content. */
  datatype Tool = Tool

  /** `createTools`: no tools, for every plan. */
  function CreateTools(planID: string): (tools: seq<Tool>)
    ensures |tools| == 0
  {
    []
  }
}
