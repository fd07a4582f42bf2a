/** The composite scene tree: `SceneNode` and its three kinds. `Layout3D`, `Room` and
    `Furniture` differ only in the alias their `createIterator` uses, and every alias
    is the plain composite cursor, so one node class with a kind tag models all three. */
module SceneGraph {
  import opened Wrappers
  import opened Iteration
  import Seqs

  /** The role of a node: the layout root, a room, or an item of furniture. */
  datatype Kind = LayoutKind | RoomKind | FurnitureKind

  /** A scene node. Its `children` array is created with the node and only ever
      edited in place (`push`, `splice`), so it is a constant reference to a shared
      `Box`; every iterator the node hands out points to the same box. The visual
      handle `object3D` is not modelled. */
  class SceneNode {
    const id: string
    const name: string
    const kind: Kind
    const children: Box<SceneNode>

    /** A new node has the given id and name and no children. */
    constructor(id: string, name: string, kind: Kind)
      ensures this.id == id && this.name == name && this.kind == kind
      ensures children.elems == [] && fresh(children)
    {
      this.id := id;
      this.name := name;
      this.kind := kind;
      children := new Box([]);
    }

    /** `add`: push the node at the end, with no duplicate check. */
    method Add(node: SceneNode)
      modifies children
      ensures children.elems == old(children.elems) + [node]
    {
      children.elems := children.elems + [node];
    }

    /** `remove`: splice out the first occurrence of the node, if any. */
    method Remove(node: SceneNode)
      modifies children
      ensures children.elems == Seqs.RemoveFirst(old(children.elems), node)
    {
      var index := Seqs.IndexOf(children.elems, node);
      if index > -1 {
        children.elems := Seqs.Splice(children.elems, index);
      }
    }

    /** `createIterator`, for every kind: a new cursor at position 0 over this
        node's own children array, not a copy of it. */
    method CreateIterator() returns (it: Cursor<SceneNode>)
      ensures fresh(it)
      ensures it.source == children && it.position == 0
    {
      it := new Cursor(children);
    }
  }

  /** A room added to a layout while an iterator over the layout is open is still
      yielded, after the rooms already there; and two iterators over the same node
      keep independent positions. */
  method OpenIteratorSeesLaterAdd(layoutId: string, firstId: string, secondId: string)
    returns (visited: seq<string>, other: Option<string>)
    ensures visited == [firstId, secondId]
    ensures other == Some(firstId)
  {
    var layout := new SceneNode(layoutId, "layout", LayoutKind);
    var first := new SceneNode(firstId, "first", RoomKind);
    var second := new SceneNode(secondId, "second", RoomKind);
    layout.Add(first);
    var it := layout.CreateIterator();
    var otherIt := layout.CreateIterator();
    var a := it.Next();
    layout.Add(second);
    var b := it.Next();
    var done := it.HasNext();
    assert !done;
    var c := otherIt.Next();
    visited := [a.value.id, b.value.id];
    other := Some(c.value.id);
  }

  /** Splicing out a child the iterator has already passed makes it skip the child
      that was next in line: of three items, only the first and the third are seen. */
  method RemovalDuringIterationSkips(roomId: string, ids: seq<string>)
    returns (visited: seq<string>)
    requires |ids| == 3
    ensures visited == [ids[0], ids[2]]
  {
    var room := new SceneNode(roomId, "room", RoomKind);
    var a := new SceneNode(ids[0], "a", FurnitureKind);
    var b := new SceneNode(ids[1], "b", FurnitureKind);
    var c := new SceneNode(ids[2], "c", FurnitureKind);
    room.Add(a);
    room.Add(b);
    room.Add(c);
    var it := room.CreateIterator();
    var x := it.Next();
    room.Remove(a);
    var y := it.Next();
    var done := it.HasNext();
    assert !done;
    visited := [x.value.id, y.value.id];
  }
}
