/** `AnnotationController`: the current layout and the fixed two-level node search.
    The annotation service and rendering engine it also holds are used only by its
    logging/rendering methods, which are not part of this model. */
module AnnotationControl {
  import opened Iteration
  import opened SceneGraph

  /** The nodes the two-level search compares, in the order it compares them: each
      room, followed by that room's direct children. The layout root itself and
      anything below a room's children are not included. */
  ghost function SearchOrder(rooms: seq<SceneNode>): (r: seq<SceneNode>)
    reads set room | room in rooms :: room.children
  {
    if |rooms| == 0 then []
    else [rooms[0]] + rooms[0].children.elems + SearchOrder(rooms[1..])
  }

  /** The first node of `nodes` whose id is `id`, or `null`. */
  function FirstWithId(nodes: seq<SceneNode>, id: string): (r: SceneNode?)
    ensures r != null ==> r in nodes && r.id == id
    ensures r == null <==> NoMatch(nodes, id)
    ensures r != null ==> exists i :: 0 <= i < |nodes| && nodes[i] == r
                            && forall k :: 0 <= k < i ==> nodes[k].id != id
  {
    if |nodes| == 0 then null
    else if nodes[0].id == id then nodes[0]
    else
      var r := FirstWithId(nodes[1..], id);
      assert forall k :: 1 <= k < |nodes| ==> nodes[k] == nodes[1..][k - 1];
      r
  }

  /** No node of `nodes` has the id `id`. */
  predicate NoMatch(nodes: seq<SceneNode>, id: string)
  {
    forall k :: 0 <= k < |nodes| ==> nodes[k].id != id
  }

  /** The same order over a snapshot: `items[i]` holds the children of `rooms[i]`. */
  function Levels(rooms: seq<SceneNode>, items: seq<seq<SceneNode>>): (r: seq<SceneNode>)
    requires |rooms| == |items|
  {
    if |rooms| == 0 then []
    else [rooms[0]] + items[0] + Levels(rooms[1..], items[1..])
  }

  /** A snapshot of the children of each room. */
  ghost function ItemsOf(rooms: seq<SceneNode>): (r: seq<seq<SceneNode>>)
    reads set room | room in rooms :: room.children
    ensures |r| == |rooms|
    ensures forall i :: 0 <= i < |rooms| ==> r[i] == rooms[i].children.elems
  {
    seq(|rooms|, i reads set room | room in rooms :: room.children
                   => if 0 <= i < |rooms| then rooms[i].children.elems else [])
  }

  /** The search order of the live tree is that of a snapshot of its rooms' children. */
  lemma {:induction false} SearchOrderIsLevels(rooms: seq<SceneNode>, items: seq<seq<SceneNode>>)
    requires |rooms| == |items|
    requires forall i :: 0 <= i < |rooms| ==> items[i] == rooms[i].children.elems
    ensures SearchOrder(rooms) == Levels(rooms, items)
    decreases |rooms|
  {
    if |rooms| > 0 {
      SearchOrderIsLevels(rooms[1..], items[1..]);
    }
  }

  /** Skipping a prefix with no match does not change the first match. */
  lemma {:induction false} FirstWithIdSkips(a: seq<SceneNode>, b: seq<SceneNode>, id: string)
    requires forall k :: 0 <= k < |a| ==> a[k].id != id
    ensures FirstWithId(a + b, id) == FirstWithId(b, id)
    decreases |a|
  {
    if |a| > 0 {
      assert (a + b)[1..] == a[1..] + b;
      FirstWithIdSkips(a[1..], b, id);
    } else {
      assert a + b == b;
    }
  }

  /** A match inside a prefix is the first match of the whole sequence. */
  lemma {:induction false} FirstWithIdInPrefix(a: seq<SceneNode>, b: seq<SceneNode>, id: string)
    requires FirstWithId(a, id) != null
    ensures FirstWithId(a + b, id) == FirstWithId(a, id)
    decreases |a|
  {
    if a[0].id != id {
      assert (a + b)[1..] == a[1..] + b;
      FirstWithIdInPrefix(a[1..], b, id);
    }
  }

  /** Unfolding the remaining search order at room `p`. */
  lemma LevelsUnfold(rooms: seq<SceneNode>, items: seq<seq<SceneNode>>, p: nat)
    requires |rooms| == |items| && p < |rooms|
    ensures Levels(rooms[p..], items[p..])
            == [rooms[p]] + items[p] + Levels(rooms[p + 1..], items[p + 1..])
  {
    assert rooms[p..][1..] == rooms[p + 1..];
    assert items[p..][1..] == items[p + 1..];
  }

  /** The inner loop: walk a room's items with the room's iterator and return the
      first whose id matches, or `null`. */
  method SearchItems(room: SceneNode, id: string) returns (found: SceneNode?)
    ensures found == FirstWithId(room.children.elems, id)
  {
    var items := room.children.elems;
    var roomIterator := room.CreateIterator();
    var moreItems := roomIterator.HasNext();
    while moreItems
      invariant roomIterator.source == room.children
      invariant roomIterator.position <= |items|
      invariant moreItems <==> roomIterator.position < |items|
      invariant forall k :: 0 <= k < roomIterator.position ==> items[k].id != id
      decreases |items| - roomIterator.position
    {
      var q := roomIterator.position;
      var item := roomIterator.Next();
      if item.value.id == id {
        assert items == items[..q] + items[q..];
        FirstWithIdSkips(items[..q], items[q..], id);
        return item.value;
      }
      moreItems := roomIterator.HasNext();
    }
    return null;
  }

  /** One room of the outer loop: compare the room's own id, then search its items. */
  method SearchRoom(room: SceneNode, id: string) returns (found: SceneNode?)
    ensures found == FirstWithId([room] + room.children.elems, id)
  {
    if room.id == id {
      return room;
    }
    found := SearchItems(room, id);
    FirstWithIdSkips([room], room.children.elems, id);
  }

  /** The outer loop's step: the first match of the remaining order is the match in
      room `p` if there is one, and otherwise the first match after room `p`. */
  lemma SearchStep(rooms: seq<SceneNode>, items: seq<seq<SceneNode>>, p: nat, id: string,
                   goal: SceneNode?)
    requires |rooms| == |items| && p < |rooms|
    requires goal == FirstWithId(Levels(rooms[p..], items[p..]), id)
    ensures FirstWithId([rooms[p]] + items[p], id) != null ==>
              goal == FirstWithId([rooms[p]] + items[p], id)
    ensures FirstWithId([rooms[p]] + items[p], id) == null ==>
              goal == FirstWithId(Levels(rooms[p + 1..], items[p + 1..]), id)
  {
    LevelsUnfold(rooms, items, p);
    var here := [rooms[p]] + items[p];
    var rest := Levels(rooms[p + 1..], items[p + 1..]);
    if FirstWithId(here, id) != null {
      FirstWithIdInPrefix(here, rest, id);
    } else {
      FirstWithIdSkips(here, rest, id);
    }
  }

  /** The outer loop of `findNodeById`: walk the layout's rooms with its iterator,
      searching each room in turn; `null` when no room yields a match. `items` is a
      snapshot of each room's children. */
  method SearchRooms(layout: SceneNode, id: string, ghost items: seq<seq<SceneNode>>)
    returns (r: SceneNode?)
    requires items == ItemsOf(layout.children.elems)
    ensures r == FirstWithId(Levels(layout.children.elems, items), id)
  {
    var rooms := layout.children.elems;
    ghost var goal := FirstWithId(Levels(rooms, items), id);
    var layoutIterator := layout.CreateIterator();
    var more := layoutIterator.HasNext();
    while more
      invariant layoutIterator.source == layout.children
      invariant layoutIterator.position <= |rooms|
      invariant more <==> layoutIterator.position < |rooms|
      invariant goal == FirstWithId(Levels(rooms[layoutIterator.position..], items[layoutIterator.position..]), id)
      decreases |rooms| - layoutIterator.position
    {
      var p := layoutIterator.position;
      var next := layoutIterator.Next();
      var found := SearchRoom(next.value, id);
      SearchStep(rooms, items, p, id, goal);
      if found != null {
        return found;
      }
      more := layoutIterator.HasNext();
    }
    return null;
  }

  class AnnotationController {
    var currentLayout: SceneNode?

    /** A new controller has no layout. */
    constructor()
      ensures currentLayout == null
    {
      currentLayout := null;
    }

    /** `setLayout`: later searches use this layout. */
    method SetLayout(layout: SceneNode)
      modifies this
      ensures currentLayout == layout
    {
      currentLayout := layout;
    }

    /** `findNodeById`: walk the rooms with the layout's iterator; compare each room's
        id, then walk that room's items with the room's iterator. The first match in
        that order wins; `null` without a layout or without a match. */
    method FindNodeById(id: string) returns (r: SceneNode?)
      ensures currentLayout == null ==> r == null
      ensures currentLayout != null ==>
                r == FirstWithId(SearchOrder(currentLayout.children.elems), id)
      ensures r != null ==> r.id == id
      ensures r == null <==> currentLayout == null || NoMatch(SearchOrder(currentLayout.children.elems), id)
    {
      if currentLayout == null {
        return null;
      }
      ghost var items := ItemsOf(currentLayout.children.elems);
      SearchOrderIsLevels(currentLayout.children.elems, items);
      r := SearchRooms(currentLayout, id, items);
    }
  }

  /** The layout root's own id is never compared: a layout whose only node with
      the requested id is the root itself gives `null`. */
  method RootIsNotSearched(id: string, roomId: string) returns (r: SceneNode?)
    requires roomId != id
    ensures r == null
  {
    var layout := new SceneNode(id, "layout", LayoutKind);
    var room := new SceneNode(roomId, "room", RoomKind);
    layout.Add(room);
    var controller := new AnnotationController();
    controller.SetLayout(layout);
    r := controller.FindNodeById(id);
    assert SearchOrder([room]) == [room];
  }

  /** Only two levels are searched: an item nested inside another item is not found. */
  method NestedItemIsNotFound(id: string) returns (r: SceneNode?)
    requires id != "room" && id != "item"
    ensures r == null
  {
    var layout := new SceneNode("layout", "layout", LayoutKind);
    var room := new SceneNode("room", "room", RoomKind);
    var item := new SceneNode("item", "item", FurnitureKind);
    var part := new SceneNode(id, "part", FurnitureKind);
    layout.Add(room);
    room.Add(item);
    item.Add(part);
    var controller := new AnnotationController();
    controller.SetLayout(layout);
    r := controller.FindNodeById(id);
    assert SearchOrder([room]) == [room, item];
  }
}
