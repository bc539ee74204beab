/**
 * The singly linked list of implementing-data-structures/singly-linked-list:
 * a LIFO stack of `i32` elements. Rust owns each node through a `Box`, and no
 * node is changed after it is built, so a node here is an object with
 * constant fields; the list's one mutable field is `head`.
 *
 * The ghost spine `Nodes` lists the nodes from `head` along `next` and
 * `Contents` their elements, most recently added first.
 */
module SinglyLinkedList {
  import opened Wrappers

  class Node {
    const element: int
    const next: Node?

    constructor (element: int, next: Node?)
      ensures this.element == element && this.next == next
    {
      this.element := element;
      this.next := next;
    }
  }

  class LinkList {
    var head: Node?
    ghost var Contents: seq<int>
    ghost var Nodes: seq<Node>

    /** `Nodes` is the chain from `head` along `next`, ending in null. */
    ghost predicate Valid()
      reads this
    {
      && |Nodes| == |Contents|
      && (Nodes == [] ==> head == null)
      && (Nodes != [] ==> head == Nodes[0] && Nodes[|Nodes| - 1].next == null)
      && (forall i :: 0 <= i < |Nodes| ==> Nodes[i].element == Contents[i])
      && (forall i :: 0 <= i < |Nodes| - 1 ==> Nodes[i].next == Nodes[i + 1])
    }

    /** `LinkList::new`: no head. */
    constructor ()
      ensures Valid() && Contents == []
    {
      head := null;
      Contents := [];
      Nodes := [];
    }

    /** `add`: a fresh node whose `next` is the previous head becomes the head. */
    method Add(element: int)
      requires Valid()
      modifies this
      ensures Valid()
      ensures Contents == [element] + old(Contents)
      ensures fresh(head) && head.next == old(head)
    {
      var previousHead := head;
      head := null;
      var newHead := new Node(element, previousHead);
      head := newHead;
      Nodes := [newHead] + Nodes;
      Contents := [element] + Contents;
    }

    /**
     * `remove`: on an empty list `None`, and the list stays empty; otherwise
     * the head's element, and the head's `next` becomes the head.
     */
    method Remove() returns (removed: Option<int>)
      requires Valid()
      modifies this
      ensures Valid()
      ensures old(Contents) == [] ==> removed == None && Contents == []
      ensures old(Contents) != [] ==>
                && removed == Some(old(Contents)[0])
                && Contents == old(Contents)[1..]
                && head == old(head.next)
    {
      var taken := head;
      head := null;
      if taken == null {
        removed := None;
      } else {
        head := taken.next;
        Nodes := Nodes[1..];
        Contents := Contents[1..];
        removed := Some(taken.element);
      }
    }

    /** `print`: the elements met walking `next` from `head`, most recent first. */
    method Print() returns (printed: seq<int>)
      requires Valid()
      ensures printed == Contents
    {
      printed := [];
      var listTraversal := head;
      ghost var k := 0;
      while listTraversal != null
        invariant 0 <= k <= |Nodes|
        invariant listTraversal == if k < |Nodes| then Nodes[k] else null
        invariant printed == Contents[..k]
        decreases |Nodes| - k
      {
        printed := printed + [listTraversal.element];
        listTraversal := listTraversal.next;
        k := k + 1;
      }
    }
  }

  /** `remove` straight after `add(x)` gives back `x` and the earlier contents. */
  method AddThenRemove(list: LinkList, x: int) returns (removed: Option<int>)
    requires list.Valid()
    modifies list
    ensures list.Valid()
    ensures removed == Some(x) && list.Contents == old(list.Contents)
  {
    list.Add(x);
    removed := list.Remove();
  }

  /** The run in `main`: `add` 1, 2, 3, then `print`, `remove`, `print`. */
  method AddPrintRemove() returns (before: seq<int>, removed: Option<int>, after: seq<int>)
    ensures before == [3, 2, 1]
    ensures removed == Some(3)
    ensures after == [2, 1]
  {
    var list := new LinkList();
    list.Add(1);
    list.Add(2);
    list.Add(3);
    before := list.Print();
    removed := list.Remove();
    after := list.Print();
  }

  /** `remove` on a new list finds nothing and leaves it empty. */
  method RemoveFromNew() returns (removed: Option<int>, after: seq<int>)
    ensures removed == None && after == []
  {
    var list := new LinkList();
    removed := list.Remove();
    after := list.Print();
  }
}
