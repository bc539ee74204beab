/**
 * The doubly linked list of implementing-data-structures/doubly-linked-list.
 *
 * Rust shares each node between its neighbours through `Rc<RefCell<Node>>`;
 * here a node is a Dafny object and the `Option<Rc<..>>` links are nullable
 * references. The list keeps `head` and `tail`; `add` pushes at the head and
 * `remove` pops from the head, so the tail stays the oldest node.
 *
 * The ghost spine `Nodes` lists the nodes from head to tail and `Contents`
 * their elements; `Valid()` ties both to the real links.
 */
module DoublyLinkedList {
  import opened Wrappers

  /** `s` read from its last element to its first. */
  function Reverse(s: seq<int>): (r: seq<int>)
    ensures |r| == |s|
    ensures forall i :: 0 <= i < |s| ==> r[i] == s[|s| - 1 - i]
  {
    if s == [] then [] else [s[|s| - 1]] + Reverse(s[..|s| - 1])
  }

  /** One element with links to the next (newer to older) and previous node. */
  class Node {
    var element: int
    var next: Node?
    var previous: Node?

    /** `Node::new`: a node holding `element`, linked to nothing. */
    constructor (element: int)
      ensures this.element == element && next == null && previous == null
    {
      this.element := element;
      next := null;
      previous := null;
    }
  }

  class DoublyLinkList {
    var head: Node?
    var tail: Node?
    ghost var Contents: seq<int>
    ghost var Nodes: seq<Node>

    /**
     * The link invariant: `Nodes` runs from `head` to `tail` along `next`,
     * each `previous` points back to its predecessor, the ends are open, and no
     * node occurs twice. In particular `head` is null exactly when `tail` is.
     */
    ghost predicate Valid()
      reads this, Nodes
      ensures Valid() ==> (head == null <==> tail == null)
    {
      && |Nodes| == |Contents|
      && (Nodes == [] ==> head == null && tail == null)
      && (Nodes != [] ==>
            && head == Nodes[0] && tail == Nodes[|Nodes| - 1]
            && Nodes[0].previous == null && Nodes[|Nodes| - 1].next == null)
      && (forall i :: 0 <= i < |Nodes| ==> Nodes[i].element == Contents[i])
      && (forall i :: 0 <= i < |Nodes| - 1 ==>
            Nodes[i].next == Nodes[i + 1] && Nodes[i + 1].previous == Nodes[i])
      && (forall i, j :: 0 <= i < j < |Nodes| ==> Nodes[i] != Nodes[j])
    }

    /** `DoublyLinkList::new`: both ends empty. */
    constructor ()
      ensures Valid() && Contents == [] && Nodes == []
      ensures head == null && tail == null
    {
      head := null;
      tail := null;
      Contents := [];
      Nodes := [];
    }

    /**
     * `add`: a fresh node becomes the head. On a non-empty list it is linked
     * both ways to the old head and the tail stays; on an empty list it is
     * head and tail at once.
     */
    method Add(element: int)
      requires Valid()
      modifies this, Nodes
      ensures Valid()
      ensures Contents == [element] + old(Contents)
      ensures fresh(head) && Nodes == [head] + old(Nodes)
      ensures head.next == old(head) && head.previous == null
      ensures old(head) != null ==> old(head).previous == head && tail == old(tail)
      ensures old(head) == null ==> tail == head
    {
      var newHead := new Node(element);
      var oldHead := head;
      head := null;
      if oldHead != null {
        oldHead.previous := newHead;
        newHead.next := oldHead;
        head := newHead;
      } else {
        tail := newHead;
        head := newHead;
      }
      Nodes := [newHead] + Nodes;
      Contents := [element] + Contents;
    }

    /**
     * `remove`: on an empty list, `None` and nothing changes. Otherwise the old
     * head's element; the old head is unlinked, the next node becomes head with
     * no `previous`, and removing the only node also clears `tail`.
     */
    method Remove() returns (removed: Option<int>)
      requires Valid()
      modifies this, Nodes
      ensures Valid()
      ensures old(Contents) == [] ==> removed == None && unchanged(this)
      ensures old(Contents) != [] ==>
                && removed == Some(old(Contents)[0])
                && Contents == old(Contents)[1..]
                && Nodes == old(Nodes)[1..]
                && old(head).next == null
                && head == old(head.next)
      ensures old(|Contents|) > 1 ==> head.previous == null && tail == old(tail)
      ensures old(|Contents|) == 1 ==> head == null && tail == null
    {
      if head == null {
        removed := None;
      } else {
        var removedValue := head.element;
        var oldHead := head;
        head := null;
        var newHead := oldHead.next;
        oldHead.next := null;
        if newHead != null {
          assert newHead == Nodes[1];
          newHead.previous := null;
          head := newHead;
        } else {
          tail := null;
        }
        Nodes := Nodes[1..];
        Contents := Contents[1..];
        removed := Some(removedValue);
      }
    }

    /** `print`: the elements met walking `next` from `head`, i.e. newest first. */
    method Print() returns (printed: seq<int>)
      requires Valid()
      ensures printed == Contents
    {
      printed := [];
      var traversal := head;
      ghost var k := 0;
      while traversal != null
        invariant 0 <= k <= |Nodes|
        invariant traversal == if k < |Nodes| then Nodes[k] else null
        invariant printed == Contents[..k]
        decreases |Nodes| - k
      {
        printed := printed + [traversal.element];
        traversal := traversal.next;
        k := k + 1;
      }
    }

    /** The position of `n` on the spine; unique because no node occurs twice. */
    ghost function IndexOf(n: Node): (i: nat)
      reads this, Nodes
      requires Valid() && n in Nodes
      ensures i < |Nodes| && Nodes[i] == n
      ensures forall j :: 0 <= j < |Nodes| && Nodes[j] == n ==> j == i
    {
      var i :| 0 <= i < |Nodes| && Nodes[i] == n;
      i
    }

    /** The elements met walking `previous` from `n` until the links run out. */
    ghost function WalkBack(n: Node?): seq<int>
      reads this, Nodes
      requires Valid() && (n == null || n in Nodes)
      decreases if n == null then 0 else IndexOf(n) + 1
    {
      if n == null then []
      else
        var i := IndexOf(n);
        assert i > 0 ==> n.previous == Nodes[i - 1] && IndexOf(Nodes[i - 1]) == i - 1;
        [n.element] + WalkBack(n.previous)
    }

    /** Walking back from the `k`-th node meets the first `k + 1` elements in reverse. */
    lemma {:induction false} WalkBackFrom(k: nat)
      requires Valid() && k < |Nodes|
      ensures WalkBack(Nodes[k]) == Reverse(Contents[..k + 1])
      decreases k
    {
      assert IndexOf(Nodes[k]) == k;
      if k > 0 {
        WalkBackFrom(k - 1);
        assert Contents[..k + 1][..k] == Contents[..k];
      }
    }

    /**
     * `next` and `previous` agree: walking back from `tail` until the links
     * run out gives the reverse of what `Print` gives walking forward.
     */
    lemma WalkBackFromTail()
      requires Valid()
      ensures WalkBack(tail) == Reverse(Contents)
    {
      if Contents != [] {
        WalkBackFrom(|Contents| - 1);
        assert Contents[..|Contents|] == Contents;
      }
    }
  }

  /** The run in `main`: `add` 5, 14, 2, 9, then `print`, `remove`, `print`. */
  method AddPrintRemove() returns (before: seq<int>, removed: Option<int>, after: seq<int>)
    ensures before == [9, 2, 14, 5]
    ensures removed == Some(9)
    ensures after == [2, 14, 5]
  {
    var list := new DoublyLinkList();
    list.Add(5);
    list.Add(14);
    list.Add(2);
    list.Add(9);
    before := list.Print();
    removed := list.Remove();
    after := list.Print();
  }
}
