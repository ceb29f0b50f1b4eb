/** The part of GLib's doubly linked list that daemon/manager.c uses, on heap nodes. */
module GLists {
  import opened Basics
  import opened RegistryModel

  /** A link.  A link never changes its data, nor the owner whose list it belongs to. */
  class Node {
    const data: Service
    ghost const owner: Conn
    var next: Node?
    var prev: Node?

    constructor (data: Service, ghost owner: Conn)
      ensures this.data == data && this.owner == owner && next == null && prev == null
    {
      this.data, this.owner, next, prev := data, owner, null, null;
    }
  }

  ghost function At(spine: seq<Node>, i: int): Node? {
    if 0 <= i < |spine| then spine[i] else null
  }

  /** Following `next` from `head` visits the links of `spine`, in order, and ends. */
  ghost predicate Chain(head: Node?, spine: seq<Node>)
    reads spine
  {
    && head == At(spine, 0)
    && (forall i {:trigger spine[i].next} | 0 <= i < |spine| :: spine[i].next == At(spine, i + 1))
    && (forall i, j | 0 <= i < j < |spine| :: spine[i] != spine[j])
  }

  /** `head` is the true head of an acyclic, doubly linked list with the links `spine`. */
  ghost predicate IsList(head: Node?, spine: seq<Node>)
    reads spine
  {
    && Chain(head, spine)
    && (forall i {:trigger spine[i].prev} | 0 <= i < |spine| :: spine[i].prev == At(spine, i - 1))
  }

  ghost function DataOf(spine: seq<Node>): (l: seq<Service>)
    ensures |l| == |spine| && forall i | 0 <= i < |l| :: l[i] == spine[i].data
  {
    seq(|spine|, i requires 0 <= i < |spine| => spine[i].data)
  }

  /** `g_list_append`: walks to the last link; an empty list gets a new head. */
  method Append(head: Node?, data: Service, ghost owner: Conn, ghost spine: seq<Node>)
      returns (newHead: Node, link: Node)
    requires IsList(head, spine)
    modifies spine
    ensures fresh(link) && link.data == data && link.owner == owner
    ensures IsList(newHead, spine + [link])
    ensures DataOf(spine + [link]) == DataOf(spine) + [data]
    ensures head != null ==> newHead == head
  {
    link := new Node(data, owner);
    if head == null {
      newHead := link;
    } else {
      newHead := head;
      var last: Node := head;
      ghost var k := 0;
      while last.next != null
        invariant 0 <= k < |spine| && last == spine[k]
        decreases |spine| - k
      {
        last := last.next;
        k := k + 1;
      }
      last.next := link;
      link.prev := last;
    }
  }

  ghost function Links(spine: seq<Node>): set<Node> {
    set n | n in spine
  }

  lemma LinksAppend(spine: seq<Node>, link: Node)
    ensures Links(spine + [link]) == Links(spine) + {link}
  {}

  ghost function Without(spine: seq<Node>, k: nat): (rest: seq<Node>)
    requires k < |spine|
    ensures |rest| == |spine| - 1
    ensures forall i | 0 <= i < |rest| :: rest[i] == spine[if i < k then i else i + 1]
  {
    spine[..k] + spine[k + 1..]
  }

  lemma LinksWithout(spine: seq<Node>, k: nat)
    requires k < |spine|
    ensures Links(spine) == {spine[k]} + Links(Without(spine, k))
  {
    assert spine == spine[..k] + [spine[k]] + spine[k + 1..];
  }

  /** `_g_list_remove_link`: the neighbours of the link are joined. */
  method Unlink(head: Node, link: Node, ghost spine: seq<Node>, ghost k: nat) returns (newHead: Node?)
    requires IsList(head, spine)
    requires k < |spine| && spine[k] == link
    modifies spine
    ensures IsList(newHead, Without(spine, k))
    ensures newHead == head <==> k > 0
  {
    var p, n := link.prev, link.next;
    assert p == At(spine, k - 1) && n == At(spine, k + 1);
    if p != null { p.next := n; }
    if n != null { n.prev := p; }
    newHead := if link == head then n else head;
  }

  /** `g_list_free`: gives every link of the chain back to the allocator, whose freed links
      are `before`.  No link may have been freed already. */
  method Free(head: Node?, ghost chain: seq<Node>, ghost before: set<Node>) returns (ghost freed: set<Node>)
    requires Chain(head, chain) && Links(chain) !! before
    ensures freed == before + Links(chain)
  {
    freed := before;
    var link := head;
    ghost var k := 0;
    while link != null
      invariant 0 <= k <= |chain| && link == At(chain, k)
      invariant freed == before + Links(chain[..k])
      decreases |chain| - k
    {
      assert link in Links(chain) && link !in freed;
      assert chain[..k + 1] == chain[..k] + [link];
      freed := freed + {link};
      link := link.next;
      k := k + 1;
    }
    assert chain[..k] == chain;
  }

  /** `g_list_remove`: unlinks and frees the first link that holds `data`, if any. */
  method Remove(head: Node?, data: Service, ghost spine: seq<Node>)
      returns (newHead: Node?, ghost newSpine: seq<Node>, ghost freed: set<Node>)
    requires IsList(head, spine)
    modifies spine
    ensures IsList(newHead, newSpine)
    ensures DataOf(newSpine) == RemoveFirst(DataOf(spine), data)
    ensures Links(spine) == freed + Links(newSpine) && freed !! Links(newSpine)
  {
    var link := head;
    ghost var k := 0;
    while link != null && link.data != data
      invariant 0 <= k <= |spine| && link == At(spine, k)
      invariant forall i | 0 <= i < k :: spine[i].data != data
      decreases |spine| - k
    {
      link := link.next;
      k := k + 1;
    }
    if link == null {
      RemoveFirstAbsent(DataOf(spine), data);
      return head, spine, {};
    }
    RemoveFirstAt(DataOf(spine), data, k);
    newHead := Unlink(head, link, spine, k);
    LinksWithout(spine, k);
    newSpine, freed := Without(spine, k), {link};
  }
}
