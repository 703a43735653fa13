/**
 The C client's message queue: a singly linked list under one mutex, with a close
 flag. Each method is one critical section, so its contract holds for every
 interleaving of the threads that share the queue.
 */
module MsgQueue {

  class Node<T> {
    const data: T
    var next: Node?<T>

    constructor (data: T)
      ensures this.data == data && next == null
    {
      this.data := data;
      next := null;
    }
  }

  ghost function DataOf<T>(spine: seq<Node<T>>): (s: seq<T>)
    ensures |s| == |spine|
  {
    seq(|spine|, i requires 0 <= i < |spine| => spine[i].data)
  }

  datatype Popped<T> = Got(data: T) | Nothing

  class Queue<T> {
    var head: Node?<T>
    var tail: Node?<T>
    var count: nat
    var closed: bool
    /** The nodes from head to tail. */
    ghost var spine: seq<Node<T>>
    /** Everything that was ever accepted, and everything that was ever taken out. */
    ghost var accepted: seq<T>
    ghost var taken: seq<T>

    ghost predicate Linked()
      reads this`head, this`tail, this`spine, spine
    {
      && (forall i, j :: 0 <= i < j < |spine| ==> spine[i] != spine[j])
      && (forall i :: 0 <= i < |spine| - 1 ==> spine[i].next == spine[i + 1])
      && (spine != [] ==> spine[|spine| - 1].next == null)
      && (if spine == [] then head == null && tail == null
          else head == spine[0] && tail == spine[|spine| - 1])
    }

    ghost predicate Valid()
      reads this, spine
    {
      && Linked()
      && count == |spine|
      && accepted == taken + Contents()
    }

    /** What is queued, oldest first. */
    ghost function Contents(): (s: seq<T>)
      reads this`spine
      ensures |s| == |spine|
    {
      DataOf(spine)
    }

    constructor ()
      ensures Valid() && !closed && Contents() == [] && accepted == [] && taken == []
    {
      head, tail, count, closed := null, null, 0, false;
      spine, accepted, taken := [], [], [];
    }

    /** True when the message was accepted: exactly when the queue was open. */
    method Push(data: T) returns (ok: bool)
      requires Valid()
      modifies this, spine
      ensures Valid() && closed == old(closed) && taken == old(taken)
      ensures ok == !old(closed)
      ensures Contents() == if ok then old(Contents()) + [data] else old(Contents())
      ensures accepted == if ok then old(accepted) + [data] else old(accepted)
      ensures forall n :: n in spine ==> n in old(spine) || fresh(n)
    {
      var node := new Node(data);
      if closed {
        return false;
      }
      if tail != null {
        tail.next := node;
      } else {
        head := node;
      }
      tail := node;
      count := count + 1;
      ghost var was := Contents();
      spine := spine + [node];
      accepted := accepted + [data];
      assert Contents() == old(Contents()) + [data];
      return true;
    }

    /** The oldest message, also from a closed queue; nothing exactly when none is queued. */
    method TryPop() returns (r: Popped<T>)
      requires Valid()
      modifies this
      ensures Valid() && closed == old(closed) && accepted == old(accepted)
      ensures old(Contents()) == [] ==> r == Nothing && Contents() == [] && taken == old(taken)
      ensures old(Contents()) != [] ==>
                && r == Got(old(Contents())[0])
                && Contents() == old(Contents())[1..]
                && taken == old(taken) + [r.data]
      ensures forall n :: n in spine ==> n in old(spine)
    {
      if head == null {
        return Nothing;
      }
      var node := head;
      head := node.next;
      if head == null {
        tail := null;
      }
      count := count - 1;
      spine := spine[1..];
      taken := taken + [node.data];
      assert Contents() == old(Contents())[1..];
      assert old(Contents()) == [node.data] + Contents();
      return Got(node.data);
    }

    /** A pop after its wait has ended: a message was there, or the queue was closed. */
    method Pop() returns (r: Popped<T>)
      requires Valid() && (head != null || closed)
      modifies this
      ensures Valid() && closed == old(closed) && accepted == old(accepted)
      ensures r == Nothing <==> old(Contents()) == []
      ensures r == Nothing ==> closed && Contents() == [] && taken == old(taken)
      ensures r.Got? ==>
                && old(Contents()) == [r.data] + Contents()
                && taken == old(taken) + [r.data]
      ensures forall n :: n in spine ==> n in old(spine)
    {
      r := TryPop();
    }

    method Close()
      requires Valid()
      modifies `closed
      ensures Valid() && closed && Contents() == old(Contents()) && accepted == old(accepted)
    {
      closed := true;
    }

    method Count() returns (n: nat)
      requires Valid()
      ensures n == |Contents()|
    {
      n := count;
    }

    /** After the close: what is queued comes out in order, and nothing else was ever accepted. */
    method Drain() returns (out: seq<T>)
      requires Valid() && closed
      modifies this
      ensures Valid() && closed && Contents() == []
      ensures out == old(Contents()) && accepted == old(accepted) == taken
    {
      out := [];
      var more := true;
      while more
        invariant Valid() && closed && accepted == old(accepted)
        invariant old(Contents()) == out + Contents()
        invariant !more ==> Contents() == []
        decreases |Contents()|, more
      {
        var r := Pop();
        match r
        case Got(data) => out := out + [data];
        case Nothing => more := false;
      }
    }
  }
}
