/** The two list-backed linear structures of the service: a LIFO stack
    and a FIFO queue. Popping an empty one yields `None`. */
module Linear {
  import opened Wrappers

  class Stack<T> {
    /** The backing list; its last element is the top. */
    var items: seq<T>

    constructor ()
      ensures items == []
    {
      items := [];
    }

    method Push(val: T)
      modifies this
      ensures items == old(items) + [val]
    {
      items := items + [val];
    }

    method Pop() returns (r: Option<T>)
      modifies this
      ensures old(items) == [] ==> r == None && items == []
      ensures old(items) != [] ==>
        r == Some(old(items)[|old(items)| - 1]) && items == old(items)[..|old(items)| - 1]
    {
      if items == [] {
        r := None;
      } else {
        r := Some(items[|items| - 1]);
        items := items[..|items| - 1];
      }
    }
  }

  class Queue<T> {
    /** The backing list; its first element is the front. */
    var items: seq<T>

    constructor ()
      ensures items == []
    {
      items := [];
    }

    method Enqueue(val: T)
      modifies this
      ensures items == old(items) + [val]
    {
      items := items + [val];
    }

    method Dequeue() returns (r: Option<T>)
      modifies this
      ensures old(items) == [] ==> r == None && items == []
      ensures old(items) != [] ==> r == Some(old(items)[0]) && items == old(items)[1..]
    {
      if items == [] {
        r := None;
      } else {
        r := Some(items[0]);
        items := items[1..];
      }
    }
  }
}
