/**
 * The Redis list that connects the webhook receiver to the worker. The producer
 * LPUSHes at the head (index 0) and the worker BRPOPs at the tail (the last index).
 */
module RedisList {
  import opened Wrappers

  /** One named Redis list holding serialized job records. */
  class RedisList {
    var items: seq<string>

    constructor ()
      ensures items == []
    {
      items := [];
    }

    /** LPUSH: the record becomes the new head. */
    method LPush(record: string)
      modifies this
      ensures items == [record] + old(items)
    {
      items := [record] + items;
    }

    /**
     * BRPOP: removes and returns the tail. On an empty list the real command keeps
     * blocking; here it returns None and changes nothing.
     */
    method BRPop() returns (record: Option<string>)
      modifies this
      ensures old(items) == [] ==> record == None && items == []
      ensures old(items) != [] ==>
        record == Some(old(items)[|old(items)| - 1]) && items == old(items)[..|old(items)| - 1]
      ensures record.Some? ==> old(items) == items + [record.value]
    {
      if items == [] {
        record := None;
      } else {
        record := Some(items[|items| - 1]);
        items := items[..|items| - 1];
      }
    }

    /** BRPOPs until the list is empty; the records come back in `PopOrder`. */
    method PopUntilEmpty() returns (popped: seq<string>)
      modifies this
      ensures popped == PopOrder(old(items)) && items == []
    {
      popped := [];
      while items != []
        invariant popped + PopOrder(items) == PopOrder(old(items))
        decreases |items|
      {
        ghost var before := items;
        var record := BRPop();
        assert PopOrder(before) == [record.value] + PopOrder(items);
        popped := popped + [record.value];
      }
    }
  }

  /** The records in the order in which successive BRPOPs return them. */
  function PopOrder(q: seq<string>): (order: seq<string>)
    ensures |order| == |q|
  {
    if q == [] then [] else [q[|q| - 1]] + PopOrder(q[..|q| - 1])
  }

  /** Popping a list to the end returns each of its records exactly once. */
  lemma {:induction false} PopOrderPermutes(q: seq<string>)
    ensures multiset(PopOrder(q)) == multiset(q)
  {
    if q != [] {
      var last, init := q[|q| - 1], q[..|q| - 1];
      assert q == init + [last];
      PopOrderPermutes(init);
      assert PopOrder(q) == [last] + PopOrder(init);
    }
  }

  /** The list after LPUSHing each record of `xs` in turn. */
  function PushAll(q: seq<string>, xs: seq<string>): seq<string>
    decreases |xs|
  {
    if xs == [] then q else PushAll([xs[0]] + q, xs[1..])
  }

  /** A record LPUSHed onto a list is popped after every record already in it. */
  lemma {:induction false} PopOrderPrepend(x: string, q: seq<string>)
    ensures PopOrder([x] + q) == PopOrder(q) + [x]
    decreases |q|
  {
    if q == [] {
      assert PopOrder([x]) == [x] + PopOrder([]);
    } else {
      var p := [x] + q;
      var last, init := q[|q| - 1], q[..|q| - 1];
      assert p[|p| - 1] == last;
      assert p[..|p| - 1] == [x] + init;
      PopOrderPrepend(x, init);
      calc {
        PopOrder(p);
        [last] + PopOrder([x] + init);
        [last] + (PopOrder(init) + [x]);
        ([last] + PopOrder(init)) + [x];
        PopOrder(q) + [x];
      }
    }
  }

  /** FIFO: records pushed onto a list come out after the waiting ones, in the order they were pushed. */
  lemma {:induction false} FifoOrder(q: seq<string>, xs: seq<string>)
    ensures PopOrder(PushAll(q, xs)) == PopOrder(q) + xs
    decreases |xs|
  {
    if xs != [] {
      var x, more := xs[0], xs[1..];
      assert PushAll(q, xs) == PushAll([x] + q, more);
      FifoOrder([x] + q, more);
      PopOrderPrepend(x, q);
      calc {
        PopOrder(PushAll(q, xs));
        PopOrder([x] + q) + more;
        (PopOrder(q) + [x]) + more;
        PopOrder(q) + ([x] + more);
        { assert [x] + more == xs; }
        PopOrder(q) + xs;
      }
    }
  }
}
