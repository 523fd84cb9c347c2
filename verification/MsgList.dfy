/**
 The list of asynchronous events that command threads read and the spawn thread handles
 (the dynamic memory build): a linked list with insertion at the tail, and a cursor that
 takes events off the head while insertions go on.
 */
module MsgList {

  /** A stored event: the pool object it concerns, its handler and its bytes. */
  datatype Event = Event(action: nat, handler: nat, bytes: seq<bv8>)

  // ------------------------------------------------------------------ the queue it stands for

  /** `passing` is true while the spawn thread's cursor points at an event. */
  datatype Queue = Queue(stored: seq<Event>, handled: seq<Event>, passing: bool)

  datatype Op = Insert(e: Event) | StartPass | HandleOne

  predicate Enabled(q: Queue, op: Op) {
    op.HandleOne? ==> q.passing && q.stored != []
  }

  function Apply(q: Queue, op: Op): Queue
    requires Enabled(q, op)
  {
    match op
    case Insert(e) => q.(stored := q.stored + [e])
    case StartPass => q.(passing := q.stored != [])
    case HandleOne => Queue(q.stored[1..], q.handled + [q.stored[0]], |q.stored| > 1)
  }

  function Inserted(ops: seq<Op>): seq<Event> {
    if ops == [] then []
    else Inserted(ops[..|ops| - 1]) + (var op := ops[|ops| - 1]; if op.Insert? then [op.e] else [])
  }

  ghost predicate IsRun(qs: seq<Queue>, ops: seq<Op>) {
    && |qs| == |ops| + 1 && qs[0] == Queue([], [], false)
    && forall k :: 0 <= k < |ops| ==> Enabled(qs[k], ops[k]) && qs[k + 1] == Apply(qs[k], ops[k])
  }

  /** First in first out, each exactly once, over every interleaving of insertions with the
      spawn thread's passes; and the cursor rests on an event only while there is one. */
  lemma {:induction false} FirstInFirstOut(qs: seq<Queue>, ops: seq<Op>, k: nat)
    requires IsRun(qs, ops) && k < |qs|
    ensures qs[k].handled + qs[k].stored == Inserted(ops[..k])
    ensures qs[k].passing ==> qs[k].stored != []
  {
    if k > 0 {
      FirstInFirstOut(qs, ops, k - 1);
      var q, op := qs[k - 1], ops[k - 1];
      assert qs[k] == Apply(q, op);
      assert ops[..k][..k - 1] == ops[..k - 1];
      if op.HandleOne? {
        assert q.handled + [q.stored[0]] + q.stored[1..] == q.handled + q.stored;
      } else if op.Insert? {
        assert q.handled + (q.stored + [op.e]) == q.handled + q.stored + [op.e];
      }
    }
  }

  /** The step that ends a pass leaves nothing behind: every event inserted before it, also
      during the pass, has been handled; what is inserted later starts the list anew. */
  lemma PassEndsEmpty(qs: seq<Queue>, ops: seq<Op>, k: nat)
    requires IsRun(qs, ops) && k < |ops| && qs[k].passing && !qs[k + 1].passing
    ensures qs[k + 1].handled == Inserted(ops[..k + 1])
  {
    FirstInFirstOut(qs, ops, k);
    FirstInFirstOut(qs, ops, k + 1);
    assert Enabled(qs[k], ops[k]) && qs[k + 1] == Apply(qs[k], ops[k]);
    assert qs[k + 1].stored == [];
  }

  /** When a pass starts, and when it has handled an event, its cursor rests on an event if
      and only if one is stored; insertions do not move it. */
  lemma CursorIff(qs: seq<Queue>, ops: seq<Op>, k: nat)
    requires IsRun(qs, ops) && k < |ops|
    ensures if ops[k].Insert? then qs[k + 1].passing == qs[k].passing
            else qs[k + 1].passing <==> qs[k + 1].stored != []
  {
    assert Enabled(qs[k], ops[k]) && qs[k + 1] == Apply(qs[k], ops[k]);
  }

  // ------------------------------------------------------------------ the list

  /** _SlSpawnMsgItem_t. */
  class Item {
    var next: Item?
    var buffer: array?<bv8>
    var action: nat
    var handler: nat

    constructor ()
      ensures next == null && buffer == null
    {
      next, buffer, action, handler := null, null, 0, 0;
    }
  }

  /** The items and their buffers are the blocks alive: none is shared and none is lost. */
  ghost predicate Blocks(items: seq<Item>, buffers: seq<array<bv8>>, live: set<object>) {
    && |items| == |buffers|
    && (forall j: nat, k: nat :: j < k < |items| ==> items[j] != items[k])
    && (forall j: nat, k: nat :: j < k < |items| ==> buffers[j] != buffers[k])
    && (forall k: nat :: k < |items| ==> items[k] in live && buffers[k] in live)
    && (forall o :: o in live ==> exists k: nat :: k < |items| && (o == items[k] || o == buffers[k]))
  }

  lemma BlocksPop(items: seq<Item>, buffers: seq<array<bv8>>, live: set<object>)
    requires Blocks(items, buffers, live) && items != []
    ensures |items| == |buffers| && buffers[0] in live && items[0] in live - {buffers[0]}
    ensures Blocks(items[1..], buffers[1..], live - {buffers[0]} - {items[0]})
  {
    var rest := live - {buffers[0]} - {items[0]};
    forall o | o in rest
      ensures exists k: nat :: k < |items| - 1 && (o == items[1..][k] || o == buffers[1..][k])
    {
      var k: nat :| k < |items| && (o == items[k] || o == buffers[k]);
      assert items[1..][k - 1] == items[k] && buffers[1..][k - 1] == buffers[k];
    }
  }

  lemma BlocksOfNone(items: seq<Item>, buffers: seq<array<bv8>>, live: set<object>)
    requires Blocks(items, buffers, live) && items == []
    ensures live == {}
  {
    assert forall o :: o !in live;
  }

  lemma BlocksPush(items: seq<Item>, buffers: seq<array<bv8>>, live: set<object>, item: Item, buffer: array<bv8>)
    requires Blocks(items, buffers, live) && item !in live && buffer !in live
    ensures item !in items && buffer !in buffers
    ensures Blocks(items + [item], buffers + [buffer], live + {item} + {buffer})
  {
    var items', buffers' := items + [item], buffers + [buffer];
    forall o | o in live + {item} + {buffer}
      ensures exists k: nat :: k < |items'| && (o == items'[k] || o == buffers'[k])
    {
      if o in live {
        var k: nat :| k < |items| && (o == items[k] || o == buffers[k]);
        assert items'[k] == items[k] && buffers'[k] == buffers[k];
      } else {
        assert items'[|items|] == item && buffers'[|items|] == buffer;
      }
    }
  }

  class List {
    var head: Item?
    var cursor: Item?
    var handled: seq<Event>
    /** The items in the order of the links, their buffers, the events in them, and the heap
        blocks that are allocated and not yet freed. */
    ghost var items: seq<Item>
    ghost var buffers: seq<array<bv8>>
    ghost var stored: seq<Event>
    ghost var live: set<object>

    constructor ()
      ensures Valid() && View() == Queue([], [], false) && live == {}
    {
      head, cursor, handled := null, null, [];
      items, buffers, stored, live := [], [], [], {};
    }

    ghost function ItemAt(k: nat): (r: Item?)
      reads this`items
    {
      if k < |items| then items[k] else null
    }

    /** The links run through `items`, which hold the events. */
    ghost predicate Linked()
      reads this`head, this`items, this`buffers, this`stored, items, buffers
    {
      && |items| == |buffers| == |stored|
      && head == ItemAt(0)
      && (forall k: nat :: k < |items| ==> items[k].next == ItemAt(k + 1))
      && (forall k: nat :: k < |items| ==> items[k].buffer == buffers[k])
      && (forall k: nat :: k < |items| ==> stored[k] == Event(items[k].action, items[k].handler, buffers[k][..]))
    }

    ghost predicate Valid()
      reads this, items, buffers
    {
      Linked() && Blocks(items, buffers, live) && this !in live && (cursor == null || cursor == head)
    }

    ghost function View(): Queue
      reads this
    {
      Queue(stored, handled, cursor != null)
    }

    /** sl_Free: only a block that is allocated may be freed, and only once. */
    ghost method Free(o: object)
      requires o in live
      modifies this`live
      ensures live == old(live) - {o}
    {
      live := live - {o};
    }

    /** Walks to the item whose link is null. */
    method Last() returns (last: Item)
      requires Linked() && head != null
      ensures items != [] && last == items[|items| - 1]
    {
      ghost var k: nat := 0;
      last := head;
      while last.next != null
        invariant k < |items| && last == items[k]
        decreases |items| - k
      {
        last := last.next;
        k := k + 1;
      }
      assert items[k].next == ItemAt(k + 1);
    }

    /** _SlSpawnMsgListGetCount. */
    method Count() returns (n: nat)
      requires Valid()
      ensures n == |View().stored|
    {
      n := 0;
      var at := head;
      while at != null
        invariant n <= |items| && at == ItemAt(n)
        decreases |items| - n
      {
        at := at.next;
        n := n + 1;
      }
    }

    /** Puts a filled item at the tail. */
    method Append(item: Item, buffer: array<bv8>)
      requires Linked() && item !in items && item.next == null && item.buffer == buffer
      modifies this`head, this`items, this`buffers, this`stored, items
      ensures Linked() && items == old(items) + [item] && buffers == old(buffers) + [buffer]
      ensures stored == old(stored) + [Event(item.action, item.handler, buffer[..])]
      ensures old(head) != null ==> head == old(head)
    {
      if head == null {
        head := item;
      } else {
        var last := Last();
        last.next := item;
      }
      items, buffers := items + [item], buffers + [buffer];
      stored := stored + [Event(item.action, item.handler, buffer[..])];
    }

    /** _SlSpawnMsgListInsert, with the protection lock held. Either allocation may fail;
        then nothing changes and nothing is left allocated. */
    method Insert(bytes: array<bv8>, len: nat, action: nat, handler: nat, itemOk: bool, bufferOk: bool)
      returns (ok: bool)
      requires Valid() && len <= bytes.Length && bytes !in live
      modifies this, items
      ensures Valid() && fresh(live - old(live))
      ensures ok == (itemOk && bufferOk)
      ensures ok ==> View() == Apply(old(View()), Op.Insert(Event(action, handler, bytes[..len])))
      ensures !ok ==> View() == old(View()) && live == old(live)
    {
      hide Blocks, List.Linked;
      ok := itemOk && bufferOk;
      if !itemOk { return; }
      var item := new Item();
      live := live + {item};
      if !bufferOk {
        Free(item);
        assert live == old(live);
        return;
      }
      var buffer := new bv8[len];
      live := live + {buffer};
      FillItem(item, buffer, bytes, action, handler);
      BlocksPush(items, buffers, old(live), item, buffer);
      Append(item, buffer);
    }

    /** Gives a new item its buffer and copies the event into it. */
    method FillItem(item: Item, buffer: array<bv8>, bytes: array<bv8>, action: nat, handler: nat)
      requires buffer.Length <= bytes.Length && buffer != bytes
      modifies item, buffer
      ensures item.next == old(item.next) && item.buffer == buffer
      ensures item.action == action && item.handler == handler && buffer[..] == bytes[..buffer.Length]
    {
      item.buffer := buffer;
      item.action, item.handler := action, handler;
      forall k | 0 <= k < buffer.Length {
        buffer[k] := bytes[k];
      }
    }

    /** Takes the first item off the links. */
    method Unlink() returns (last: Item)
      requires Linked() && head != null
      modifies this`head, this`items, this`buffers, this`stored
      ensures Linked() && old(items) != [] && last == old(items[0])
      ensures items == old(items)[1..] && buffers == old(buffers)[1..] && stored == old(stored)[1..]
      ensures last.buffer == old(buffers)[0] && old(stored)[0] == Event(last.action, last.handler, old(buffers)[0][..])
    {
      last := head;
      assert items[0].next == ItemAt(1);
      head := last.next;
      items, buffers, stored := items[1..], buffers[1..], stored[1..];
      forall k: nat | k < |items|
        ensures items[k].next == ItemAt(k + 1) && items[k].buffer == buffers[k]
        ensures stored[k] == Event(items[k].action, items[k].handler, buffers[k][..])
      {
        assert items[k] == old(items)[k + 1] && old(items)[k + 1].next == old(ItemAt(k + 2));
      }
    }

    /** The spawn thread starts a pass: it reads the head. */
    method Start()
      requires Valid()
      modifies this`cursor
      ensures Valid() && View() == Apply(old(View()), StartPass) && cursor == head
    {
      cursor := head;
    }

    /** One turn of _SlSpawnMsgListProcess, with the global lock held: the event at the head
        is unlinked, handled and its two blocks are freed. */
    method HandleFirst()
      requires Valid() && cursor != null
      modifies this
      ensures Valid() && cursor == head
      ensures old(Enabled(View(), HandleOne)) && View() == Apply(old(View()), HandleOne)
      ensures old(items) != [] && old(|buffers|) > 0 && live == old(live) - {old(buffers[0])} - {old(items[0])}
    {
      hide Blocks, List.Linked;
      LinkedSizes();
      BlocksPop(items, buffers, live);
      var last := Unlink();
      LinkedSizes();
      cursor := head;
      handled := handled + [Event(last.action, last.handler, last.buffer[..])];
      Free(last.buffer);
      Free(last);
    }

    /** A whole pass with nobody else at work. */
    method Process()
      requires Valid()
      modifies this
      ensures Valid() && View() == Queue([], old(handled + stored), false) && live == {}
    {
      hide Blocks, List.Linked;
      Start();
      while cursor != null
        invariant Valid() && handled + stored == old(handled + stored)
        invariant cursor == head
        decreases |stored|
      {
        ghost var q := View();
        HandleFirst();
        assert q.handled + [q.stored[0]] + q.stored[1..] == q.handled + q.stored;
      }
      LinkedSizes();
      BlocksOfNone(items, buffers, live);
    }

    lemma LinkedSizes()
      requires Linked()
      ensures |items| == |stored| == |buffers| && (head == null <==> items == [])
    {
    }
  }
}
