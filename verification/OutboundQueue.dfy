/** The durable outbound queue of internal/store/memory/store.go: a map scanned without order,
 *  refining a sequence of entries in the order they were enqueued.
 */
module OutboundQueue {
  import opened Sorting

  datatype Channel = WhatsApp | Telegram

  datatype Line = Line(tenant: string, channel: Channel)

  datatype Entry = Entry(line: Line, packet: nat, enqueuedAt: int)

  datatype Item = Item(id: nat, entry: Entry)

  type Queue = map<nat, Entry>

  // ----- The queue as a sequence

  /** The entries numbered up to `n`, in order. */
  function Items(queue: Queue, n: nat): seq<Item> {
    if n == 0 then []
    else Items(queue, n - 1) + (if n in queue then [Item(n, queue[n])] else [])
  }

  function OnLine(items: seq<Item>, line: Line): seq<Item> {
    if items == [] then []
    else (if items[0].entry.line == line then [items[0]] else []) + OnLine(items[1..], line)
  }

  function Without(items: seq<Item>, id: nat): seq<Item> {
    if items == [] then []
    else (if items[0].id == id then [] else [items[0]]) + Without(items[1..], id)
  }

  /** Later entries carry larger numbers and later times. */
  ghost predicate Chronological(items: seq<Item>) {
    forall i, j :: 0 <= i < j < |items| ==>
      items[i].id < items[j].id && items[i].entry.enqueuedAt < items[j].entry.enqueuedAt
  }

  predicate Earlier(a: Item, b: Item) {
    a.entry.enqueuedAt < b.entry.enqueuedAt
  }

  lemma EarlierIsWeakOrder()
    ensures WeakOrder(Earlier)
  {
  }

  // ----- How the sequence reacts to changes of the map

  lemma {:induction false} ItemsElements(queue: Queue, n: nat)
    ensures forall x :: x in Items(queue, n) <==> 1 <= x.id <= n && x.id in queue && queue[x.id] == x.entry
  {
    if n != 0 {
      ItemsElements(queue, n - 1);
    }
  }

  lemma {:induction false} ItemsAgree(a: Queue, b: Queue, n: nat)
    requires forall id :: 1 <= id <= n ==> (id in a <==> id in b) && (id in a && id in b ==> a[id] == b[id])
    ensures Items(a, n) == Items(b, n)
  {
    if n != 0 {
      ItemsAgree(a, b, n - 1);
    }
  }

  lemma {:induction false} WithoutAppend(a: seq<Item>, b: seq<Item>, id: nat)
    ensures Without(a + b, id) == Without(a, id) + Without(b, id)
  {
    if a == [] {
      assert a + b == b;
    } else {
      assert (a + b)[1..] == a[1..] + b;
      WithoutAppend(a[1..], b, id);
    }
  }

  lemma {:induction false} OnLineAppend(a: seq<Item>, b: seq<Item>, line: Line)
    ensures OnLine(a + b, line) == OnLine(a, line) + OnLine(b, line)
  {
    if a == [] {
      assert a + b == b;
    } else {
      assert (a + b)[1..] == a[1..] + b;
      OnLineAppend(a[1..], b, line);
    }
  }

  lemma {:induction false} ItemsWithout(queue: Queue, n: nat, id: nat)
    ensures Items(queue - {id}, n) == Without(Items(queue, n), id)
  {
    if n != 0 {
      ItemsWithout(queue, n - 1, id);
      WithoutAppend(Items(queue, n - 1), if n in queue then [Item(n, queue[n])] else [], id);
    }
  }

  lemma {:induction false} OnLineElements(items: seq<Item>, line: Line)
    ensures forall x :: x in OnLine(items, line) <==> x in items && x.entry.line == line
  {
    if items != [] {
      OnLineElements(items[1..], line);
      assert items == [items[0]] + items[1..];
    }
  }

  lemma {:induction false} WithoutElements(items: seq<Item>, id: nat)
    ensures forall x :: x in Without(items, id) <==> x in items && x.id != id
  {
    if items != [] {
      WithoutElements(items[1..], id);
      assert items == [items[0]] + items[1..];
    }
  }

  lemma ChronologicalTail(items: seq<Item>)
    requires Chronological(items) && items != []
    ensures Chronological(items[1..])
    ensures forall x :: x in items[1..] ==> items[0].id < x.id && Earlier(items[0], x)
  {
  }

  lemma ChronologicalCons(x: Item, items: seq<Item>)
    requires Chronological(items)
    requires forall y :: y in items ==> x.id < y.id && Earlier(x, y)
    ensures Chronological([x] + items)
  {
    var all := [x] + items;
    forall i, j | 0 <= i < j < |all| ensures all[i].id < all[j].id && Earlier(all[i], all[j]) {
      assert all[j] == items[j - 1] && items[j - 1] in items;
    }
  }

  lemma {:induction false} OnLineChronological(items: seq<Item>, line: Line)
    requires Chronological(items)
    ensures Chronological(OnLine(items, line))
  {
    if items != [] {
      ChronologicalTail(items);
      OnLineChronological(items[1..], line);
      if items[0].entry.line == line {
        OnLineElements(items[1..], line);
        ChronologicalCons(items[0], OnLine(items[1..], line));
      }
    }
  }

  lemma {:induction false} WithoutChronological(items: seq<Item>, id: nat)
    requires Chronological(items)
    ensures Chronological(Without(items, id))
  {
    if items != [] {
      ChronologicalTail(items);
      WithoutChronological(items[1..], id);
      if items[0].id != id {
        WithoutElements(items[1..], id);
        ChronologicalCons(items[0], Without(items[1..], id));
      }
    }
  }

  lemma {:induction false} WithoutAbsent(items: seq<Item>, id: nat)
    requires forall x :: x in items ==> x.id != id
    ensures Without(items, id) == items
  {
    if items != [] {
      assert items == [items[0]] + items[1..];
      WithoutAbsent(items[1..], id);
    }
  }

  /** Removing an entry takes it off its own line and leaves every other line alone. */
  lemma {:induction false} OnLineWithout(items: seq<Item>, id: nat, line: Line)
    ensures OnLine(Without(items, id), line) == Without(OnLine(items, line), id)
  {
    if items != [] {
      OnLineWithout(items[1..], id, line);
      var head := if items[0].id == id then [] else [items[0]];
      OnLineAppend(head, Without(items[1..], id), line);
      var mine := if items[0].entry.line == line then [items[0]] else [];
      WithoutAppend(mine, OnLine(items[1..], line), id);
    }
  }

  /** In a chronological sequence an entry occurs once, so removing it removes exactly it. */
  lemma {:induction false} WithoutTakesOne(items: seq<Item>, x: Item)
    requires Chronological(items) && x in items
    ensures multiset(items) == multiset{x} + multiset(Without(items, x.id))
  {
    ChronologicalTail(items);
    assert items == [items[0]] + items[1..];
    if items[0] == x {
      WithoutAbsent(items[1..], x.id);
    } else {
      WithoutTakesOne(items[1..], x);
    }
  }

  lemma WithoutHead(items: seq<Item>)
    requires Chronological(items) && items != []
    ensures Without(items, items[0].id) == items[1..]
  {
    ChronologicalTail(items);
    WithoutAbsent(items[1..], items[0].id);
  }

  /** No entry of the line that has been looked at is earlier than `at`. */
  ghost predicate NoneEarlier(queue: Queue, unseen: Queue, line: Line, at: int) {
    forall id :: id in queue && id !in unseen && queue[id].line == line ==> at <= queue[id].enqueuedAt
  }

  // ----- The store

  class QueueStore {
    var outboundQueue: Queue
    var queueSeq: nat

    /** The whole queue, oldest entry first. */
    ghost function Contents(): seq<Item>
      reads this
    {
      Items(outboundQueue, queueSeq)
    }

    ghost predicate Valid()
      reads this
    {
      && (forall id :: id in outboundQueue ==> 1 <= id <= queueSeq)
      && Chronological(Contents())
    }

    constructor ()
      ensures Valid() && Contents() == [] && queueSeq == 0
    {
      outboundQueue, queueSeq := map[], 0;
    }

    method EnqueueOutbound(entry: Entry)
      requires Valid()
      requires forall x :: x in Contents() ==> x.entry.enqueuedAt < entry.enqueuedAt
      modifies this
      ensures Valid() && queueSeq == old(queueSeq) + 1
      ensures Contents() == old(Contents()) + [Item(queueSeq, entry)]
    {
      ghost var before := Contents();
      ItemsElements(outboundQueue, queueSeq);
      ItemsAgree(outboundQueue, outboundQueue[queueSeq + 1 := entry], queueSeq);
      queueSeq := queueSeq + 1;
      outboundQueue := outboundQueue[queueSeq := entry];
      var x := Item(queueSeq, entry);
      forall i | 0 <= i < |before| ensures before[i].id < x.id && Earlier(before[i], x) {
        assert before[i] in before;
      }
    }

    method ListOutboundQueue(line: Line) returns (out: seq<Item>)
      requires Valid()
      ensures out == OnLine(Contents(), line)
    {
      hide OnLine, Items, Chronological, Sort;
      out := [];
      var rest := outboundQueue;
      while rest != map[]
        invariant forall id :: id in rest ==> id in outboundQueue && rest[id] == outboundQueue[id]
        invariant Chronological(Items(rest, queueSeq))
        invariant multiset(out) + multiset(OnLine(Items(rest, queueSeq), line)) == multiset(OnLine(Contents(), line))
        decreases |rest|
      {
        var id :| id in rest;
        var entry := rest[id];
        PickedFromRest(rest, queueSeq, id, line);
        if entry.line == line {
          out := out + [Item(id, entry)];
        }
        rest := rest - {id};
      }
      NothingLeft(queueSeq, line);
      SortByTime(out, OnLine(Contents(), line), Contents(), line);
      out := Sort(Earlier, out);
    }

    method OutboundQueueDepth(line: Line) returns (count: nat)
      requires Valid()
      ensures count == |OnLine(Contents(), line)|
    {
      count := 0;
      var rest := outboundQueue;
      while rest != map[]
        invariant forall id :: id in rest ==> id in outboundQueue
        invariant Chronological(Items(rest, queueSeq))
        invariant count + |OnLine(Items(rest, queueSeq), line)| == |OnLine(Contents(), line)|
        decreases |rest|
      {
        var id :| id in rest;
        PickedFromRest(rest, queueSeq, id, line);
        assert |multiset(OnLine(Items(rest, queueSeq), line))| == |OnLine(Items(rest, queueSeq), line)|;
        assert |multiset(OnLine(Items(rest - {id}, queueSeq), line))| == |OnLine(Items(rest - {id}, queueSeq), line)|;
        if rest[id].line == line {
          count := count + 1;
        }
        rest := rest - {id};
      }
      NothingLeft(queueSeq, line);
    }

    method DeleteOutboundQueueEntry(id: nat)
      requires Valid()
      modifies this
      ensures Valid() && queueSeq == old(queueSeq)
      ensures Contents() == Without(old(Contents()), id)
    {
      ItemsWithout(outboundQueue, queueSeq, id);
      WithoutChronological(Contents(), id);
      outboundQueue := outboundQueue - {id};
    }

    /** Returns the number of the removed entry, or 0 when the line is empty. */
    method DeleteOldestOutboundQueueEntry(line: Line) returns (oldestId: nat)
      requires Valid()
      modifies this
      ensures Valid() && queueSeq == old(queueSeq)
      ensures var q := old(OnLine(Contents(), line));
        if q == [] then oldestId == 0 && Contents() == old(Contents())
        else oldestId == q[0].id && Contents() == Without(old(Contents()), q[0].id)
    {
      oldestId := 0;
      var oldestAt := 0;
      var rest := outboundQueue;
      while rest != map[]
        invariant forall id :: id in rest ==> id in outboundQueue && rest[id] == outboundQueue[id]
        invariant oldestId == 0 ==> forall id :: id in outboundQueue && id !in rest ==> outboundQueue[id].line != line
        invariant oldestId != 0 ==>
          oldestId in outboundQueue && outboundQueue[oldestId] == Entry(line, outboundQueue[oldestId].packet, oldestAt)
        invariant oldestId != 0 ==> NoneEarlier(outboundQueue, rest, line, oldestAt)
        decreases |rest|
      {
        var id :| id in rest;
        var entry := rest[id];
        if entry.line == line && (oldestId == 0 || entry.enqueuedAt < oldestAt) {
          oldestId, oldestAt := id, entry.enqueuedAt;
        }
        rest := rest - {id};
      }
      OldestIsHead(outboundQueue, queueSeq, line, oldestId);
      if oldestId == 0 {
        return;
      }
      DeleteOutboundQueueEntry(oldestId);
    }
  }

  lemma NothingLeft(n: nat, line: Line)
    ensures OnLine(Items(map[], n), line) == []
  {
    ItemsElements(map[], n);
    if Items(map[], n) != [] {
      assert Items(map[], n)[0] in Items(map[], n);
    }
  }

  lemma PickedFromRest(rest: Queue, n: nat, id: nat, line: Line)
    requires id in rest && 1 <= id <= n && Chronological(Items(rest, n))
    ensures Chronological(Items(rest - {id}, n))
    ensures multiset(OnLine(Items(rest, n), line)) ==
      (if rest[id].line == line then multiset{Item(id, rest[id])} else multiset{})
        + multiset(OnLine(Items(rest - {id}, n), line))
  {
    var items, x := Items(rest, n), Item(id, rest[id]);
    ItemsElements(rest, n);
    ItemsWithout(rest, n, id);
    WithoutChronological(items, id);
    OnLineWithout(items, id, line);
    OnLineChronological(items, line);
    OnLineElements(items, line);
    if x.entry.line == line {
      WithoutTakesOne(OnLine(items, line), x);
    } else {
      forall y | y in OnLine(items, line) ensures y.id != id {
        assert y in items;
      }
      WithoutAbsent(OnLine(items, line), id);
    }
  }

  lemma SortByTime(out: seq<Item>, queue: seq<Item>, items: seq<Item>, line: Line)
    requires Chronological(items) && queue == OnLine(items, line) && multiset(out) == multiset(queue)
    ensures Sort(Earlier, out) == queue
  {
    EarlierIsWeakOrder();
    SortIsSortOf(Earlier, out);
    OnLineChronological(items, line);
    forall x, y | x in queue && y in queue && !Earlier(x, y) && !Earlier(y, x) ensures x == y {
      var i :| 0 <= i < |queue| && queue[i] == x;
      var j :| 0 <= j < |queue| && queue[j] == y;
    }
    SortUnique(Earlier, queue, Sort(Earlier, out));
  }

  lemma HeadOf(q: seq<Item>) returns (x: Item)
    requires q != []
    ensures x in q
  {
    x := q[0];
  }

  lemma OldestIsHead(queue: Queue, n: nat, line: Line, oldest: nat)
    requires forall id :: id in queue ==> 1 <= id <= n
    requires Chronological(Items(queue, n))
    requires oldest == 0 ==> forall id :: id in queue ==> queue[id].line != line
    requires oldest != 0 ==> oldest in queue && queue[oldest].line == line
    requires oldest != 0 ==> NoneEarlier(queue, map[], line, queue[oldest].enqueuedAt)
    ensures var q := OnLine(Items(queue, n), line);
      if oldest == 0 then q == [] else q != [] && q[0].id == oldest
  {
    var items := Items(queue, n);
    var q := OnLine(items, line);
    ItemsElements(queue, n);
    OnLineElements(items, line);
    OnLineChronological(items, line);
    if oldest == 0 {
      if q != [] {
        var x := HeadOf(q);
      }
    } else {
      assert Item(oldest, queue[oldest]) in q;
      var k :| 0 <= k < |q| && q[k] == Item(oldest, queue[oldest]);
      assert q[0] in q;
    }
  }
}
