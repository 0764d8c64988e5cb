/** Delivery of review packets by internal/app/gateway.go: direct sends, the bounded queue that
 *  stands in when a send is not possible, and the drain that empties it.
 *
 *  `World` is the state as a value; `Gateway` is the object, proved to move from world to world.
 *  What an adapter answers and what the clock shows are inputs.
 */
module Gateway {
  import opened OutboundQueue
  import opened Sorting

  const OUTBOUND_QUEUE_MAX := 100

  datatype SessionStatus = Unknown | QRNeeded | Connecting | Active | Disconnected | Suspended

  datatype Packet = Packet(tenant: string, expiresAt: int, delivered: bool)

  /** What happens around one drain: the adapter's answer and the clock's reading for each packet. */
  datatype Surroundings = Surroundings(accepts: nat -> bool, clock: nat -> int)

  /** An adapter has taken a packet on a line. */
  datatype Delivery = Delivery(line: Line, packet: nat)

  /** `recipients` is the operator address each channel binding resolves to, "" when it has none.
   *  `accepted`, `overflowed` and `expired` record what the adapters took and what was dropped.
   */
  datatype World = World(
    packets: map<nat, Packet>,
    nextPacket: nat,
    queue: seq<Item>,
    queueSeq: nat,
    now: int,
    status: map<Line, SessionStatus>,
    adapters: set<Channel>,
    recipients: map<Line, string>,
    accepted: seq<Delivery>,
    overflowed: multiset<nat>,
    expired: multiset<nat>)

  const EMPTY_WORLD := World(map[], 0, [], 0, 0, map[], {}, map[], [], multiset{}, multiset{})

  // ----- Where and when to send

  function PreferredChannel(w: World, tenant: string): Channel {
    if WhatsApp in w.adapters && Line(tenant, WhatsApp) in w.recipients then WhatsApp else Telegram
  }

  predicate HasOperatorRecipient(w: World, line: Line) {
    line in w.recipients ==> w.recipients[line] != ""
  }

  function StatusOf(w: World, line: Line): SessionStatus {
    if line in w.status then w.status[line] else Unknown
  }

  predicate CanDeliverNow(w: World, line: Line) {
    if StatusOf(w, line) == Unknown then line.channel == Telegram else StatusOf(w, line) == Active
  }

  /** Whether a send goes through; without an adapter it always does. */
  predicate GoesThrough(w: World, line: Line, accept: bool) {
    line.channel in w.adapters ==> line in w.recipients && w.recipients[line] != "" && accept
  }

  // ----- The steps

  function Deliver(w: World, p: nat, line: Line): World
    requires p in w.packets
  {
    w.(packets := w.packets[p := w.packets[p].(delivered := true)],
       accepted := if line.channel in w.adapters then w.accepted + [Delivery(line, p)] else w.accepted)
  }

  /** Drop the oldest entry of a full line. */
  function MakeRoom(w: World, line: Line): World {
    var q := OnLine(w.queue, line);
    if |q| >= OUTBOUND_QUEUE_MAX then
      w.(queue := Without(w.queue, q[0].id), overflowed := w.overflowed + multiset{q[0].entry.packet})
    else w
  }

  /** The entry the next enqueue makes, some time after the last one. */
  function NextItem(w: World, p: nat, line: Line, wait: nat): Item {
    Item(w.queueSeq + 1, Entry(line, p, w.now + 1 + wait))
  }

  function Append(w: World, x: Item): World {
    w.(queue := w.queue + [x], queueSeq := x.id, now := x.entry.enqueuedAt)
  }

  function Enqueue(w: World, p: nat, line: Line, wait: nat): World {
    Append(MakeRoom(w, line), NextItem(w, p, line, wait))
  }

  function Create(w: World, tenant: string, expiresAt: int): World {
    w.(packets := w.packets[w.nextPacket := Packet(tenant, expiresAt, false)], nextPacket := w.nextPacket + 1)
  }

  /** Whether a new packet goes out at once. */
  predicate GoesOut(w: World, line: Line, accept: bool) {
    HasOperatorRecipient(w, line) && CanDeliverNow(w, line) && GoesThrough(w, line, accept)
  }

  function Dispatch(w: World, p: nat, line: Line, accept: bool, wait: nat): World
    requires p in w.packets
  {
    if GoesOut(w, line, accept) then Deliver(w, p, line) else Enqueue(w, p, line, wait)
  }

  function Send(w: World, tenant: string, expiresAt: int, accept: bool, wait: nat): World {
    var v := Create(w, tenant, expiresAt);
    Dispatch(v, w.nextPacket, Line(tenant, PreferredChannel(v, tenant)), accept, wait)
  }

  function Drop(w: World, x: Item): World {
    w.(queue := Without(w.queue, x.id))
  }

  predicate Known(w: World, x: Item, line: Line) {
    x.entry.packet in w.packets && w.packets[x.entry.packet].tenant == line.tenant
  }

  predicate IsExpired(w: World, x: Item, env: Surroundings) {
    x.entry.packet in w.packets && env.clock(x.entry.packet) > w.packets[x.entry.packet].expiresAt
  }

  /** One entry of a drain: dropped when its packet is gone or expired, else sent or left in place. */
  function ReplayItem(w: World, x: Item, line: Line, env: Surroundings): (World, bool) {
    var p := x.entry.packet;
    if !Known(w, x, line) then (Drop(w, x), true)
    else if IsExpired(w, x, env) then (Drop(w, x).(expired := w.expired + multiset{p}), true)
    else if GoesThrough(w, line, env.accepts(p)) then (Drop(Deliver(w, p, line), x), true)
    else (w, false)
  }

  /** Replay the listed entries until the first failure; the result says whether there was none. */
  function DrainItems(w: World, items: seq<Item>, line: Line, env: Surroundings): (World, bool)
    decreases |items|
  {
    if items == [] then (w, true)
    else
      var (v, ok) := ReplayItem(w, items[0], line, env);
      if ok then DrainItems(v, items[1..], line, env) else (v, false)
  }

  function Drain(w: World, line: Line, env: Surroundings): (World, bool) {
    DrainItems(w, OnLine(w.queue, line), line, env)
  }

  function Notify(w: World, line: Line, status: SessionStatus, env: Surroundings): World {
    var v := w.(status := w.status[line := status]);
    if status == Active && StatusOf(w, line) != Active then Drain(v, line, env).0 else v
  }

  function DrainIfReady(w: World, line: Line, env: Surroundings): World {
    if CanDeliverNow(w, line) then Drain(w, line, env).0 else w
  }

  datatype Op =
    | SendPacket(tenant: string, expiresAt: int, accept: bool, wait: nat)
    | NotifyStatus(line: Line, status: SessionStatus, env: Surroundings)
    | DrainLine(line: Line, env: Surroundings)
    | RegisterAdapter(channel: Channel)
    | Bind(line: Line, recipient: string)

  function Step(w: World, op: Op): World {
    match op
    case SendPacket(tenant, expiresAt, accept, wait) => Send(w, tenant, expiresAt, accept, wait)
    case NotifyStatus(line, status, env) => Notify(w, line, status, env)
    case DrainLine(line, env) => DrainIfReady(w, line, env)
    case RegisterAdapter(channel) => w.(adapters := w.adapters + {channel})
    case Bind(line, recipient) => w.(recipients := w.recipients[line := recipient])
  }

  function Run(w: World, ops: seq<Op>): World
    decreases |ops|
  {
    if ops == [] then w else Run(Step(w, ops[0]), ops[1..])
  }

  // ----- Conservation of packets

  function PacketOf(x: Item): nat {
    x.entry.packet
  }

  function PacketTaken(x: Delivery): nat {
    x.packet
  }

  /** The packets the adapters took, once for each time. */
  function Taken(w: World): multiset<nat> {
    multiset(Map(PacketTaken, w.accepted))
  }

  function Queued(w: World): multiset<nat> {
    multiset(Map(PacketOf, w.queue))
  }

  function Delivered(w: World): set<nat> {
    set p | p in w.packets && w.packets[p].delivered
  }

  /** Every packet created is in exactly one place; `hand` holds what a step has just picked up. */
  ghost predicate Conserved(w: World, hand: multiset<nat>) {
    Queued(w) + multiset(Delivered(w)) + w.overflowed + w.expired + hand == multiset(w.packets.Keys)
  }

  ghost predicate QueueOrdered(w: World) {
    && Chronological(w.queue)
    && (forall x :: x in w.queue ==> x.id <= w.queueSeq && x.entry.enqueuedAt <= w.now && Known(w, x, x.entry.line))
  }

  ghost predicate Bounded(w: World) {
    forall line :: |OnLine(w.queue, line)| <= OUTBOUND_QUEUE_MAX
  }

  ghost predicate InvBut(w: World, hand: multiset<nat>) {
    && QueueOrdered(w)
    && Bounded(w)
    && Conserved(w, hand)
    && Taken(w) <= multiset(Delivered(w))
    && (forall p :: p in w.packets ==> p < w.nextPacket)
  }

  ghost predicate Inv(w: World) {
    InvBut(w, multiset{})
  }

  /** Taking the head of a line off the queue moves that line on and touches no other. */
  lemma DropHead(items: seq<Item>, line: Line)
    requires Chronological(items) && OnLine(items, line) != []
    ensures var x := OnLine(items, line)[0];
      && x in items && x.entry.line == line
      && OnLine(Without(items, x.id), line) == OnLine(items, line)[1..]
      && forall other :: other != line ==> OnLine(Without(items, x.id), other) == OnLine(items, other)
  {
    var x := OnLine(items, line)[0];
    OnLineElements(items, line);
    assert x in OnLine(items, line);
    OnLineChronological(items, line);
    OnLineWithout(items, x.id, line);
    WithoutHead(OnLine(items, line));
    forall other | other != line ensures OnLine(Without(items, x.id), other) == OnLine(items, other) {
      OnLineWithout(items, x.id, other);
      OnLineElements(items, other);
      SameIdSameItem(items, x);
      WithoutAbsent(OnLine(items, other), x.id);
    }
  }

  lemma SameIdSameItem(items: seq<Item>, x: Item)
    requires Chronological(items) && x in items
    ensures forall y :: y in items && y.id == x.id ==> y == x
  {
  }

  lemma MapCons<T, U>(f: T -> U, x: T, s: seq<T>)
    ensures Map(f, [x] + s) == [f(x)] + Map(f, s)
  {
  }

  lemma QueuedWithout(items: seq<Item>, x: Item)
    requires Chronological(items) && x in items
    ensures multiset(Map(PacketOf, items)) == multiset{PacketOf(x)} + multiset(Map(PacketOf, Without(items, x.id)))
  {
    var rest := Without(items, x.id);
    WithoutTakesOne(items, x);
    hide Without, Chronological;
    assert multiset([x] + rest) == multiset(items);
    MapMultiset(PacketOf, items, [x] + rest);
    MapCons(PacketOf, x, rest);
  }

  lemma PickUp(w: World, line: Line)
    requires Inv(w) && OnLine(w.queue, line) != []
    ensures var x := OnLine(w.queue, line)[0];
      InvBut(Drop(w, x), multiset{x.entry.packet}) && Known(w, x, line)
  {
    var x := OnLine(w.queue, line)[0];
    DropHead(w.queue, line);
    QueuedWithout(w.queue, x);
    WithoutChronological(w.queue, x.id);
    WithoutElements(w.queue, x.id);
  }

  lemma HandOver(w: World, p: nat, line: Line)
    requires InvBut(w, multiset{p})
    ensures p in w.packets && Inv(Deliver(w, p, line))
  {
    assert multiset(w.packets.Keys)[p] >= 1;
    assert multiset(w.packets.Keys)[p] == 1;
    assert multiset(Delivered(w))[p] == 0;
    assert p !in Delivered(w);
    var v := Deliver(w, p, line);
    assert Delivered(v) == Delivered(w) + {p};
    assert v.packets.Keys == w.packets.Keys;
    var x := Delivery(line, p);
    assert Map(PacketTaken, w.accepted + [x]) == Map(PacketTaken, w.accepted) + [PacketTaken(x)];
  }

  lemma WriteOff(w: World, p: nat)
    requires InvBut(w, multiset{p})
    ensures Inv(w.(expired := w.expired + multiset{p}))
    ensures Inv(w.(overflowed := w.overflowed + multiset{p}))
  {
  }

  lemma RoomAfterMakeRoom(w: World, line: Line)
    requires Inv(w)
    ensures Inv(MakeRoom(w, line)) && |OnLine(MakeRoom(w, line).queue, line)| < OUTBOUND_QUEUE_MAX
  {
    if |OnLine(w.queue, line)| >= OUTBOUND_QUEUE_MAX {
      PickUp(w, line);
      DropHead(w.queue, line);
      WriteOff(Drop(w, OnLine(w.queue, line)[0]), OnLine(w.queue, line)[0].entry.packet);
    }
  }

  lemma QueuedAppend(items: seq<Item>, x: Item)
    ensures multiset(Map(PacketOf, items + [x])) == multiset(Map(PacketOf, items)) + multiset{PacketOf(x)}
  {
    assert Map(PacketOf, items + [x]) == Map(PacketOf, items) + [PacketOf(x)];
  }

  lemma PutBack(w: World, p: nat, line: Line, wait: nat)
    requires InvBut(w, multiset{p}) && p in w.packets && w.packets[p].tenant == line.tenant
    requires |OnLine(w.queue, line)| < OUTBOUND_QUEUE_MAX
    ensures Inv(Append(w, NextItem(w, p, line, wait)))
  {
    var x := NextItem(w, p, line, wait);
    var v := Append(w, x);
    QueuedAppend(w.queue, x);
    assert QueueOrdered(v) by {
      assert forall i :: 0 <= i < |w.queue| ==> w.queue[i] in w.queue;
    }
    forall other ensures |OnLine(v.queue, other)| <= OUTBOUND_QUEUE_MAX {
      OnLineAppend(w.queue, [x], other);
    }
  }

  lemma CreateKeeps(w: World, tenant: string, expiresAt: int)
    requires Inv(w)
    ensures InvBut(Create(w, tenant, expiresAt), multiset{w.nextPacket})
  {
    var v := Create(w, tenant, expiresAt);
    assert w.nextPacket !in w.packets;
    assert Delivered(v) == Delivered(w);
    assert v.packets.Keys == w.packets.Keys + {w.nextPacket};
    assert multiset(v.packets.Keys) == multiset(w.packets.Keys) + multiset{w.nextPacket};
    assert Conserved(v, multiset{w.nextPacket});
    assert QueueOrdered(v);
  }

  /** Making room and creating a packet touch different parts of the world. */
  lemma RoomThenCreate(w: World, tenant: string, expiresAt: int, line: Line, wait: nat)
    ensures var u, v := Create(w, tenant, expiresAt), Create(MakeRoom(w, line), tenant, expiresAt);
      Enqueue(u, w.nextPacket, line, wait) == Append(v, NextItem(v, w.nextPacket, line, wait))
  {
  }

  lemma EnqueueNewKeepsInv(w: World, tenant: string, expiresAt: int, channel: Channel, wait: nat)
    requires Inv(w)
    ensures Inv(Enqueue(Create(w, tenant, expiresAt), w.nextPacket, Line(tenant, channel), wait))
  {
    var line := Line(tenant, channel);
    RoomAfterMakeRoom(w, line);
    CreateKeeps(MakeRoom(w, line), tenant, expiresAt);
    RoomThenCreate(w, tenant, expiresAt, line, wait);
    PutBack(Create(MakeRoom(w, line), tenant, expiresAt), w.nextPacket, line, wait);
  }

  lemma SendKeepsInv(w: World, tenant: string, expiresAt: int, accept: bool, wait: nat)
    requires Inv(w)
    ensures Inv(Send(w, tenant, expiresAt, accept, wait))
  {
    var v := Create(w, tenant, expiresAt);
    var line := Line(tenant, PreferredChannel(v, tenant));
    if GoesOut(v, line, accept) {
      CreateKeeps(w, tenant, expiresAt);
      HandOver(v, w.nextPacket, line);
    } else {
      EnqueueNewKeepsInv(w, tenant, expiresAt, line.channel, wait);
    }
  }

  // ----- What one drain does

  /** The packets among `items` that had not expired, in order. */
  function Live(w: World, items: seq<Item>, env: Surroundings): seq<nat> {
    if items == [] then []
    else (if IsExpired(w, items[0], env) then [] else [items[0].entry.packet]) + Live(w, items[1..], env)
  }

  /** The packets among `items` that had expired, in order. */
  function Stale(w: World, items: seq<Item>, env: Surroundings): seq<nat> {
    if items == [] then []
    else (if IsExpired(w, items[0], env) then [items[0].entry.packet] else []) + Stale(w, items[1..], env)
  }

  /** How many entries a drain gets through: up to the first unexpired one that is refused. */
  function PrefixLength(w: World, items: seq<Item>, line: Line, env: Surroundings): (k: nat)
    ensures k <= |items|
    decreases |items|
  {
    if items == [] then 0
    else if IsExpired(w, items[0], env) || GoesThrough(w, line, env.accepts(items[0].entry.packet))
    then 1 + PrefixLength(w, items[1..], line, env)
    else 0
  }

  lemma {:induction false} PrefixLengthStops(w: World, items: seq<Item>, line: Line, env: Surroundings)
    ensures var k := PrefixLength(w, items, line, env);
      && (k < |items| ==> !IsExpired(w, items[k], env) && !GoesThrough(w, line, env.accepts(items[k].entry.packet)))
      && (forall i :: 0 <= i < k ==>
        IsExpired(w, items[i], env) || GoesThrough(w, line, env.accepts(items[i].entry.packet)))
    decreases |items|
  {
    if items != [] {
      PrefixLengthStops(w, items[1..], line, env);
    }
  }

  /** Two worlds that agree on everything a drain consults. */
  predicate SameRules(v: World, w: World) {
    && v.adapters == w.adapters && v.recipients == w.recipients && v.status == w.status
    && v.packets.Keys == w.packets.Keys
    && (forall p :: p in v.packets && p in w.packets ==>
      v.packets[p].expiresAt == w.packets[p].expiresAt && v.packets[p].tenant == w.packets[p].tenant)
  }

  lemma {:induction false} SameRulesSamePrefix(v: World, w: World, items: seq<Item>, line: Line, env: Surroundings)
    requires SameRules(v, w)
    ensures PrefixLength(v, items, line, env) == PrefixLength(w, items, line, env)
    ensures Live(v, items, env) == Live(w, items, env) && Stale(v, items, env) == Stale(w, items, env)
    decreases |items|
  {
    if items != [] {
      SameRulesSamePrefix(v, w, items[1..], line, env);
    }
  }

  /** The head of the line handled: delivered when unexpired, written off when not. */
  function HandleHead(w: World, x: Item, line: Line, env: Surroundings): World
    requires x.entry.packet in w.packets
  {
    if IsExpired(w, x, env) then Drop(w, x).(expired := w.expired + multiset{x.entry.packet})
    else Drop(Deliver(w, x.entry.packet, line), x)
  }

  lemma HandleHeadKeepsInv(w: World, line: Line, env: Surroundings)
    requires Inv(w) && OnLine(w.queue, line) != []
    ensures var x := OnLine(w.queue, line)[0];
      Known(w, x, line) && Inv(HandleHead(w, x, line, env))
  {
    var x := OnLine(w.queue, line)[0];
    PickUp(w, line);
    if IsExpired(w, x, env) {
      WriteOff(Drop(w, x), x.entry.packet);
    } else {
      HandOver(Drop(w, x), x.entry.packet, line);
      assert Drop(Deliver(w, x.entry.packet, line), x) == Deliver(Drop(w, x), x.entry.packet, line);
    }
  }

  /** What handling the head leaves alone: the rules, the rest of its line, and every other line. */
  ghost predicate HeadHandled(w: World, u: World, line: Line, env: Surroundings) {
    && OnLine(w.queue, line) != []
    && OnLine(w.queue, line)[0].entry.packet in w.packets
    && u == HandleHead(w, OnLine(w.queue, line)[0], line, env)
    && SameRules(u, w)
    && OnLine(u.queue, line) == OnLine(w.queue, line)[1..]
    && forall other :: other != line ==> OnLine(u.queue, other) == OnLine(w.queue, other)
  }

  lemma HandleHeadFrame(w: World, line: Line, env: Surroundings)
    requires Chronological(w.queue) && OnLine(w.queue, line) != [] && Known(w, OnLine(w.queue, line)[0], line)
    ensures HeadHandled(w, HandleHead(w, OnLine(w.queue, line)[0], line, env), line, env)
  {
    DropHead(w.queue, line);
  }

  function SetOf(s: seq<nat>): set<nat> {
    set p | p in s
  }

  function Stamped(line: Line, packets: seq<nat>): seq<Delivery> {
    seq(|packets|, i requires 0 <= i < |packets| => Delivery(line, packets[i]))
  }

  /** The effect of a drain of `line` from `w` to `v`, as an observer of both worlds sees it. */
  ghost predicate Drained(w: World, v: World, line: Line, env: Surroundings) {
    var q := OnLine(w.queue, line);
    var k := PrefixLength(w, q, line, env);
    && OnLine(v.queue, line) == q[k..]
    && (forall other :: other != line ==> OnLine(v.queue, other) == OnLine(w.queue, other))
    && v.accepted == w.accepted + (if line.channel in w.adapters then Stamped(line, Live(w, q[..k], env)) else [])
    && Delivered(v) == Delivered(w) + SetOf(Live(w, q[..k], env))
    && v.expired == w.expired + multiset(Stale(w, q[..k], env))
    && v.overflowed == w.overflowed
    && SameRules(v, w)
  }

  lemma NothingDrained(w: World, line: Line, env: Surroundings)
    requires PrefixLength(w, OnLine(w.queue, line), line, env) == 0
    ensures Drained(w, w, line, env)
  {
    assert Delivered(w) == Delivered(w) + SetOf(Live(w, OnLine(w.queue, line)[..0], env));
    assert w.expired == w.expired + multiset(Stale(w, OnLine(w.queue, line)[..0], env));
  }

  /** A drain removes a prefix of its line in order and stops at the first refusal. */
  lemma {:induction false} DrainRemovesPrefix(w: World, line: Line, env: Surroundings)
    requires Inv(w)
    ensures var (v, ok) := Drain(w, line, env);
      && Inv(v) && Drained(w, v, line, env)
      && (ok <==> PrefixLength(w, OnLine(w.queue, line), line, env) == |OnLine(w.queue, line)|)
    decreases |OnLine(w.queue, line)|
  {
    hide Drained;
    var q := OnLine(w.queue, line);
    if q == [] {
      NothingDrained(w, line, env);
    } else {
      HandleHeadKeepsInv(w, line, env);
      if IsExpired(w, q[0], env) || GoesThrough(w, line, env.accepts(q[0].entry.packet)) {
        var u := HandleHead(w, q[0], line, env);
        HandleHeadFrame(w, line, env);
        DrainRemovesPrefix(u, line, env);
        SameRulesSamePrefix(u, w, q[1..], line, env);
        DrainedExtends(w, u, Drain(u, line, env).0, line, env);
      } else {
        NothingDrained(w, line, env);
      }
    }
  }

  lemma LiveCons(w: World, q: seq<Item>, k: nat, env: Surroundings)
    requires 1 <= k <= |q|
    ensures Live(w, q[..k], env) ==
      (if IsExpired(w, q[0], env) then [] else [q[0].entry.packet]) + Live(w, q[1..][..k - 1], env)
    ensures Stale(w, q[..k], env) ==
      (if IsExpired(w, q[0], env) then [q[0].entry.packet] else []) + Stale(w, q[1..][..k - 1], env)
  {
    assert q[..k][1..] == q[1..][..k - 1];
  }

  /** The prefix of a line is its head and the prefix of what is left once the head is handled. */
  lemma PrefixExtends(w: World, u: World, line: Line, env: Surroundings)
    requires HeadHandled(w, u, line, env)
    requires var x := OnLine(w.queue, line)[0];
      IsExpired(w, x, env) || GoesThrough(w, line, env.accepts(x.entry.packet))
    ensures var q := OnLine(w.queue, line);
      var k := 1 + PrefixLength(u, q[1..], line, env);
      && PrefixLength(w, q, line, env) == k
      && Live(w, q[..k], env) ==
        (if IsExpired(w, q[0], env) then [] else [q[0].entry.packet]) + Live(u, q[1..][..k - 1], env)
      && Stale(w, q[..k], env) ==
        (if IsExpired(w, q[0], env) then [q[0].entry.packet] else []) + Stale(u, q[1..][..k - 1], env)
  {
    var q := OnLine(w.queue, line);
    var k := 1 + PrefixLength(u, q[1..], line, env);
    SameRulesSamePrefix(u, w, q[1..], line, env);
    SameRulesSamePrefix(u, w, q[1..][..k - 1], line, env);
    LiveCons(w, q, k, env);
  }

  /** Handling the head and then draining the rest is draining the whole line. */
  lemma DrainedExtends(w: World, u: World, v: World, line: Line, env: Surroundings)
    requires HeadHandled(w, u, line, env) && Drained(u, v, line, env)
    requires var x := OnLine(w.queue, line)[0];
      IsExpired(w, x, env) || GoesThrough(w, line, env.accepts(x.entry.packet))
    ensures Drained(w, v, line, env)
  {
    hide PrefixLength, Live, Stale, Delivered, GoesThrough, OnLine, Stamped, SetOf, IsExpired;
    var q := OnLine(w.queue, line);
    var k := 1 + PrefixLength(u, q[1..], line, env);
    var rest := Live(u, q[1..][..k - 1], env);
    PrefixExtends(w, u, line, env);
    assert OnLine(v.queue, line) == q[k..];
    StampedCons(line, q[0].entry.packet, rest);
    DeliveredExtends(w, u, line, env, rest);
    ExpiredExtends(w, u, line, env, Stale(u, q[1..][..k - 1], env));
  }

  lemma ExpiredExtends(w: World, u: World, line: Line, env: Surroundings, rest: seq<nat>)
    requires HeadHandled(w, u, line, env)
    ensures var x := OnLine(w.queue, line)[0];
      u.expired + multiset(rest) ==
        w.expired + multiset((if IsExpired(w, x, env) then [x.entry.packet] else []) + rest)
  {
    hide OnLine;
    assert [] + rest == rest;
  }

  lemma StampedCons(line: Line, p: nat, rest: seq<nat>)
    ensures Stamped(line, [p] + rest) == [Delivery(line, p)] + Stamped(line, rest)
    ensures Stamped(line, [] + rest) == Stamped(line, rest)
  {
    assert [] + rest == rest;
  }

  lemma DeliveredExtends(w: World, u: World, line: Line, env: Surroundings, rest: seq<nat>)
    requires HeadHandled(w, u, line, env)
    ensures var x := OnLine(w.queue, line)[0];
      Delivered(u) + SetOf(rest) ==
        Delivered(w) + SetOf((if IsExpired(w, x, env) then [] else [x.entry.packet]) + rest)
  {
    var x := OnLine(w.queue, line)[0];
    if IsExpired(w, x, env) {
      assert Delivered(u) == Delivered(w);
      assert [] + rest == rest;
    } else {
      assert Delivered(u) == Delivered(w) + {x.entry.packet};
      assert SetOf([x.entry.packet] + rest) == {x.entry.packet} + SetOf(rest);
    }
  }

  // ----- Whole runs

  lemma RulesKeepInv(w: World, status: map<Line, SessionStatus>, adapters: set<Channel>, recipients: map<Line, string>)
    requires Inv(w)
    ensures Inv(w.(status := status, adapters := adapters, recipients := recipients))
  {
  }

  lemma StepKeepsInv(w: World, op: Op)
    requires Inv(w)
    ensures Inv(Step(w, op))
  {
    hide Inv, DrainItems, Drained, Send;
    match op
    case SendPacket(tenant, expiresAt, accept, wait) =>
      SendKeepsInv(w, tenant, expiresAt, accept, wait);
    case NotifyStatus(line, status, env) =>
      RulesKeepInv(w, w.status[line := status], w.adapters, w.recipients);
      DrainRemovesPrefix(w.(status := w.status[line := status]), line, env);
    case DrainLine(line, env) =>
      DrainRemovesPrefix(w, line, env);
    case RegisterAdapter(channel) =>
      RulesKeepInv(w, w.status, w.adapters + {channel}, w.recipients);
    case Bind(line, recipient) =>
      RulesKeepInv(w, w.status, w.adapters, w.recipients[line := recipient]);
  }

  lemma {:induction false} RunKeepsInv(w: World, ops: seq<Op>)
    requires Inv(w)
    ensures Inv(Run(w, ops))
    decreases |ops|
  {
    if ops != [] {
      StepKeepsInv(w, ops[0]);
      RunKeepsInv(Step(w, ops[0]), ops[1..]);
    }
  }

  /** Every world a run can reach satisfies the invariant. */
  lemma ReachableInv(ops: seq<Op>)
    ensures Inv(Run(EMPTY_WORLD, ops))
  {
    assert Queued(EMPTY_WORLD) == multiset{};
    assert Delivered(EMPTY_WORLD) == {};
    RunKeepsInv(EMPTY_WORLD, ops);
  }

  function CountOf(b: bool): nat {
    if b then 1 else 0
  }

  /** After any run every packet created is delivered, queued once, dropped by overflow or dropped by
   *  expiry, and only one of these; an adapter took it at most once; no line exceeds its bound.
   */
  lemma PacketConservation(ops: seq<Op>, p: nat)
    ensures var w := Run(EMPTY_WORLD, ops);
      && (p in w.packets ==>
        CountOf(w.packets[p].delivered) + Queued(w)[p] + w.overflowed[p] + w.expired[p] == 1)
      && Taken(w)[p] <= CountOf(p in w.packets && w.packets[p].delivered)
      && forall line :: |OnLine(w.queue, line)| <= OUTBOUND_QUEUE_MAX
  {
    var w := Run(EMPTY_WORLD, ops);
    ReachableInv(ops);
    assert multiset(w.packets.Keys)[p] == CountOf(p in w.packets);
    assert multiset(Delivered(w))[p] == CountOf(p in Delivered(w));
  }

  /** A line loses its head when it is full, and nothing else. */
  lemma MakeRoomIsFifo(w: World, line: Line)
    requires Inv(w)
    ensures var v, q := MakeRoom(w, line), OnLine(w.queue, line);
      && OnLine(v.queue, line) == (if |q| == OUTBOUND_QUEUE_MAX then q[1..] else q)
      && v.overflowed == w.overflowed + (if |q| == OUTBOUND_QUEUE_MAX then multiset{q[0].entry.packet} else multiset{})
      && forall other :: other != line ==> OnLine(v.queue, other) == OnLine(w.queue, other)
  {
    if OnLine(w.queue, line) != [] {
      DropHead(w.queue, line);
    }
  }

  lemma AppendIsFifo(w: World, x: Item)
    ensures OnLine(Append(w, x).queue, x.entry.line) == OnLine(w.queue, x.entry.line) + [x]
    ensures forall other :: other != x.entry.line ==> OnLine(Append(w, x).queue, other) == OnLine(w.queue, other)
  {
    OnLineAppend(w.queue, [x], x.entry.line);
    forall other | other != x.entry.line ensures OnLine(Append(w, x).queue, other) == OnLine(w.queue, other) {
      OnLineAppend(w.queue, [x], other);
    }
  }

  /** A packet that cannot go out joins the end of its line, pushing out the head of a full one. */
  lemma EnqueueIsFifo(w: World, p: nat, line: Line, wait: nat)
    requires Inv(w)
    ensures var v, q := Enqueue(w, p, line, wait), OnLine(w.queue, line);
      && OnLine(v.queue, line) == (if |q| == OUTBOUND_QUEUE_MAX then q[1..] else q) + [NextItem(w, p, line, wait)]
      && v.overflowed == w.overflowed + (if |q| == OUTBOUND_QUEUE_MAX then multiset{q[0].entry.packet} else multiset{})
      && v.accepted == w.accepted && v.packets == w.packets
      && forall other :: other != line ==> OnLine(v.queue, other) == OnLine(w.queue, other)
  {
    MakeRoomIsFifo(w, line);
    AppendIsFifo(MakeRoom(w, line), NextItem(w, p, line, wait));
  }

  // ----- What goes out, and when

  lemma {:induction false} LiveAndStale(w: World, items: seq<Item>, env: Surroundings)
    requires forall x :: x in items ==> x.entry.packet in w.packets
    ensures forall p :: p in Live(w, items, env) ==> p in w.packets && env.clock(p) <= w.packets[p].expiresAt
    ensures forall p :: p in Stale(w, items, env) ==> p in w.packets && env.clock(p) > w.packets[p].expiresAt
  {
    if items != [] {
      LiveAndStale(w, items[1..], env);
    }
  }

  /** The packets newly taken had not expired by the clock, those newly written off had. */
  ghost predicate HonoursExpiry(w: World, v: World, env: Surroundings) {
    && w.accepted <= v.accepted
    && (forall i :: |w.accepted| <= i < |v.accepted| ==>
      v.accepted[i].packet in w.packets && env.clock(v.accepted[i].packet) <= w.packets[v.accepted[i].packet].expiresAt)
    && w.expired <= v.expired
    && (forall p :: v.expired[p] > w.expired[p] ==> p in w.packets && env.clock(p) > w.packets[p].expiresAt)
  }

  lemma HonoursFromParts(w: World, v: World, env: Surroundings, news: seq<Delivery>, gone: seq<nat>)
    requires v.accepted == w.accepted + news && v.expired == w.expired + multiset(gone)
    requires forall i :: 0 <= i < |news| ==>
      news[i].packet in w.packets && env.clock(news[i].packet) <= w.packets[news[i].packet].expiresAt
    requires forall p :: p in gone ==> p in w.packets && env.clock(p) > w.packets[p].expiresAt
    ensures HonoursExpiry(w, v, env)
  {
    assert forall p :: multiset(gone)[p] > 0 ==> p in gone;
  }

  lemma DrainHonoursExpiry(w: World, line: Line, env: Surroundings)
    requires Inv(w)
    ensures HonoursExpiry(w, Drain(w, line, env).0, env)
  {
    var v, q := Drain(w, line, env).0, OnLine(w.queue, line);
    var k := PrefixLength(w, q, line, env);
    OnLineElements(w.queue, line);
    assert forall x :: x in q[..k] ==> x in q && x.entry.packet in w.packets;
    LiveAndStale(w, q[..k], env);
    DrainRemovesPrefix(w, line, env);
    hide Inv, Drain, Live, Stale, PrefixLength, OnLine, HonoursExpiry, Delivered, SetOf;
    var live, gone := Live(w, q[..k], env), Stale(w, q[..k], env);
    var news := if line.channel in w.adapters then Stamped(line, live) else [];
    assert forall i :: 0 <= i < |news| ==> news[i].packet == live[i] && live[i] in live;
    HonoursFromParts(w, v, env, news, gone);
  }

  /** A drain sends only what has not expired by its clock and writes off only what has, whatever starts it. */
  lemma ExpiryIsHonoured(w: World, op: Op)
    requires Inv(w) && (op.NotifyStatus? || op.DrainLine?)
    ensures HonoursExpiry(w, Step(w, op), op.env)
  {
    hide Drain;
    if op.NotifyStatus? {
      var v := w.(status := w.status[op.line := op.status]);
      RulesKeepInv(w, v.status, w.adapters, w.recipients);
      DrainHonoursExpiry(v, op.line, op.env);
    } else {
      DrainHonoursExpiry(w, op.line, op.env);
    }
  }

  /** A session that turns active drains its line; any other notice is only noted. */
  lemma NotifyExactly(w: World, line: Line, status: SessionStatus, env: Surroundings)
    requires Inv(w)
    ensures var v, noted := Step(w, NotifyStatus(line, status, env)), w.(status := w.status[line := status]);
      if status == Active && !(line in w.status && w.status[line] == Active)
      then Drained(noted, v, line, env)
      else v == noted
  {
    hide Inv, Drain, Drained;
    var noted := w.(status := w.status[line := status]);
    RulesKeepInv(w, noted.status, w.adapters, w.recipients);
    DrainRemovesPrefix(noted, line, env);
  }

  /** The session of the line is up: active, or never heard of on Telegram. */
  predicate IsUp(w: World, line: Line) {
    if line in w.status && w.status[line] != Unknown then w.status[line] == Active else line.channel == Telegram
  }

  /** Asked to drain, a line that is up is drained, and nothing else changes. */
  lemma DrainExactly(w: World, line: Line, env: Surroundings)
    requires Inv(w)
    ensures var v := Step(w, DrainLine(line, env));
      if IsUp(w, line) then Drained(w, v, line, env) else v == w
  {
    hide Inv, Drain, Drained;
    DrainRemovesPrefix(w, line, env);
  }

  /** The operator can be written to on the line, and the adapter, if there is one, takes the packet. */
  predicate TakesPacket(w: World, line: Line, accept: bool) {
    if line in w.recipients then w.recipients[line] != "" && (accept || line.channel !in w.adapters)
    else line.channel !in w.adapters
  }

  /** The line of a tenant: WhatsApp with an adapter and a binding, up or down, else Telegram. */
  predicate IsLineOf(w: World, line: Line, tenant: string) {
    && line.tenant == tenant
    && (line.channel == WhatsApp <==> WhatsApp in w.adapters && Line(tenant, WhatsApp) in w.recipients)
  }

  lemma GoesOutExactly(w: World, line: Line, accept: bool)
    ensures GoesOut(w, line, accept) <==> IsUp(w, line) && TakesPacket(w, line, accept)
  {
  }

  /** Where a send finds its packet put. */
  ghost predicate SentOut(w: World, v: World, line: Line, p: nat) {
    && v.accepted == w.accepted + (if line.channel in w.adapters then [Delivery(line, p)] else [])
    && v.queue == w.queue && v.overflowed == w.overflowed
  }

  ghost predicate LeftWaiting(w: World, v: World, line: Line, p: nat) {
    var q := Waiting(w, line);
    && v.accepted == w.accepted
    && Waiting(v, line) == (if |q| == 100 then q[1..] else q) + [p]
    && (forall other :: other != line ==> OnLine(v.queue, other) == OnLine(w.queue, other))
  }

  lemma MapSnoc<T, U>(f: T -> U, s: seq<T>, x: T)
    ensures Map(f, s + [x]) == Map(f, s) + [f(x)]
    ensures s != [] ==> Map(f, s[1..]) == Map(f, s)[1..]
  {
  }

  lemma EnqueueLeavesWaiting(w: World, p: nat, line: Line, wait: nat)
    requires Inv(w)
    ensures LeftWaiting(w, Enqueue(w, p, line, wait), line, p)
  {
    hide Inv, Enqueue, OnLine;
    EnqueueIsFifo(w, p, line, wait);
    var q, x := OnLine(w.queue, line), NextItem(w, p, line, wait);
    MapSnoc(PacketOf, q, x);
    if |q| == OUTBOUND_QUEUE_MAX {
      MapSnoc(PacketOf, q[1..], x);
    }
  }

  /** A new packet goes out at once exactly when its line is up and takes it; else it waits at the end of the line,
   *  from which at most the oldest of a hundred has to go.
   */
  lemma SendExactly(w: World, op: Op, line: Line)
    requires Inv(w) && op.SendPacket? && IsLineOf(w, line, op.tenant)
    ensures var v, p, out := Step(w, op), w.nextPacket, IsUp(w, line) && TakesPacket(w, line, op.accept);
      && v.packets == w.packets[p := Packet(op.tenant, op.expiresAt, out)]
      && v.expired == w.expired && v.status == w.status
      && (if out then SentOut(w, v, line, p) else LeftWaiting(w, v, line, p))
  {
    assert SendLine(w, op.tenant) == line;
    GoesOutExactly(w, line, op.accept);
    EnqueueLeavesWaiting(w, w.nextPacket, line, op.wait);
    hide Inv, IsUp, TakesPacket, OnLine, Waiting;
    SendPlaces(w, op, line);
  }

  lemma SendPlaces(w: World, op: Op, line: Line)
    requires op.SendPacket? && SendLine(w, op.tenant) == line
    ensures var v, p, out := Step(w, op), w.nextPacket, GoesOut(w, line, op.accept);
      && v.packets == w.packets[p := Packet(op.tenant, op.expiresAt, out)]
      && v.expired == w.expired && v.status == w.status
      && (out ==> SentOut(w, v, line, p))
      && (!out ==> v.queue == Enqueue(w, p, line, op.wait).queue && v.accepted == w.accepted)
  {
    CreationIsUnseen(w, op, line);
    hide OnLine, Without, GoesOut, Enqueue, PreferredChannel;
    EnqueueIgnoresCreation(w, op, line, line);
    EnqueueLeavesPackets(Create(w, op.tenant, op.expiresAt), w.nextPacket, line, op.wait);
  }

  lemma EnqueueLeavesPackets(w: World, p: nat, line: Line, wait: nat)
    ensures var v := Enqueue(w, p, line, wait);
      v.packets == w.packets && v.expired == w.expired && v.status == w.status && v.accepted == w.accepted
  {
  }

  lemma CreationIsUnseen(w: World, op: Op, line: Line)
    requires op.SendPacket?
    ensures var v := Create(w, op.tenant, op.expiresAt);
      GoesOut(v, line, op.accept) == GoesOut(w, line, op.accept) && SendLine(v, op.tenant) == SendLine(w, op.tenant)
  {
  }

  /** No notice brings the line up. */
  predicate StaysDown(op: Op, line: Line) {
    op.NotifyStatus? && op.line == line ==> op.status != Active && (op.status == Unknown ==> line.channel == WhatsApp)
  }

  lemma SendTakenElsewhere(w: World, op: Op, line: Line)
    requires Inv(w) && op.SendPacket? && !IsUp(w, line)
    ensures !IsUp(Step(w, op), line) && TakenOn(Step(w, op).accepted, line) == TakenOn(w.accepted, line)
  {
    var own := SendLine(w, op.tenant);
    hide TakesPacket, OnLine, Step;
    SendExactly(w, op, own);
    hide Inv;
    TakenOnAppend(w.accepted, [Delivery(own, w.nextPacket)], line);
    assert w.accepted + [] == w.accepted;
  }

  lemma DownTakesNothing(w: World, op: Op, line: Line)
    requires Inv(w) && !IsUp(w, line) && StaysDown(op, line)
    ensures !IsUp(Step(w, op), line) && TakenOn(Step(w, op).accepted, line) == TakenOn(w.accepted, line)
  {
    hide Drain;
    match op
    case SendPacket(_, _, _, _) => SendTakenElsewhere(w, op, line);
    case NotifyStatus(l, status, env) =>
      var v := w.(status := w.status[l := status]);
      RulesKeepInv(w, v.status, w.adapters, w.recipients);
      DrainTakenElsewhere(v, l, env, line);
    case DrainLine(l, env) => DrainTakenElsewhere(w, l, env, line);
    case RegisterAdapter(_) =>
    case Bind(_, _) =>
  }

  lemma DrainTakenElsewhere(w: World, line: Line, env: Surroundings, other: Line)
    requires Inv(w)
    ensures var v := Drain(w, line, env).0;
      v.status == w.status && (line != other ==> TakenOn(v.accepted, other) == TakenOn(w.accepted, other))
  {
    hide Inv, Drain, Live, Stale, PrefixLength;
    DrainRemovesPrefix(w, line, env);
    var q := OnLine(w.queue, line);
    var live := Live(w, q[..PrefixLength(w, q, line, env)], env);
    TakenOnAppend(w.accepted, Stamped(line, live), other);
    TakenOnStamped(line, live, other);
    assert w.accepted + [] == w.accepted;
  }

  /** While a line is down nothing is taken on it: its packets wait, through any run that does not bring it up. */
  lemma {:induction false} DownLineOnlyQueues(w: World, ops: seq<Op>, line: Line)
    requires Inv(w) && !IsUp(w, line) && forall op :: op in ops ==> StaysDown(op, line)
    ensures TakenOn(Run(w, ops).accepted, line) == TakenOn(w.accepted, line)
    decreases |ops|
  {
    if ops != [] {
      hide Inv, IsUp, StaysDown, Step;
      assert ops[0] in ops && forall op :: op in ops[1..] ==> op in ops;
      DownTakesNothing(w, ops[0], line);
      StepKeepsInv(w, ops[0]);
      DownLineOnlyQueues(Step(w, ops[0]), ops[1..], line);
    }
  }

  // ----- Order on a line

  /** The packets taken on a line, oldest delivery first. */
  function TakenOn(accepted: seq<Delivery>, line: Line): seq<nat> {
    if accepted == [] then []
    else
      var last := accepted[|accepted| - 1];
      TakenOn(accepted[..|accepted| - 1], line) + (if last.line == line then [last.packet] else [])
  }

  function Waiting(w: World, line: Line): seq<nat> {
    Map(PacketOf, OnLine(w.queue, line))
  }

  ghost predicate Rising(s: seq<nat>) {
    forall i, j :: 0 <= i < j < |s| ==> s[i] < s[j]
  }

  /** What a line has delivered and what it still holds is, in this order, in order of creation. */
  ghost predicate InOrder(w: World, line: Line) {
    Rising(TakenOn(w.accepted, line) + Waiting(w, line))
  }

  lemma {:induction false} TakenOnAppend(a: seq<Delivery>, b: seq<Delivery>, line: Line)
    ensures TakenOn(a + b, line) == TakenOn(a, line) + TakenOn(b, line)
    decreases |b|
  {
    if b == [] {
      assert a + b == a;
    } else {
      assert (a + b)[..|a + b| - 1] == a + b[..|b| - 1];
      TakenOnAppend(a, b[..|b| - 1], line);
    }
  }

  lemma {:induction false} TakenOnStamped(line: Line, packets: seq<nat>, other: Line)
    ensures TakenOn(Stamped(line, packets), other) == if other == line then packets else []
  {
    if packets != [] {
      var init := packets[..|packets| - 1];
      assert Stamped(line, packets)[..|packets| - 1] == Stamped(line, init);
      TakenOnStamped(line, init, other);
      assert packets == init + [packets[|packets| - 1]];
    }
  }

  lemma {:induction false} TakenOnElements(accepted: seq<Delivery>, line: Line)
    ensures forall p :: p in TakenOn(accepted, line) ==> p in Map(PacketTaken, accepted)
  {
    if accepted != [] {
      var init, last := accepted[..|accepted| - 1], accepted[|accepted| - 1];
      TakenOnElements(init, line);
      assert Map(PacketTaken, accepted) == Map(PacketTaken, init) + [PacketTaken(last)];
    }
  }

  ghost predicate AllBelow(a: seq<nat>, b: seq<nat>) {
    forall x, y :: x in a && y in b ==> x < y
  }

  lemma RisingParts(a: seq<nat>, b: seq<nat>)
    ensures Rising(a + b) <==> Rising(a) && Rising(b) && AllBelow(a, b)
  {
    if Rising(a + b) {
      forall i, j | 0 <= i < j < |a| ensures a[i] < a[j] {
        assert (a + b)[i] < (a + b)[j];
      }
      forall i, j | 0 <= i < j < |b| ensures b[i] < b[j] {
        assert (a + b)[|a| + i] < (a + b)[|a| + j];
      }
      forall x, y | x in a && y in b ensures x < y {
        var i, j :| 0 <= i < |a| && a[i] == x && 0 <= j < |b| && b[j] == y;
        assert (a + b)[i] < (a + b)[|a| + j];
      }
    }
    if Rising(a) && Rising(b) && AllBelow(a, b) {
      forall i, j | 0 <= i < j < |a + b| ensures (a + b)[i] < (a + b)[j] {
        if i < |a| <= j {
          assert a[i] in a && b[j - |a|] in b;
        }
      }
    }
  }

  lemma AllBelowParts(a: seq<nat>, b: seq<nat>, c: seq<nat>)
    ensures AllBelow(a + b, c) <==> AllBelow(a, c) && AllBelow(b, c)
  {
    if AllBelow(a + b, c) {
      assert forall x :: x in a || x in b ==> x in a + b;
    }
  }

  /** The unexpired packets of a stretch of queue are some of its packets, in the same order. */
  lemma {:induction false} LiveIsPart(w: World, items: seq<Item>, env: Surroundings)
    ensures forall p :: p in Live(w, items, env) ==> p in Map(PacketOf, items)
    ensures Rising(Map(PacketOf, items)) ==> Rising(Live(w, items, env))
  {
    if items != [] {
      var x, rest := items[0], items[1..];
      LiveIsPart(w, rest, env);
      assert Map(PacketOf, items) == [PacketOf(x)] + Map(PacketOf, rest);
      RisingParts([PacketOf(x)], Map(PacketOf, rest));
      RisingParts([PacketOf(x)], Live(w, rest, env));
    }
  }

  /** Delivering the live part of a prefix and dropping the rest of it keeps the order. */
  lemma PrefixKeepsOrder(w: World, taken: seq<nat>, q: seq<Item>, k: nat, env: Surroundings)
    requires k <= |q| && Rising(taken + Map(PacketOf, q))
    ensures Rising(taken + Live(w, q[..k], env) + Map(PacketOf, q[k..]))
    ensures Rising(taken + Map(PacketOf, q[k..]))
  {
    hide Rising;
    var live, gone, left := Live(w, q[..k], env), Map(PacketOf, q[..k]), Map(PacketOf, q[k..]);
    assert Map(PacketOf, q) == gone + left;
    assert taken + (gone + left) == (taken + gone) + left;
    RisingParts(taken + gone, left);
    RisingParts(taken, gone);
    AllBelowParts(taken, gone, left);
    LiveIsPart(w, q[..k], env);
    assert AllBelow(taken, live) && AllBelow(live, left);
    RisingParts(taken, live);
    AllBelowParts(taken, live, left);
    RisingParts(taken, left);
    RisingParts(taken + live, left);
  }

  lemma DrainKeepsOrder(w: World, line: Line, env: Surroundings, other: Line)
    requires Inv(w) && InOrder(w, other)
    ensures InOrder(Drain(w, line, env).0, other)
  {
    hide Inv, DrainItems, PrefixLength, Live, Stale;
    DrainRemovesPrefix(w, line, env);
    var v, q := Drain(w, line, env).0, OnLine(w.queue, line);
    var k := PrefixLength(w, q, line, env);
    var live := Live(w, q[..k], env);
    TakenOnAppend(w.accepted, Stamped(line, live), other);
    TakenOnStamped(line, live, other);
    assert w.accepted + [] == w.accepted;
    if other == line {
      PrefixKeepsOrder(w, TakenOn(w.accepted, line), q, k, env);
      assert Waiting(v, line) == Map(PacketOf, q[k..]);
    } else {
      assert TakenOn(v.accepted, other) == TakenOn(w.accepted, other);
      assert Waiting(v, other) == Waiting(w, other);
    }
  }

  /** Every packet taken or waiting is older than the next one. */
  lemma AllOlder(w: World, line: Line)
    requires Inv(w)
    ensures forall p :: p in TakenOn(w.accepted, line) || p in Waiting(w, line) ==> p < w.nextPacket
  {
    TakenOnElements(w.accepted, line);
    OnLineElements(w.queue, line);
    forall p | p in TakenOn(w.accepted, line) ensures p < w.nextPacket {
      assert p in Taken(w) && p in multiset(Delivered(w));
    }
    forall p | p in Waiting(w, line) ensures p < w.nextPacket {
      var i :| 0 <= i < |Waiting(w, line)| && Waiting(w, line)[i] == p;
      var x := OnLine(w.queue, line)[i];
      assert x in OnLine(w.queue, line) && p == PacketOf(x);
    }
  }

  /** Dropping the head and appending a newer packet keeps the order. */
  lemma NewestGoesLast(w: World, taken: seq<nat>, q: seq<Item>, k: nat, x: Item)
    requires k <= |q| && Rising(taken + Map(PacketOf, q))
    requires forall p :: p in taken || p in Map(PacketOf, q) ==> p < PacketOf(x)
    ensures Rising(taken + Map(PacketOf, q[k..] + [x]))
  {
    PrefixKeepsOrder(w, taken, q, k, Surroundings(_ => false, _ => 0));
    var left := Map(PacketOf, q[k..]);
    assert forall p :: p in left ==> p in Map(PacketOf, q) by {
      assert forall i :: 0 <= i < |left| ==> left[i] == Map(PacketOf, q)[k + i];
    }
    assert AllBelow(taken + left, [PacketOf(x)]);
    RisingParts(taken + left, [PacketOf(x)]);
    assert taken + Map(PacketOf, q[k..] + [x]) == taken + left + [PacketOf(x)];
  }

  lemma EnqueueKeepsOrder(w: World, p: nat, line: Line, wait: nat, other: Line)
    requires Inv(w) && InOrder(w, other) && p == w.nextPacket
    ensures InOrder(Enqueue(w, p, line, wait), other)
  {
    hide Inv, Enqueue, Rising;
    AllOlder(w, other);
    EnqueueIsFifo(w, p, line, wait);
    if other == line {
      var q, x := OnLine(w.queue, line), NextItem(w, p, line, wait);
      var k := if |q| == OUTBOUND_QUEUE_MAX then 1 else 0;
      assert q[0..] == q;
      NewestGoesLast(w, TakenOn(w.accepted, line), q, k, x);
    }
  }

  /** The line a new packet of the tenant takes. */
  function SendLine(w: World, tenant: string): Line {
    Line(tenant, PreferredChannel(w, tenant))
  }

  /** A new packet goes out to the adapter at once although its line still holds older ones. */
  predicate Overtakes(w: World, op: Op, line: Line) {
    && op.SendPacket? && line == SendLine(w, op.tenant) && line.channel in w.adapters
    && GoesOut(w, line, op.accept) && OnLine(w.queue, line) != []
  }

  lemma DirectSendOrder(w: World, line: Line, p: nat)
    requires Inv(w) && InOrder(w, line) && p == w.nextPacket
    ensures Rising(TakenOn(w.accepted, line) + [p] + Waiting(w, line)) <==> OnLine(w.queue, line) == []
  {
    hide Inv;
    AllOlder(w, line);
    var taken, waiting := TakenOn(w.accepted, line), Waiting(w, line);
    RisingParts(taken, waiting);
    RisingParts(taken, [p]);
    RisingParts(taken + [p], waiting);
    if waiting != [] {
      assert waiting[0] in waiting && p in taken + [p];
    }
  }

  lemma SendOrder(w: World, op: Op, line: Line)
    requires Inv(w) && InOrder(w, line) && op.SendPacket?
    ensures InOrder(Step(w, op), line) <==> !Overtakes(w, op, line)
  {
    hide Inv, Rising, Enqueue;
    var v, own := Create(w, op.tenant, op.expiresAt), SendLine(w, op.tenant);
    if GoesOut(w, own, op.accept) {
      var x := Delivery(own, w.nextPacket);
      TakenOnAppend(w.accepted, [x], line);
      assert TakenOn([x], line) == if line == own then [w.nextPacket] else [];
      DirectSendOrder(w, line, w.nextPacket);
      assert Waiting(Step(w, op), line) == Waiting(w, line);
      if line == own && line.channel in w.adapters {
        assert TakenOn(Step(w, op).accepted, line) == TakenOn(w.accepted, line) + [w.nextPacket];
      } else {
        assert TakenOn(Step(w, op).accepted, line) == TakenOn(w.accepted, line);
      }
    } else {
      EnqueueKeepsOrder(w, w.nextPacket, own, op.wait, line);
      EnqueueIgnoresCreation(w, op, own, line);
    }
  }

  lemma EnqueueIgnoresCreation(w: World, op: Op, own: Line, line: Line)
    requires op.SendPacket?
    ensures var a := Enqueue(Create(w, op.tenant, op.expiresAt), w.nextPacket, own, op.wait);
      var b := Enqueue(w, w.nextPacket, own, op.wait);
      a.queue == b.queue && a.accepted == b.accepted
  {
  }

  /** From a line in order, a step leaves it in order exactly when it does not overtake: drains, enqueues,
   *  overflows, session and adapter changes never disturb it.
   */
  lemma StepOrder(w: World, op: Op, line: Line)
    requires Inv(w) && InOrder(w, line)
    ensures InOrder(Step(w, op), line) <==> !Overtakes(w, op, line)
  {
    hide Inv, Rising, Drain, Send;
    match op
    case SendPacket(_, _, _, _) => SendOrder(w, op, line);
    case NotifyStatus(l, status, env) =>
      var v := w.(status := w.status[l := status]);
      RulesKeepInv(w, v.status, w.adapters, w.recipients);
      assert InOrder(v, line);
      DrainKeepsOrder(v, l, env, line);
    case DrainLine(l, env) => DrainKeepsOrder(w, l, env, line);
    case RegisterAdapter(_) =>
    case Bind(_, _) =>
  }

  /** No direct send of the run overtakes on the line. */
  predicate Orderly(w: World, ops: seq<Op>, line: Line)
    decreases |ops|
  {
    ops == [] || (!Overtakes(w, ops[0], line) && Orderly(Step(w, ops[0]), ops[1..], line))
  }

  /** The line is in order after every step of the run. */
  ghost predicate AlwaysInOrder(w: World, ops: seq<Op>, line: Line)
    decreases |ops|
  {
    InOrder(w, line) && (ops == [] || AlwaysInOrder(Step(w, ops[0]), ops[1..], line))
  }

  lemma {:induction false} RunOrder(w: World, ops: seq<Op>, line: Line)
    requires Inv(w) && InOrder(w, line)
    ensures AlwaysInOrder(w, ops, line) <==> Orderly(w, ops, line)
    ensures Orderly(w, ops, line) ==> InOrder(Run(w, ops), line)
    decreases |ops|
  {
    if ops != [] {
      hide Inv, InOrder, Step, Overtakes;
      StepOrder(w, ops[0], line);
      StepKeepsInv(w, ops[0]);
      if InOrder(Step(w, ops[0]), line) {
        RunOrder(Step(w, ops[0]), ops[1..], line);
      }
    }
  }

  /** A line delivers its packets in order of creation throughout a run exactly when no direct send of the
   *  run goes out past packets the line still holds.
   */
  lemma OrderIsKeptExactly(ops: seq<Op>, line: Line)
    ensures AlwaysInOrder(EMPTY_WORLD, ops, line) <==> Orderly(EMPTY_WORLD, ops, line)
    ensures Orderly(EMPTY_WORLD, ops, line) ==> Rising(TakenOn(Run(EMPTY_WORLD, ops).accepted, line))
  {
    ReachableInv([]);
    RunOrder(EMPTY_WORLD, ops, line);
    if Orderly(EMPTY_WORLD, ops, line) {
      RisingParts(TakenOn(Run(EMPTY_WORLD, ops).accepted, line), Waiting(Run(EMPTY_WORLD, ops), line));
    }
  }

  /** What an overtaking step shows: the new packet is taken while the head of the line, an older packet,
   *  still waits.
   */
  lemma OvertakenPacket(w: World, op: Op, line: Line)
    requires Inv(w) && Overtakes(w, op, line)
    ensures var v := Step(w, op);
      && v.accepted == w.accepted + [Delivery(line, w.nextPacket)]
      && OnLine(v.queue, line) == OnLine(w.queue, line) && PacketOf(OnLine(v.queue, line)[0]) < w.nextPacket
  {
    hide Inv;
    AllOlder(w, line);
    assert Waiting(w, line)[0] in Waiting(w, line);
  }

  /** Two sends suffice: the first is refused and queued, the second accepted. */
  lemma SecondOvertakesFirst(tenant: string, recipient: string)
    requires recipient != ""
    ensures var line := Line(tenant, Telegram);
      var w := Run(EMPTY_WORLD, [Op.RegisterAdapter(Telegram), Bind(line, recipient),
        SendPacket(tenant, 10, false, 0), SendPacket(tenant, 10, true, 0)]);
      && w.accepted == [Delivery(line, 1)]
      && Waiting(w, line) == [0] && !InOrder(w, line)
  {
    var line := Line(tenant, Telegram);
    var ready := EMPTY_WORLD.(adapters := {Telegram}, recipients := map[line := recipient]);
    var first, second := SendPacket(tenant, 10, false, 0), SendPacket(tenant, 10, true, 0);
    var ops := [Op.RegisterAdapter(Telegram), Bind(line, recipient), first, second];
    assert Step(Step(EMPTY_WORLD, ops[0]), ops[1]) == ready;
    var held := Step(ready, first);
    HeldAfterRefusal(tenant, recipient);
    assert ops[1..][1..] == [first, second] && [first, second][1..] == [second];
    assert Run(EMPTY_WORLD, ops) == Run(Step(EMPTY_WORLD, ops[0]), ops[1..]) == Run(ready, [first, second]);
    assert Run(ready, [first, second]) == Run(held, [second]) == Step(held, second);
    assert TakenOn([Delivery(line, 1)], line) == [1];
    assert ([1] + [0])[0] == 1 && ([1] + [0])[1] == 0;
  }

  lemma HeldAfterRefusal(tenant: string, recipient: string)
    requires recipient != ""
    ensures var line := Line(tenant, Telegram);
      var ready := EMPTY_WORLD.(adapters := {Telegram}, recipients := map[line := recipient]);
      var held := Step(ready, SendPacket(tenant, 10, false, 0));
      && held.accepted == [] && held.nextPacket == 1 && Waiting(held, line) == [0] && OnLine(held.queue, line) != []
      && held.adapters == ready.adapters && held.recipients == ready.recipients && held.status == ready.status
  {
    var line := Line(tenant, Telegram);
    var ready := EMPTY_WORLD.(adapters := {Telegram}, recipients := map[line := recipient]);
    var v := Create(ready, tenant, 10);
    var x := NextItem(v, 0, line, 0);
    assert OnLine([], line) == [];
    assert OnLine([x], line) == [x] + OnLine([x][1..], line);
    assert MakeRoom(v, line) == v;
    var held := Enqueue(v, 0, line, 0);
    assert Step(ready, SendPacket(tenant, 10, false, 0)) == held;
    assert held.queue == [] + [x] == [x];
    assert Waiting(held, line) == [PacketOf(x)] == [0];
  }

  // ----- The object

  class Gateway {
    const store: QueueStore
    var packets: map<nat, Packet>
    var nextPacket: nat
    var now: int
    var tenantStatus: map<Line, SessionStatus>
    var adapters: set<Channel>
    var recipients: map<Line, string>
    ghost var accepted: seq<Delivery>
    ghost var overflowed: multiset<nat>
    ghost var expired: multiset<nat>

    ghost function State(): World
      reads this, store
    {
      World(packets, nextPacket, store.Contents(), store.queueSeq, now, tenantStatus, adapters, recipients,
        accepted, overflowed, expired)
    }

    ghost predicate Valid()
      reads this, store
    {
      store.Valid() && forall x :: x in store.Contents() ==> x.entry.enqueuedAt <= now
    }

    constructor ()
      ensures Valid() && fresh(store) && State() == EMPTY_WORLD
    {
      store := new QueueStore();
      packets, nextPacket, now := map[], 0, 0;
      tenantStatus, adapters, recipients := map[], {}, map[];
      accepted, overflowed, expired := [], multiset{}, multiset{};
    }

    method RegisterAdapter(channel: Channel)
      requires Valid()
      modifies this`adapters
      ensures Valid() && State() == Step(old(State()), Op.RegisterAdapter(channel))
    {
      adapters := adapters + {channel};
    }

    method BindChannel(line: Line, recipient: string)
      requires Valid()
      modifies this`recipients
      ensures Valid() && State() == Step(old(State()), Op.Bind(line, recipient))
    {
      recipients := recipients[line := recipient];
    }

    method DeliverPacket(p: nat, line: Line, accept: bool) returns (ok: bool)
      requires Valid() && p in packets
      modifies this
      ensures Valid() && ok == GoesThrough(old(State()), line, accept)
      ensures State() == if ok then Deliver(old(State()), p, line) else old(State())
    {
      if line.channel in adapters {
        if line !in recipients {
          return false;
        }
        if recipients[line] == "" {
          return false;
        }
        if !accept {
          return false;
        }
        accepted := accepted + [Delivery(line, p)];
      }
      packets := packets[p := packets[p].(delivered := true)];
      return true;
    }

    method TombstoneOldest(line: Line)
      requires Valid()
      modifies this, store
      ensures Valid() && State() == MakeRoom(old(State()), line)
    {
      var depth := store.OutboundQueueDepth(line);
      if depth >= OUTBOUND_QUEUE_MAX {
        ghost var q := OnLine(store.Contents(), line);
        WithoutElements(store.Contents(), q[0].id);
        var tombstone := store.DeleteOldestOutboundQueueEntry(line);
        overflowed := overflowed + multiset{q[0].entry.packet};
      }
    }

    method EnqueuePacket(p: nat, line: Line, wait: nat)
      requires Valid()
      modifies this, store
      ensures Valid() && State() == Enqueue(old(State()), p, line, wait)
    {
      TombstoneOldest(line);
      now := now + 1 + wait;
      store.EnqueueOutbound(Entry(line, p, now));
    }

    /** The part of SendApprovalPacket after the packet is stored and its line chosen. */
    method DispatchPacket(p: nat, line: Line, accept: bool, wait: nat)
      requires Valid() && p in packets
      modifies this, store
      ensures Valid() && State() == Dispatch(old(State()), p, line, accept, wait)
    {
      if line in recipients && recipients[line] == "" {
        EnqueuePacket(p, line, wait);
        return;
      }
      var ready := CanDeliver(line);
      if ready {
        var sent := DeliverPacket(p, line, accept);
        if sent {
          return;
        }
      }
      EnqueuePacket(p, line, wait);
    }

    method SendApprovalPacket(tenant: string, expiresAt: int, accept: bool, wait: nat) returns (p: nat)
      requires Valid()
      modifies this, store
      ensures Valid() && p == old(nextPacket)
      ensures State() == Step(old(State()), SendPacket(tenant, expiresAt, accept, wait))
    {
      p := nextPacket;
      packets, nextPacket := packets[p := Packet(tenant, expiresAt, false)], nextPacket + 1;
      assert State() == Create(old(State()), tenant, expiresAt);
      var channel := ChooseChannel(tenant);
      DispatchPacket(p, Line(tenant, channel), accept, wait);
    }

    method ChooseChannel(tenant: string) returns (channel: Channel)
      ensures channel == PreferredChannel(State(), tenant)
    {
      if WhatsApp in adapters {
        if Line(tenant, WhatsApp) in recipients {
          return WhatsApp;
        }
      }
      return Telegram;
    }

    method CanDeliver(line: Line) returns (ready: bool)
      ensures ready == CanDeliverNow(State(), line)
    {
      var status := if line in tenantStatus then tenantStatus[line] else Unknown;
      if status == Unknown {
        return line.channel == Telegram;
      }
      return status == Active;
    }

    method DropEntry(x: Item)
      requires Valid()
      modifies store
      ensures Valid() && State() == Drop(old(State()), x)
    {
      WithoutElements(store.Contents(), x.id);
      store.DeleteOutboundQueueEntry(x.id);
    }

    method ReplayEntry(x: Item, line: Line, env: Surroundings) returns (ok: bool)
      requires Valid()
      modifies this, store
      ensures Valid() && (State(), ok) == ReplayItem(old(State()), x, line, env)
    {
      var p := x.entry.packet;
      if p !in packets || packets[p].tenant != line.tenant {
        DropEntry(x);
        return true;
      }
      if env.clock(p) > packets[p].expiresAt {
        DropEntry(x);
        expired := expired + multiset{p};
        return true;
      }
      ok := DeliverPacket(p, line, env.accepts(p));
      if ok {
        DropEntry(x);
      }
    }

    /** The loop of drainQueue over a snapshot of the line. */
    method DrainEntries(line: Line, env: Surroundings) returns (ok: bool)
      requires Valid()
      modifies this, store
      ensures Valid() && (State(), ok) == Drain(old(State()), line, env)
    {
      var entries := store.ListOutboundQueue(line);
      var n := 0;
      while n < |entries|
        invariant 0 <= n <= |entries|
        invariant Valid()
        invariant DrainItems(State(), entries[n..], line, env) == Drain(old(State()), line, env)
      {
        assert entries[n..][1..] == entries[n + 1..];
        var sent := ReplayEntry(entries[n], line, env);
        if !sent {
          return false;
        }
        n := n + 1;
      }
      return true;
    }

    method DrainQueue(line: Line, env: Surroundings)
      requires Valid()
      modifies this, store
      ensures Valid() && State() == Step(old(State()), DrainLine(line, env))
    {
      var ready := CanDeliver(line);
      if !ready {
        return;
      }
      var ok := DrainEntries(line, env);
    }

    method NotifySessionStatus(line: Line, status: SessionStatus, env: Surroundings)
      requires Valid()
      modifies this, store
      ensures Valid() && State() == Step(old(State()), NotifyStatus(line, status, env))
    {
      var prev := if line in tenantStatus then tenantStatus[line] else Unknown;
      tenantStatus := tenantStatus[line := status];
      if status == Active && prev != Active {
        var ok := DrainEntries(line, env);
      }
    }
  }
}
