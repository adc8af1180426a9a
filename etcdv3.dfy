/**
 * The etcd v3 registry of plugins/register/etcdv3/etcdv3.go: option defaults, the key
 * layout, registration with its renewal tick (check the key, re-create it if missing),
 * unregistration, and the resolver's watch loop that folds PUT and DELETE events into
 * the published address list.
 *
 * etcd itself is outside the model: the store is a value (key -> value and lease), and
 * what etcd answers to each request of a tick is an input (Replies). JSON encoding and
 * decoding of a Node are inputs too (Marshal, Decoder).
 */
module EtcdV3 {
  import opened Base
  import opened Register

  const Namespace := "microkit/services/"
  const DefaultEtcdAddr := "127.0.0.1:2379"
  const DefaultTTL := 10

  // ---------------------------------------------------------------------------
  // configure

  /** The defaults `configure` fills in after the options have run. */
  function WithDefaults(o: RegisterOptions): (r: RegisterOptions)
    ensures |r.addrs| > 0 && r.ttl > 0
    ensures |o.addrs| > 0 ==> r.addrs == o.addrs
    ensures |o.addrs| == 0 ==> r.addrs == [DefaultEtcdAddr]
    ensures o.ttl > 0 ==> r.ttl == o.ttl
    ensures o.ttl <= 0 ==> r.ttl == DefaultTTL
    ensures r.(addrs := o.addrs, ttl := o.ttl) == o
  {
    var withAddrs := if |o.addrs| == 0 then o.(addrs := o.addrs + [DefaultEtcdAddr]) else o;
    if withAddrs.ttl <= 0 then withAddrs.(ttl := DefaultTTL) else withAddrs
  }

  /** Filling in the defaults a second time changes nothing. */
  lemma WithDefaultsIdempotent(o: RegisterOptions)
    ensures WithDefaults(WithDefaults(o)) == WithDefaults(o)
  {
  }

  // ---------------------------------------------------------------------------
  // key layout

  /** The prefix the resolver watches for service `name`. */
  function WatchPrefix(name: string): string
  {
    Namespace + name + "/"
  }

  /**
   * `keyPrefix`: the watch prefix for nil, otherwise the node's registration key
   * `microkit/services/{Name}/{Id}`.
   */
  function KeyPrefix(o: RegisterOptions, n: Option<Node>): (k: string)
    ensures n.None? ==> k == "microkit/services/" + o.name + "/"
    ensures WatchPrefix(o.name) <= k
    ensures n.Some? ==> k[|WatchPrefix(o.name)|..] == n.value.id
  {
    if n.None? then Namespace + o.name + "/" else Namespace + o.name + "/" + n.value.id
  }

  /** Only the service name and the node id enter the key; the schema never does. */
  lemma KeyIgnoresSchema(o: RegisterOptions, schema: string, n: Option<Node>)
    ensures KeyPrefix(o.(schema := schema), n) == KeyPrefix(o, n)
  {
  }

  /** Within one service, two nodes share a registration key exactly when they share an id. */
  lemma KeyIdentifiesNode(o: RegisterOptions, a: Node, b: Node)
    ensures KeyPrefix(o, Some(a)) == KeyPrefix(o, Some(b)) <==> a.id == b.id
  {
    var p := WatchPrefix(o.name);
    if KeyPrefix(o, Some(a)) == KeyPrefix(o, Some(b)) {
      assert a.id == KeyPrefix(o, Some(a))[|p|..];
    }
  }

  /** A prefix agrees with the sequence it starts. */
  lemma PrefixAgrees(p: string, s: string, i: nat)
    requires p <= s && i < |p|
    ensures s[i] == p[i]
  {
  }

  /**
   * For service names without '/', the prefix a resolver for service `a` watches covers
   * the key of a node of service `o.name` exactly when the two names are equal.
   */
  lemma WatchPrefixSelectsService(o: RegisterOptions, a: string, n: Node)
    requires '/' !in a && '/' !in o.name
    ensures WatchPrefix(a) <= KeyPrefix(o, Some(n)) <==> a == o.name
  {
    var k := KeyPrefix(o, Some(n));
    var w := WatchPrefix(a);
    var b := o.name;
    var m := |Namespace|;
    assert k == Namespace + b + "/" + n.id;
    if w <= k {
      if |a| < |b| {
        PrefixAgrees(w, k, m + |a|);
        assert false;
      } else if |a| > |b| {
        PrefixAgrees(w, k, m + |b|);
        assert false;
      } else {
        assert a == w[m..m + |a|];
        assert b == k[m..m + |b|];
      }
    }
  }

  /**
   * Without the '/' restriction the prefix does not separate services: the resolver for
   * service `a` also covers the keys of every node of service `a + "/" + rest`.
   */
  lemma WatchPrefixCoversNestedService(o: RegisterOptions, a: string, rest: string, n: Node)
    requires o.name == a + "/" + rest
    ensures WatchPrefix(a) <= KeyPrefix(o, Some(n))
  {
    assert KeyPrefix(o, Some(n)) == WatchPrefix(a) + (rest + "/" + n.id);
  }

  // ---------------------------------------------------------------------------
  // renewal against an abstract store

  /** A stored value and the lease it is bound to. */
  datatype Entry = Entry(value: string, lease: nat)

  type Store = map<string, Entry>

  /** The requests a tick sends to etcd. */
  datatype StoreCall = Get(key: string) | Grant(ttl: int) | Put(key: string, value: string, lease: nat) | KeepAlive(lease: nat)

  /** What etcd answers in one tick: an error for Get, Put and KeepAlive, or a lease id for Grant. */
  datatype Replies = Replies(get: Option<Error>, grant: Result<nat>, put: Option<Error>, keepAlive: Option<Error>)

  /** json.Marshal of a node. */
  type Marshal = Node -> Result<string>

  /** The requests sent, the store afterwards and the error returned. */
  datatype Attempt = Attempt(calls: seq<StoreCall>, store: Store, err: Option<Error>)

  /** The first failing step, in the order Grant, Marshal, Put, KeepAlive. */
  function FirstFailure(grant: Result<nat>, encoded: Result<string>, put: Option<Error>, keepAlive: Option<Error>): Option<Error>
  {
    if grant.Err? then Some(grant.error)
    else if encoded.Err? then Some(encoded.error)
    else if put.Some? then put
    else keepAlive
  }

  /** `withAlive`: grant a lease, marshal the node, put it under the lease, start keep-alive. */
  function WithAlive(store: Store, key: string, ttl: int, node: Node, marshal: Marshal, r: Replies): (a: Attempt)
    ensures 1 <= |a.calls| <= 3 && a.calls[0] == Grant(ttl)
    ensures forall i :: 0 <= i < |a.calls| && a.calls[i].Put? ==>
              r.grant.Ok? && marshal(node).Ok? && a.calls[i] == Put(key, marshal(node).value, r.grant.value)
    ensures forall i :: 0 <= i < |a.calls| && a.calls[i].KeepAlive? ==>
              0 < i && a.calls[i - 1].Put? && r.put.None? && a.calls[i] == KeepAlive(r.grant.value)
    ensures a.err == FirstFailure(r.grant, marshal(node), r.put, r.keepAlive)
    ensures forall i :: 0 < i < |a.calls| ==> a.calls[i].Put? || a.calls[i].KeepAlive?
    ensures r.grant.Ok? && marshal(node).Ok? ==> |a.calls| >= 2 && a.calls[1].Put?
    ensures r.grant.Ok? && marshal(node).Ok? && r.put.None? ==> |a.calls| == 3 && a.calls[2].KeepAlive?
    ensures a.store == if r.grant.Ok? && marshal(node).Ok? && r.put.None?
                       then store[key := Entry(marshal(node).value, r.grant.value)]
                       else store
  {
    match r.grant
    case Err(e) => Attempt([Grant(ttl)], store, Some(e))
    case Ok(lease) =>
      match marshal(node)
      case Err(e) => Attempt([Grant(ttl)], store, Some(e))
      case Ok(value) =>
        if r.put.Some? then Attempt([Grant(ttl), Put(key, value, lease)], store, r.put)
        else
          var written := store[key := Entry(value, lease)];
          Attempt([Grant(ttl), Put(key, value, lease), KeepAlive(lease)], written, r.keepAlive)
  }

  /** The requests sent, the store afterwards and the warning logged by one tick. */
  datatype Tick = Tick(calls: seq<StoreCall>, store: Store, warning: Option<Error>)

  /**
   * One iteration of the renewal goroutine: Get the key; on an error only warn; if the key
   * is missing (Count == 0) run withAlive and warn on its error; if present do nothing.
   */
  function RenewTick(store: Store, key: string, ttl: int, node: Node, marshal: Marshal, r: Replies): (t: Tick)
    ensures |t.calls| >= 1 && t.calls[0] == Get(key)
    ensures |t.calls| > 1 <==> r.get.None? && key !in store
    ensures r.get.Some? ==> t.store == store && t.calls == [Get(key)] && t.warning == r.get
    ensures r.get.None? && key in store ==> t.store == store && t.calls == [Get(key)] && t.warning.None?
    ensures r.get.None? && key !in store ==>
              var a := WithAlive(store, key, ttl, node, marshal, r);
              t.calls == [Get(key)] + a.calls && t.store == a.store && t.warning == a.err
    ensures forall k :: k != key ==> (k in t.store <==> k in store) && (k in store ==> t.store[k] == store[k])
  {
    if r.get.Some? then Tick([Get(key)], store, r.get)
    else
      var count := if key in store then 1 else 0;
      if count == 0 then
        var a := WithAlive(store, key, ttl, node, marshal, r);
        Tick([Get(key)] + a.calls, a.store, a.err)
      else Tick([Get(key)], store, None)
  }

  /**
   * Repair: a tick that finds the key missing and whose Grant, Marshal and Put succeed
   * leaves the key present with the marshalled node under the granted lease.
   */
  lemma TickRestoresMissingKey(store: Store, key: string, ttl: int, node: Node, marshal: Marshal, r: Replies)
    requires key !in store && r.get.None? && r.grant.Ok? && marshal(node).Ok? && r.put.None?
    ensures var t := RenewTick(store, key, ttl, node, marshal, r);
            key in t.store && t.store[key] == Entry(marshal(node).value, r.grant.value)
  {
  }

  /**
   * A registered node whose key is deleted from outside reappears after the next tick
   * with the same content, under the lease of that tick's Grant.
   */
  lemma ExternalDeletionRepaired(store: Store, key: string, ttl: int, node: Node, marshal: Marshal, r1: Replies, r2: Replies)
    requires key !in store && marshal(node).Ok?
    requires r1.get.None? && r1.grant.Ok? && r1.put.None?
    requires r2.get.None? && r2.grant.Ok? && r2.put.None?
    ensures var first := RenewTick(store, key, ttl, node, marshal, r1);
            var second := RenewTick(first.store - {key}, key, ttl, node, marshal, r2);
            key in second.store && second.store[key].value == first.store[key].value
            && second.store[key].lease == r2.grant.value
  {
  }

  // ---------------------------------------------------------------------------
  // the watch loop

  datatype EventType = PUT | DELETE

  datatype KeyValue = KeyValue(key: string, value: string)

  datatype Event = Event(typ: EventType, kv: KeyValue)

  /** json.Unmarshal into a fresh Node: the node as far as it was filled, and the error. */
  datatype Decoded = Decoded(node: Node, err: Option<Error>)

  type Decoder = string -> Decoded

  predicate Contains(l: seq<Address>, addr: string)
  {
    exists i :: 0 <= i < |l| && l[i].addr == addr
  }

  predicate NoDuplicates(l: seq<Address>)
  {
    forall i, j :: 0 <= i < j < |l| ==> l[i].addr != l[j].addr
  }

  /** The index of the first address equal to `addr`. */
  function FirstIndex(l: seq<Address>, addr: string): (i: nat)
    requires Contains(l, addr)
    ensures i < |l| && l[i].addr == addr
    ensures forall j :: 0 <= j < i ==> l[j].addr != addr
  {
    if l[0].addr == addr then 0
    else
      assert Contains(l[1..], addr) by {
        var k :| 0 <= k < |l| && l[k].addr == addr;
        assert l[1..][k - 1].addr == addr;
      }
      1 + FirstIndex(l[1..], addr)
  }

  /** What `remove` leaves: slot i receives the last element and the slice loses its last slot. */
  function SwapRemove(l: seq<Address>, i: nat): (r: seq<Address>)
    requires i < |l|
    ensures |r| == |l| - 1
    ensures i < |r| ==> r[i] == l[|l| - 1]
    ensures forall j :: 0 <= j < |r| && j != i ==> r[j] == l[j]
  {
    l[i := l[|l| - 1]][..|l| - 1]
  }

  /** Swap-remove takes exactly one occurrence of l[i] out of the list. */
  lemma SwapRemovePermutes(l: seq<Address>, i: nat)
    requires i < |l|
    ensures multiset(SwapRemove(l, i)) + multiset{l[i]} == multiset(l)
  {
    var last := |l| - 1;
    var r := SwapRemove(l, i);
    assert l == l[..last] + [l[last]];
    if i < last {
      assert r == l[..last][i := l[last]];
    } else {
      assert r == l[..last];
    }
  }

  /** Addresses other than the removed one keep their membership. */
  lemma SwapRemoveKeepsOthers(l: seq<Address>, i: nat, b: string)
    requires i < |l| && b != l[i].addr
    ensures Contains(SwapRemove(l, i), b) <==> Contains(l, b)
  {
    var r := SwapRemove(l, i);
    if Contains(l, b) {
      var k :| 0 <= k < |l| && l[k].addr == b;
      if k < |r| {
        assert r[k] == l[k];
      } else {
        assert r[i] == l[k];
      }
    }
    if Contains(r, b) {
      var k :| 0 <= k < |r| && r[k].addr == b;
      if k == i {
        assert l[|l| - 1].addr == b;
      } else {
        assert l[k].addr == b;
      }
    }
  }

  /** On a duplicate-free list, swap-remove leaves a duplicate-free list without the removed address. */
  lemma SwapRemoveNoDuplicates(l: seq<Address>, i: nat)
    requires i < |l| && NoDuplicates(l)
    ensures NoDuplicates(SwapRemove(l, i))
    ensures !Contains(SwapRemove(l, i), l[i].addr)
  {
    var r := SwapRemove(l, i);
    forall p, q | 0 <= p < q < |r|
      ensures r[p].addr != r[q].addr
    {
      var p' := if p == i then |l| - 1 else p;
      var q' := if q == i then |l| - 1 else q;
      assert r[p] == l[p'] && r[q] == l[q'];
    }
    forall k | 0 <= k < |r|
      ensures r[k].addr != l[i].addr
    {
      var k' := if k == i then |l| - 1 else k;
      assert r[k] == l[k'];
    }
  }

  /** `exist`: a linear scan for the address. */
  method Exist(l: seq<Address>, addr: string) returns (found: bool)
    ensures found <==> Contains(l, addr)
  {
    var i := 0;
    while i < |l|
      invariant 0 <= i <= |l|
      invariant forall j :: 0 <= j < i ==> l[j].addr != addr
    {
      if l[i].addr == addr {
        return true;
      }
      i := i + 1;
    }
    return false;
  }

  /**
   * `remove`, on the slice's backing array: on a hit, slot i is overwritten with the last
   * element in place and the first length-1 slots are the result, while the last slot keeps
   * its old value; on a miss the result is the nil slice (length 0) and nothing is written.
   */
  method Remove(s: array<Address>, addr: string) returns (n: nat, ok: bool)
    modifies s
    ensures ok <==> Contains(old(s[..]), addr)
    ensures ok ==> n == s.Length - 1 && s[..n] == SwapRemove(old(s[..]), FirstIndex(old(s[..]), addr))
    ensures ok ==> s[..] == old(s[..])[FirstIndex(old(s[..]), addr) := old(s[s.Length - 1])]
    ensures !ok ==> n == 0 && s[..] == old(s[..])
  {
    var i := 0;
    while i < s.Length
      invariant 0 <= i <= s.Length
      invariant forall j :: 0 <= j < i ==> s[j].addr != addr
      invariant s[..] == old(s[..])
    {
      if s[i].addr == addr {
        ghost var before := s[..];
        assert FirstIndex(before, addr) == i;
        s[i] := s[s.Length - 1];
        assert s[..s.Length - 1] == SwapRemove(before, i);
        return s.Length - 1, true;
      }
      i := i + 1;
    }
    return 0, false;
  }

  /**
   * The initial list: one address per key under the prefix, in order, taken from the node
   * `json.Unmarshal` left behind whether or not it reported an error, with no dedupe.
   */
  function Snapshot(kvs: seq<KeyValue>, decode: Decoder): (l: seq<Address>)
    ensures |l| == |kvs|
    ensures forall i :: 0 <= i < |kvs| ==> l[i] == Address(decode(kvs[i].value).node.advertise)
  {
    if kvs == [] then []
    else Snapshot(kvs[..|kvs| - 1], decode) + [Address(decode(kvs[|kvs| - 1].value).node.advertise)]
  }

  /** The list published first: the snapshot, or nothing when the prefix Get failed. */
  function Initial(snapshot: Result<seq<KeyValue>>, decode: Decoder): seq<Address>
  {
    if snapshot.Ok? then Snapshot(snapshot.value, decode) else []
  }

  /** Two keys advertising the same address both enter the initial list. */
  lemma SnapshotKeepsDuplicates(decode: Decoder, k1: string, k2: string, v: string)
    ensures !NoDuplicates(Snapshot([KeyValue(k1, v), KeyValue(k2, v)], decode))
  {
    var l := Snapshot([KeyValue(k1, v), KeyValue(k2, v)], decode);
    assert l[0] == l[1];
  }

  /** A value that fails to decode still contributes the advertise field it left behind. */
  lemma SnapshotKeepsUndecodable(decode: Decoder, kv: KeyValue)
    requires decode(kv.value).err.Some?
    ensures Snapshot([kv], decode) == [Address(decode(kv.value).node.advertise)]
  {
  }

  /** The handled events that make the watch loop publish: a new PUT or a DELETE of a known address. */
  predicate Publishes(l: seq<Address>, ev: Event, decode: Decoder)
  {
    var d := decode(ev.kv.value);
    d.err.None? &&
    ((ev.typ == PUT && !Contains(l, d.node.advertise)) || (ev.typ == DELETE && Contains(l, d.node.advertise)))
  }

  /** How one watch event changes the address list. */
  function Step(l: seq<Address>, ev: Event, decode: Decoder): (r: seq<Address>)
    ensures decode(ev.kv.value).err.Some? ==> r == l
  {
    var d := decode(ev.kv.value);
    if d.err.Some? then l
    else
      var a := d.node.advertise;
      match ev.typ
      case PUT => if Contains(l, a) then l else l + [Address(a)]
      case DELETE => if Contains(l, a) then SwapRemove(l, FirstIndex(l, a)) else l
  }

  /** An event changes the list exactly when the watch loop publishes after it. */
  lemma StepChangesIffPublishes(l: seq<Address>, ev: Event, decode: Decoder)
    ensures Step(l, ev, decode) != l <==> Publishes(l, ev, decode)
  {
    var d := decode(ev.kv.value);
    if d.err.None? && ev.typ == PUT && !Contains(l, d.node.advertise) {
      assert |Step(l, ev, decode)| == |l| + 1;
    }
  }

  /** A PUT makes its address present; on a duplicate-free list a DELETE makes it absent; other addresses keep their membership. */
  lemma StepMembership(l: seq<Address>, ev: Event, decode: Decoder)
    requires decode(ev.kv.value).err.None?
    ensures var a := decode(ev.kv.value).node.advertise;
            var r := Step(l, ev, decode);
            && (ev.typ == PUT ==> Contains(r, a))
            && (ev.typ == DELETE && NoDuplicates(l) ==> !Contains(r, a))
            && (forall b :: b != a ==> (Contains(r, b) <==> Contains(l, b)))
  {
    var a := decode(ev.kv.value).node.advertise;
    var r := Step(l, ev, decode);
    if ev.typ == PUT && !Contains(l, a) {
      assert r[|l|].addr == a;
      forall b | Contains(l, b) ensures Contains(r, b) {
        var k :| 0 <= k < |l| && l[k].addr == b;
        assert r[k] == l[k];
      }
    } else if ev.typ == DELETE && Contains(l, a) {
      var i := FirstIndex(l, a);
      forall b | b != a ensures Contains(r, b) <==> Contains(l, b) {
        SwapRemoveKeepsOthers(l, i, b);
      }
      if NoDuplicates(l) {
        SwapRemoveNoDuplicates(l, i);
      }
    }
  }

  /** An event keeps a duplicate-free list duplicate-free. */
  lemma StepKeepsNoDuplicates(l: seq<Address>, ev: Event, decode: Decoder)
    requires NoDuplicates(l)
    ensures NoDuplicates(Step(l, ev, decode))
  {
    var d := decode(ev.kv.value);
    if d.err.None? {
      var a := d.node.advertise;
      if ev.typ == DELETE && Contains(l, a) {
        SwapRemoveNoDuplicates(l, FirstIndex(l, a));
      } else if ev.typ == PUT && !Contains(l, a) {
        var r := Step(l, ev, decode);
        forall i, j | 0 <= i < j < |r| ensures r[i].addr != r[j].addr {
          if j == |l| {
            assert r[i] == l[i];
          }
        }
      }
    }
  }

  /** The list after the events, applied in order. */
  function ApplyEvents(l: seq<Address>, evs: seq<Event>, decode: Decoder): seq<Address>
  {
    if evs == [] then l else Step(ApplyEvents(l, evs[..|evs| - 1], decode), evs[|evs| - 1], decode)
  }

  /** The lists handed to `cc.NewAddress` after the initial one, one per publishing event. */
  function Publications(l: seq<Address>, evs: seq<Event>, decode: Decoder): seq<seq<Address>>
  {
    if evs == [] then []
    else
      var before := ApplyEvents(l, evs[..|evs| - 1], decode);
      var ev := evs[|evs| - 1];
      Publications(l, evs[..|evs| - 1], decode) + (if Publishes(before, ev, decode) then [Step(before, ev, decode)] else [])
  }

  /** The events of the watch responses, in delivery order. */
  function Flatten(batches: seq<seq<Event>>): seq<Event>
  {
    if batches == [] then [] else Flatten(batches[..|batches| - 1]) + batches[|batches| - 1]
  }

  /** A duplicate-free list stays duplicate-free through any event sequence. */
  lemma {:induction false} ApplyEventsKeepsNoDuplicates(l: seq<Address>, evs: seq<Event>, decode: Decoder)
    requires NoDuplicates(l)
    ensures NoDuplicates(ApplyEvents(l, evs, decode))
  {
    if evs != [] {
      ApplyEventsKeepsNoDuplicates(l, evs[..|evs| - 1], decode);
      StepKeepsNoDuplicates(ApplyEvents(l, evs[..|evs| - 1], decode), evs[|evs| - 1], decode);
    }
  }

  /** The type of the last decodable event about address `a`, if any. */
  function LastEventFor(evs: seq<Event>, a: string, decode: Decoder): Option<EventType>
  {
    if evs == [] then None
    else
      var ev := evs[|evs| - 1];
      var d := decode(ev.kv.value);
      if d.err.None? && d.node.advertise == a then Some(ev.typ) else LastEventFor(evs[..|evs| - 1], a, decode)
  }

  /**
   * Starting from a duplicate-free list, membership of an address after the events is
   * decided by the last decodable event about it; without one it is as before.
   */
  lemma {:induction false} LatestEventDecides(l: seq<Address>, evs: seq<Event>, a: string, decode: Decoder)
    requires NoDuplicates(l)
    ensures var r := ApplyEvents(l, evs, decode);
            && (LastEventFor(evs, a, decode) == Some(PUT) ==> Contains(r, a))
            && (LastEventFor(evs, a, decode) == Some(DELETE) ==> !Contains(r, a))
            && (LastEventFor(evs, a, decode) == None ==> (Contains(r, a) <==> Contains(l, a)))
  {
    if evs != [] {
      var prefix := evs[..|evs| - 1];
      LatestEventDecides(l, prefix, a, decode);
      ApplyEventsKeepsNoDuplicates(l, prefix, decode);
      var ev := evs[|evs| - 1];
      if decode(ev.kv.value).err.None? {
        StepMembership(ApplyEvents(l, prefix, decode), ev, decode);
      }
    }
  }

  /** Every published list of a duplicate-free start is duplicate-free. */
  lemma {:induction false} PublicationsHaveNoDuplicates(l: seq<Address>, evs: seq<Event>, decode: Decoder)
    requires NoDuplicates(l)
    ensures forall p :: p in Publications(l, evs, decode) ==> NoDuplicates(p)
  {
    if evs != [] {
      var prefix := evs[..|evs| - 1];
      PublicationsHaveNoDuplicates(l, prefix, decode);
      ApplyEventsKeepsNoDuplicates(l, prefix, decode);
      StepKeepsNoDuplicates(ApplyEvents(l, prefix, decode), evs[|evs| - 1], decode);
    }
  }

  /** Appending one event applies one more Step and adds its publication, if any. */
  lemma ExtendEvents(l: seq<Address>, evs: seq<Event>, ev: Event, decode: Decoder)
    ensures ApplyEvents(l, evs + [ev], decode) == Step(ApplyEvents(l, evs, decode), ev, decode)
    ensures Publications(l, evs + [ev], decode)
            == Publications(l, evs, decode)
               + (if Publishes(ApplyEvents(l, evs, decode), ev, decode) then [Step(ApplyEvents(l, evs, decode), ev, decode)] else [])
  {
    assert (evs + [ev])[..|evs|] == evs;
  }

  /** A PUT delivered twice leaves its address in the list exactly once and publishes at most once. */
  lemma PutTwiceIsIdempotent(l: seq<Address>, ev: Event, decode: Decoder)
    requires NoDuplicates(l) && ev.typ == PUT && decode(ev.kv.value).err.None?
    ensures var r := ApplyEvents(l, [ev, ev], decode);
            NoDuplicates(r) && Contains(r, decode(ev.kv.value).node.advertise)
            && ApplyEvents(l, [ev], decode) == r
            && |Publications(l, [ev, ev], decode)| <= 1
  {
    ExtendEvents(l, [], ev, decode);
    ExtendEvents(l, [ev], ev, decode);
    assert [] + [ev] == [ev] && [ev] + [ev] == [ev, ev];
    var once := Step(l, ev, decode);
    StepMembership(l, ev, decode);
    StepKeepsNoDuplicates(l, ev, decode);
    StepChangesIffPublishes(once, ev, decode);
    assert !Publishes(once, ev, decode);
  }

  /** PUT(A) then DELETE(A) leaves A out of the list, and a second DELETE(A) changes and publishes nothing. */
  lemma PutThenDeleteRemoves(l: seq<Address>, put: Event, del: Event, decode: Decoder)
    requires NoDuplicates(l) && put.typ == PUT && del.typ == DELETE
    requires decode(put.kv.value).err.None? && decode(del.kv.value).err.None?
    requires decode(put.kv.value).node.advertise == decode(del.kv.value).node.advertise
    ensures !Contains(ApplyEvents(l, [put, del], decode), decode(del.kv.value).node.advertise)
    ensures ApplyEvents(l, [put, del, del], decode) == ApplyEvents(l, [put, del], decode)
    ensures Publications(l, [put, del, del], decode) == Publications(l, [put, del], decode)
  {
    ExtendEvents(l, [], put, decode);
    ExtendEvents(l, [put], del, decode);
    ExtendEvents(l, [put, del], del, decode);
    assert [] + [put] == [put] && [put] + [del] == [put, del] && [put, del] + [del] == [put, del, del];
    var afterPut := Step(l, put, decode);
    StepKeepsNoDuplicates(l, put, decode);
    var afterDel := Step(afterPut, del, decode);
    StepMembership(afterPut, del, decode);
    StepChangesIffPublishes(afterDel, del, decode);
    assert !Publishes(afterDel, del, decode);
  }

  /** The first loop of `watch`: one address per key of the Get response. */
  method ReadSnapshot(kvs: seq<KeyValue>, decode: Decoder) returns (addrList: seq<Address>)
    ensures addrList == Snapshot(kvs, decode)
  {
    addrList := [];
    var k := 0;
    while k < |kvs|
      invariant 0 <= k <= |kvs|
      invariant addrList == Snapshot(kvs[..k], decode)
    {
      var sn := decode(kvs[k].value);
      assert kvs[..k + 1][..k] == kvs[..k];
      addrList := addrList + [Address(sn.node.advertise)];
      k := k + 1;
    }
    assert kvs[..|kvs|] == kvs;
  }

  /**
   * The body of the event loop of `watch`: skip an undecodable event, append on a PUT of
   * a new address, swap-remove on a DELETE of a known one; `changed` says whether the
   * list is to be published.
   */
  method HandleEvent(addrList: seq<Address>, ev: Event, decode: Decoder) returns (next: seq<Address>, changed: bool)
    ensures next == Step(addrList, ev, decode)
    ensures changed <==> Publishes(addrList, ev, decode)
  {
    StepChangesIffPublishes(addrList, ev, decode);
    next, changed := addrList, false;
    var sn := decode(ev.kv.value);
    if sn.err.Some? {
      return;
    }
    var addr := sn.node.advertise;
    match ev.typ
    case PUT =>
      var found := Exist(addrList, addr);
      if !found {
        next, changed := addrList + [Address(addr)], true;
      }
    case DELETE =>
      var arr := new Address[|addrList|](i requires 0 <= i < |addrList| => addrList[i]);
      assert arr[..] == addrList;
      var n, ok := Remove(arr, addr);
      if ok {
        next, changed := arr[..n], true;
      }
  }

  /** Flattening one more batch appends its events. */
  lemma ExtendBatches(batches: seq<seq<Event>>, b: nat)
    requires b < |batches|
    ensures Flatten(batches[..b + 1]) == Flatten(batches[..b]) + batches[b]
  {
    assert batches[..b + 1][..b] == batches[..b];
  }

  /** Applying two event sequences one after the other is applying their concatenation. */
  lemma {:induction false} ApplyEventsConcat(l: seq<Address>, xs: seq<Event>, ys: seq<Event>, decode: Decoder)
    ensures ApplyEvents(l, xs + ys, decode) == ApplyEvents(ApplyEvents(l, xs, decode), ys, decode)
    ensures Publications(l, xs + ys, decode)
            == Publications(l, xs, decode) + Publications(ApplyEvents(l, xs, decode), ys, decode)
  {
    if ys == [] {
      assert xs + ys == xs;
    } else {
      var init := ys[..|ys| - 1];
      var ev := ys[|ys| - 1];
      assert xs + ys == (xs + init) + [ev];
      assert ys == init + [ev];
      ApplyEventsConcat(l, xs, init, decode);
      ExtendEvents(l, xs + init, ev, decode);
      ExtendEvents(ApplyEvents(l, xs, decode), init, ev, decode);
    }
  }

  /** The inner loop of `watch`: the events of one watch response, in order. */
  method HandleResponse(addrList: seq<Address>, events: seq<Event>, decode: Decoder)
    returns (next: seq<Address>, published: seq<seq<Address>>)
    ensures next == ApplyEvents(addrList, events, decode)
    ensures published == Publications(addrList, events, decode)
  {
    next, published := addrList, [];
    var e := 0;
    while e < |events|
      invariant 0 <= e <= |events|
      invariant next == ApplyEvents(addrList, events[..e], decode)
      invariant published == Publications(addrList, events[..e], decode)
    {
      assert events[..e + 1] == events[..e] + [events[e]];
      ExtendEvents(addrList, events[..e], events[e], decode);
      var changed;
      next, changed := HandleEvent(next, events[e], decode);
      if changed {
        published := published + [next];
      }
      e := e + 1;
    }
    assert events[..|events|] == events;
  }

  /** One more watch response: its events are applied to the list the earlier responses left. */
  lemma BatchStep(init: seq<Address>, batches: seq<seq<Event>>, b: nat, decode: Decoder)
    requires b < |batches|
    ensures ApplyEvents(init, Flatten(batches[..b + 1]), decode)
            == ApplyEvents(ApplyEvents(init, Flatten(batches[..b]), decode), batches[b], decode)
    ensures Publications(init, Flatten(batches[..b + 1]), decode)
            == Publications(init, Flatten(batches[..b]), decode)
               + Publications(ApplyEvents(init, Flatten(batches[..b]), decode), batches[b], decode)
  {
    ExtendBatches(batches, b);
    ApplyEventsConcat(init, Flatten(batches[..b]), batches[b], decode);
  }

  /**
   * `watch`: publish the snapshot, then apply each event of each watch response in order,
   * publishing the list after every change.
   */
  method Watch(snapshot: Result<seq<KeyValue>>, batches: seq<seq<Event>>, decode: Decoder)
    returns (addrList: seq<Address>, published: seq<seq<Address>>)
    ensures |published| >= 1 && published[0] == Initial(snapshot, decode)
    ensures addrList == ApplyEvents(published[0], Flatten(batches), decode)
    ensures published[1..] == Publications(published[0], Flatten(batches), decode)
  {
    addrList := [];
    if snapshot.Ok? {
      addrList := ReadSnapshot(snapshot.value, decode);
    }
    var init := addrList;
    var updates: seq<seq<Address>> := [];
    assert batches[..0] == [];
    var b := 0;
    while b < |batches|
      invariant 0 <= b <= |batches|
      invariant addrList == ApplyEvents(init, Flatten(batches[..b]), decode)
      invariant updates == Publications(init, Flatten(batches[..b]), decode)
    {
      BatchStep(init, batches, b, decode);
      var more;
      addrList, more := HandleResponse(addrList, batches[b], decode);
      updates := updates + more;
      b := b + 1;
    }
    assert batches[..|batches|] == batches;
    published := [init] + updates;
    assert published[1..] == updates;
  }

  // ---------------------------------------------------------------------------
  // the registry object

  /** `EtcdV3`: the options, the registered node and its key, and the resolver's ClientConn. */
  class EtcdV3 {
    var options: RegisterOptions
    var srvKey: string
    var node: Option<Node>
    /** The renewal goroutine has been started. */
    var renewing: bool
    var cc: Option<Handle>

    /** `NewRegistry`: fresh zero options, then `configure` (the etcd connection is not modelled). */
    constructor NewRegistry(ops: seq<RegisterOption>)
      ensures options == WithDefaults(ApplyAll(ZeroOptions, ops))
      ensures srvKey == "" && node.None? && !renewing && cc.None?
    {
      options := ZeroOptions;
      srvKey := "";
      node := None;
      renewing := false;
      cc := None;
      new;
      Configure(ops);
    }

    /** `configure`: run the options in order, then fill in the address and TTL defaults. */
    method Configure(ops: seq<RegisterOption>)
      modifies this
      ensures options == WithDefaults(ApplyAll(old(options), ops))
      ensures srvKey == old(srvKey) && node == old(node) && renewing == old(renewing) && cc == old(cc)
    {
      var i := 0;
      while i < |ops|
        invariant 0 <= i <= |ops|
        invariant options == ApplyAll(old(options), ops[..i])
        invariant srvKey == old(srvKey) && node == old(node) && renewing == old(renewing) && cc == old(cc)
      {
        assert ops[..i + 1][..i] == ops[..i];
        options := Apply(options, ops[i]);
        i := i + 1;
      }
      assert ops[..|ops|] == ops;
      if |options.addrs| == 0 {
        options := options.(addrs := options.addrs + [DefaultEtcdAddr]);
      }
      if options.ttl <= 0 {
        options := options.(ttl := DefaultTTL);
      }
    }

    /**
     * `Register`: a nil node is refused and nothing changes; otherwise the node and its
     * key are stored and the renewal goroutine is started.
     */
    method Register(n: Option<Node>) returns (err: Option<Error>)
      modifies this
      ensures options == old(options) && cc == old(cc)
      ensures n.None? ==> err.Some? && node == old(node) && srvKey == old(srvKey) && renewing == old(renewing)
      ensures n.Some? ==> err.None? && node == n && srvKey == KeyPrefix(options, n) && renewing
    {
      if n.None? {
        return Some(Other("register node must not be nil"));
      }
      node := n;
      srvKey := KeyPrefix(options, n);
      renewing := true;
      return None;
    }

    /** The tick the renewal goroutine runs, on the key and node `Register` stored. */
    function RenewalTick(store: Store, marshal: Marshal, r: Replies): (t: Tick)
      reads this
      requires node.Some?
      ensures |t.calls| >= 1 && t.calls[0] == Get(srvKey)
      ensures srvKey in store ==> t.store == store
    {
      RenewTick(store, srvKey, options.ttl, node.value, marshal, r)
    }

    /**
     * `UnRegister`: delete the key stored by `Register`, whatever node is passed, and return
     * the Delete error. The store keeps the key when Delete fails.
     */
    function UnRegister(n: Option<Node>, store: Store, deleteErr: Option<Error>): (r: (Option<Error>, Store))
      reads this
      ensures r.0 == deleteErr
      ensures deleteErr.None? ==> srvKey !in r.1 && r.1 == store - {srvKey}
      ensures deleteErr.Some? ==> r.1 == store
    {
      if deleteErr.None? then (None, store - {srvKey}) else (deleteErr, store)
    }

    /** `Scheme`: the configured schema, or "default". */
    function Scheme(): (s: string)
      reads this
      ensures s != ""
      ensures options.schema != "" ==> s == options.schema
      ensures options.schema == "" ==> s == "default"
    {
      SchemeOf(options.schema)
    }

    /** `GetResolver`: the registry itself. */
    function GetResolver(): (r: EtcdV3)
      ensures r == this
    {
      this
    }

    /** `GetBuilder`: the registry itself. */
    function GetBuilder(): (r: EtcdV3)
      ensures r == this
    {
      this
    }

    /** `Build`: remember the ClientConn and start watching the service's prefix. */
    method Build(conn: Handle) returns (r: EtcdV3, err: Option<Error>, watched: string)
      modifies this`cc
      ensures cc == Some(conn) && r == this && err.None?
      ensures watched == KeyPrefix(options, None)
    {
      cc := Some(conn);
      return this, None, KeyPrefix(options, None);
    }
  }
}
