/** The notification registry (src/notify/registry.cpp): two indexes of one subscription relation, a table of watching
    streams, and Publish as a locked snapshot followed by unlocked writes. */
module NotifyRegistry {
  import opened Common
  import opened ChannelKeys

  /** A stream writer; the source's null pointer is `None`. */
  type Writer = nat
  type Index = map<string, set<string>>
  type Watchers = map<string, seq<Writer>>

  datatype Message = Message(channel: string, payload: string)

  // ----- One index -----

  predicate Has(index: Index, a: string, b: string) {
    a in index && b in index[a]
  }

  /** No empty set is stored. */
  predicate NoEmpty(index: Index) {
    forall a :: a in index ==> index[a] != {}
  }

  ghost predicate Inverse(subscriptions: Index, clientKeys: Index) {
    forall c, k :: Has(subscriptions, k, c) <==> Has(clientKeys, c, k)
  }

  /** The relation an index of subscribers by key stands for: the pairs (client, key). */
  function Pairs(subscriptions: Index): (r: set<(string, string)>)
    ensures forall c, k :: (c, k) in r <==> Has(subscriptions, k, c)
  {
    set k, c | k in subscriptions && c in subscriptions[k] :: (c, k)
  }

  /** The relation fixes both indexes: nothing else is stored in them. */
  lemma RelationFixesIndexes(s1: Index, k1: Index, s2: Index, k2: Index)
    requires NoEmpty(s1) && NoEmpty(k1) && Inverse(s1, k1) && NoEmpty(s2) && NoEmpty(k2) && Inverse(s2, k2)
    requires Pairs(s1) == Pairs(s2)
    ensures s1 == s2 && k1 == k2
  {
    forall c, k ensures (Has(s1, k, c) <==> Has(s2, k, c)) && (Has(k1, c, k) <==> Has(k2, c, k)) {
      assert (c, k) in Pairs(s1) <==> (c, k) in Pairs(s2);
    }
    hide Pairs;
    IndexFixed(s1, s2);
    IndexFixed(k1, k2);
  }

  lemma IndexFixed(m1: Index, m2: Index)
    requires NoEmpty(m1) && NoEmpty(m2) && forall a, b :: Has(m1, a, b) <==> Has(m2, a, b)
    ensures m1 == m2
  {
    forall a | a in m1 ensures a in m2 && m1[a] == m2[a] {
      var b :| b in m1[a];
      assert Has(m1, a, b) && Has(m2, a, b);
      forall b ensures b in m1[a] <==> b in m2[a] { assert Has(m1, a, b) <==> Has(m2, a, b); }
    }
    forall a | a in m2 ensures a in m1 {
      var b :| b in m2[a];
      assert Has(m2, a, b) && Has(m1, a, b);
    }
  }

  function Added(index: Index, a: string, b: string): (r: Index)
    ensures forall x, y :: Has(r, x, y) <==> Has(index, x, y) || (x == a && y == b)
    ensures NoEmpty(index) ==> NoEmpty(r)
  {
    index[a := (if a in index then index[a] else {}) + {b}]
  }

  function Removed(index: Index, a: string, b: string): (r: Index)
    ensures forall x, y :: Has(r, x, y) <==> Has(index, x, y) && !(x == a && y == b)
    ensures NoEmpty(index) ==> NoEmpty(r)
  {
    if a !in index then index
    else if index[a] - {b} == {} then assert forall y :: y in index[a] ==> y == b || y in index[a] - {b}; index - {a}
    else index[a := index[a] - {b}]
  }

  // ----- The registry as a relation -----

  /** What the registry means: which client is subscribed to which key, and who watches. */
  datatype Registry = Registry(pairs: set<(string, string)>, watchers: Watchers)

  predicate Accepts(client: string, channel: string) {
    client != "" && channel != ""
  }

  function Subscribed(r: Registry, client: string, channel: string, scope: string): Registry {
    if Accepts(client, channel) then r.(pairs := r.pairs + {(client, ChannelKey(channel, scope))}) else r
  }

  function Unsubscribed(r: Registry, client: string, channel: string, scope: string): Registry {
    if Accepts(client, channel) then r.(pairs := r.pairs - {(client, ChannelKey(channel, scope))}) else r
  }

  /** Exactly the pairs of the client go; the empty client id is refused, and never has any. */
  function UnsubscribedAll(r: Registry, client: string): Registry {
    if client == "" then r else r.(pairs := set p | p in r.pairs && p.0 != client)
  }

  function Streams(watchers: Watchers, client: string): seq<Writer> {
    if client in watchers then watchers[client] else []
  }

  function WithStreams(watchers: Watchers, client: string, streams: seq<Writer>): Watchers {
    if streams == [] then watchers - {client} else watchers[client := streams]
  }

  function Without(streams: seq<Writer>, writer: Writer): seq<Writer> {
    if streams == [] then []
    else (if streams[0] == writer then [] else [streams[0]]) + Without(streams[1..], writer)
  }

  /** Every occurrence goes, and nothing else. */
  lemma {:induction false} WithoutCounts(streams: seq<Writer>, writer: Writer)
    ensures multiset(Without(streams, writer)) == multiset(streams)[writer := 0]
  {
    if streams != [] {
      WithoutCounts(streams[1..], writer);
      assert streams == [streams[0]] + streams[1..];
      assert Without(streams, writer) == (if streams[0] == writer then [] else [streams[0]]) + Without(streams[1..], writer);
      hide Without;
    }
  }

  function Watched(r: Registry, client: string, writer: Option<Writer>): Registry {
    if client == "" || writer.None? then r
    else r.(watchers := WithStreams(r.watchers, client, Streams(r.watchers, client) + [writer.value]))
  }

  function Unwatched(r: Registry, client: string, writer: Option<Writer>): Registry {
    if client == "" || writer.None? then r
    else r.(watchers := WithStreams(r.watchers, client, Without(Streams(r.watchers, client), writer.value)))
  }

  ghost predicate IsSubscriber(r: Registry, client: string, key: string) {
    (client, key) in r.pairs
  }

  ghost predicate Distinct(order: seq<string>) {
    forall i, j :: 0 <= i < j < |order| ==> order[i] != order[j]
  }

  /** `order` lists each subscriber of the key once: an order in which the hash set may be walked. */
  ghost predicate Enumerates(r: Registry, key: string, order: seq<string>) {
    && (forall c :: c in order <==> IsSubscriber(r, c, key))
    && Distinct(order)
  }

  /** The streams of the clients in that order. */
  function Gathered(watchers: Watchers, order: seq<string>): seq<Writer> {
    if order == [] then [] else Gathered(watchers, order[..|order| - 1]) + Streams(watchers, order[|order| - 1])
  }

  /** The writes among the first `n` that were accepted. */
  function Accepted(targets: seq<Writer>, accepts: nat -> bool, n: nat): seq<Writer>
    requires n <= |targets|
  {
    if n == 0 then []
    else Accepted(targets, accepts, n - 1) + if accepts(n - 1) then [targets[n - 1]] else []
  }

  /** The numbers of the writes, among the first `n`, that are accepted. */
  function Accepting(accepts: nat -> bool, n: nat): set<nat> {
    set i: nat | i < n && accepts(i)
  }

  lemma AcceptingStep(accepts: nat -> bool, n: nat)
    ensures |Accepting(accepts, n + 1)| == |Accepting(accepts, n)| + if accepts(n) then 1 else 0
  {
    assert Accepting(accepts, n + 1) == Accepting(accepts, n) + if accepts(n) then {n} else {};
  }

  /** As many writes are recorded as are accepted. */
  lemma {:induction false} AcceptedCount(targets: seq<Writer>, accepts: nat -> bool, n: nat)
    requires n <= |targets|
    ensures |Accepted(targets, accepts, n)| == |Accepting(accepts, n)|
  {
    if n > 0 {
      AcceptedCount(targets, accepts, n - 1);
      AcceptingStep(accepts, n - 1);
    }
  }

  /** Each accepted write is recorded for its own target, after the accepted ones before it. */
  lemma {:induction false} AcceptedAt(targets: seq<Writer>, accepts: nat -> bool, n: nat, i: nat)
    requires i < n <= |targets| && accepts(i)
    ensures |Accepting(accepts, i)| < |Accepted(targets, accepts, n)|
    ensures Accepted(targets, accepts, n)[|Accepting(accepts, i)|] == targets[i]
  {
    if i < n - 1 {
      AcceptedAt(targets, accepts, n - 1, i);
    } else {
      AcceptedCount(targets, accepts, i);
    }
  }

  // ----- Registering and unregistering streams -----

  lemma {:induction false} WithoutSplit(a: seq<Writer>, b: seq<Writer>, writer: Writer)
    ensures Without(a + b, writer) == Without(a, writer) + Without(b, writer)
  {
    if a == [] {
      assert a + b == b;
    } else {
      WithoutSplit(a[1..], b, writer);
      var head := if a[0] == writer then [] else [a[0]];
      assert (a + b)[1..] == a[1..] + b && (a + b)[0] == a[0];
      assert Without(a + b, writer) == head + Without(a[1..] + b, writer);
      assert Without(a, writer) == head + Without(a[1..], writer);
      hide Without;
    }
  }

  lemma {:induction false} WithoutAbsent(streams: seq<Writer>, writer: Writer)
    requires writer !in streams
    ensures Without(streams, writer) == streams
  {
    if streams != [] {
      WithoutAbsent(streams[1..], writer);
    }
  }

  /** A stream is registered behind the client's others; unregistering removes all its registrations and leaves the others in
      their order. Other clients, and all subscriptions, are untouched. */
  lemma WatchEffects(r: Registry, client: string, writer: Writer, other: string)
    requires client != ""
    ensures var more, less := Watched(r, client, Some(writer)), Unwatched(r, client, Some(writer));
            && more.pairs == less.pairs == r.pairs
            && Streams(more.watchers, client) == Streams(r.watchers, client) + [writer]
            && writer !in Streams(less.watchers, client)
            && (forall w: Writer :: w != writer ==>
                  multiset(Streams(less.watchers, client))[w] == multiset(Streams(r.watchers, client))[w])
            && (other != client ==>
                  && Streams(more.watchers, other) == Streams(r.watchers, other)
                  && Streams(less.watchers, other) == Streams(r.watchers, other))
  {
    WithoutCounts(Streams(r.watchers, client), writer);
    hide Without;
    var rest := multiset(Without(Streams(r.watchers, client), writer));
    assert rest[writer] == 0;
  }

  /** Unregistering undoes registering. */
  lemma WatchRoundTrip(r: Registry, client: string, writer: Writer)
    requires client != "" && writer !in Streams(r.watchers, client)
    requires forall c :: c in r.watchers ==> r.watchers[c] != []
    ensures Unwatched(Watched(r, client, Some(writer)), client, Some(writer)) == r
  {
    var streams := Streams(r.watchers, client);
    WithoutSplit(streams, [writer], writer);
    WithoutAbsent(streams, writer);
    assert Without([writer], writer) == [];
    assert Without(streams + [writer], writer) == streams;
    hide Without, WithStreams, Streams;
    StreamsReplaced(r.watchers, client, streams + [writer], streams);
  }

  lemma StreamsReplaced(watchers: Watchers, client: string, a: seq<Writer>, b: seq<Writer>)
    requires a != [] && b == Streams(watchers, client) && forall c :: c in watchers ==> watchers[c] != []
    ensures Streams(WithStreams(watchers, client, a), client) == a
    ensures WithStreams(WithStreams(watchers, client, a), client, b) == watchers
  {
    if client in watchers {
      assert watchers[client := a][client := b] == watchers;
    } else {
      assert watchers[client := a] - {client} == watchers;
    }
  }

  class NotifyRegistry {
    var subscriptions: Index
    var clientKeys: Index
    var watchers: Watchers
    /** What the streams have accepted so far, in order. */
    var sent: seq<(Writer, Message)>

    ghost predicate Valid()
      reads this
    {
      && NoEmpty(subscriptions) && NoEmpty(clientKeys) && Inverse(subscriptions, clientKeys)
      && (forall c :: c in watchers ==> watchers[c] != [])
    }

    function View(): Registry
      reads this
    {
      Registry(Pairs(subscriptions), watchers)
    }

    constructor ()
      ensures Valid() && View() == Registry({}, map[]) && sent == []
    {
      subscriptions, clientKeys, watchers, sent := map[], map[], map[], [];
    }

    method Subscribe(client: string, channel: string, scope: string)
      requires Valid()
      modifies this`subscriptions, this`clientKeys
      ensures Valid() && View() == Subscribed(old(View()), client, channel, scope)
    {
      if client == "" || channel == "" {
        return;
      }
      var key := ChannelKey(channel, scope);
      subscriptions := Added(subscriptions, key, client);
      clientKeys := Added(clientKeys, client, key);
      assert View().pairs == old(View()).pairs + {(client, key)};
    }

    method RemoveClientFromKey(client: string, key: string)
      requires Valid()
      modifies this`subscriptions, this`clientKeys
      ensures Valid() && View() == old(View()).(pairs := old(View()).pairs - {(client, key)})
    {
      if key in subscriptions {
        var rest := subscriptions[key] - {client};
        subscriptions := if rest == {} then subscriptions - {key} else subscriptions[key := rest];
      }
      if client in clientKeys {
        var rest := clientKeys[client] - {key};
        clientKeys := if rest == {} then clientKeys - {client} else clientKeys[client := rest];
      }
      assert subscriptions == Removed(old(subscriptions), key, client);
      assert clientKeys == Removed(old(clientKeys), client, key);
      assert View().pairs == old(View()).pairs - {(client, key)};
    }

    method Unsubscribe(client: string, channel: string, scope: string)
      requires Valid()
      modifies this`subscriptions, this`clientKeys
      ensures Valid() && View() == Unsubscribed(old(View()), client, channel, scope)
    {
      if client == "" || channel == "" {
        return;
      }
      RemoveClientFromKey(client, ChannelKey(channel, scope));
    }

    /** The loop walks a copy of the client's keys in any order. */
    method UnsubscribeAll(client: string)
      requires Valid()
      modifies this`subscriptions, this`clientKeys
      ensures Valid() && View() == UnsubscribedAll(old(View()), client)
    {
      if client == "" {
        return;
      }
      if client !in clientKeys {
        assert forall k :: !Has(clientKeys, client, k);
        assert View().pairs == UnsubscribedAll(View(), client).pairs;
        return;
      }
      var keys := clientKeys[client];
      assert forall k :: (client, k) in View().pairs <==> k in keys;
      while keys != {}
        invariant Valid() && watchers == old(watchers)
        invariant forall c, k :: (c, k) in View().pairs <==> (c, k) in old(View()).pairs && (c == client ==> k in keys)
        decreases |keys|
      {
        var key :| key in keys;
        RemoveClientFromKey(client, key);
        keys := keys - {key};
      }
      assert View().pairs == UnsubscribedAll(old(View()), client).pairs;
    }

    method RegisterWatch(client: string, writer: Option<Writer>)
      requires Valid()
      modifies this`watchers
      ensures Valid() && View() == Watched(old(View()), client, writer)
    {
      if client == "" || writer.None? {
        return;
      }
      watchers := watchers[client := Streams(watchers, client) + [writer.value]];
    }

    method UnregisterWatch(client: string, writer: Option<Writer>)
      requires Valid()
      modifies this`watchers
      ensures Valid() && View() == Unwatched(old(View()), client, writer)
    {
      if client == "" || writer.None? {
        return;
      }
      if client !in watchers {
        assert watchers - {client} == watchers;
        return;
      }
      var streams := Without(watchers[client], writer.value);
      watchers := if streams == [] then watchers - {client} else watchers[client := streams];
    }

    /** The locked part of Publish; `order` is the order in which the loop met the subscribers. */
    method Snapshot(key: string) returns (targets: seq<Writer>, order: seq<string>)
      requires Valid()
      ensures Enumerates(View(), key, order) && targets == Gathered(watchers, order)
    {
      targets, order := [], [];
      if key !in subscriptions {
        return;
      }
      var clients := subscriptions[key];
      while clients != {}
        invariant forall c :: c in subscriptions[key] <==> c in clients || c in order
        invariant forall c :: c in clients ==> c !in order
        invariant Distinct(order)
        invariant targets == Gathered(watchers, order)
        decreases |clients|
      {
        var client :| client in clients;
        clients := clients - {client};
        assert (order + [client])[..|order|] == order;
        order := order + [client];
        targets := targets + Streams(watchers, client);
      }
    }

    /** The unlocked part: `accepts(i)` is what the i-th Write returns. */
    method WriteAll(targets: seq<Writer>, message: Message, accepts: nat -> bool) returns (delivered: nat)
      modifies this`sent
      ensures var accepted := Accepted(targets, accepts, |targets|);
              && delivered == |accepted| == |Accepting(accepts, |targets|)|
              && |sent| == |old(sent)| + delivered && sent[..|old(sent)|] == old(sent)
              && forall i :: 0 <= i < delivered ==> sent[|old(sent)| + i] == (accepted[i], message)
    {
      AcceptedCount(targets, accepts, |targets|);
      delivered := 0;
      for i := 0 to |targets|
        invariant delivered == |Accepted(targets, accepts, i)|
        invariant |sent| == |old(sent)| + delivered && sent[..|old(sent)|] == old(sent)
        invariant forall j :: 0 <= j < delivered ==>
                    sent[|old(sent)| + j] == (Accepted(targets, accepts, i)[j], message)
      {
        if accepts(i) {
          sent := sent + [(targets[i], message)];
          delivered := delivered + 1;
        }
      }
    }

    /** A Publish that nothing interrupts: exactly the accepted writes to the streams of the key's subscribers are sent,
        and their number is returned. */
    method Publish(channel: string, payload: string, scope: string, accepts: nat -> bool)
      returns (delivered: nat, ghost order: seq<string>)
      requires Valid()
      modifies this`sent
      ensures channel == "" ==> delivered == 0 && sent == old(sent)
      ensures channel != "" ==> Enumerates(View(), ChannelKey(channel, scope), order)
      ensures channel != "" ==>
                var targets := Gathered(watchers, order);
                var accepted := Accepted(targets, accepts, |targets|);
                && delivered == |accepted| == |Accepting(accepts, |targets|)|
                && |sent| == |old(sent)| + delivered && sent[..|old(sent)|] == old(sent)
                && forall i :: 0 <= i < delivered ==>
                     sent[|old(sent)| + i] == (accepted[i], Message(channel, payload))
    {
      if channel == "" {
        return 0, [];
      }
      var targets;
      targets, order := Snapshot(ChannelKey(channel, scope));
      delivered := WriteAll(targets, Message(channel, payload), accepts);
    }
  }
}
