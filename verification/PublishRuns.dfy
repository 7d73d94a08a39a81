/** Interleaved use of the registry: every call holding the lock is one step, a Publish is a snapshot step followed by one
    step per write, and other threads' steps may fall anywhere between. */
module PublishRuns {
  import opened Common
  import opened ChannelKeys
  import opened NotifyRegistry

  /** A Publish call: its key and message, the targets of its snapshot, and how far its writes have come. */
  datatype Publishing = Publishing(key: string, message: Message, targets: seq<Writer>, attempted: nat, delivered: nat)

  datatype Sent = Sent(publisher: nat, writer: Writer, message: Message)

  datatype World = World(registry: Registry, publishing: map<nat, Publishing>, sent: seq<Sent>)

  datatype Step =
    | Subscribe(client: string, channel: string, scope: string)
    | Unsubscribe(client: string, channel: string, scope: string)
    | UnsubscribeAll(client: string)
    | RegisterWatch(client: string, writer: Option<Writer>)
    | UnregisterWatch(client: string, writer: Option<Writer>)
    | Snapshot(publisher: nat, channel: string, payload: string, scope: string, order: seq<string>)
    | Write(publisher: nat, accepted: bool)

  ghost predicate Enabled(w: World, step: Step) {
    match step
    case Snapshot(p, channel, _, scope, order) =>
      p !in w.publishing && channel != "" && Enumerates(w.registry, ChannelKey(channel, scope), order)
    case Write(p, _) => p in w.publishing && w.publishing[p].attempted < |w.publishing[p].targets|
    case _ => true
  }

  function Opened(w: World, channel: string, payload: string, scope: string, order: seq<string>): Publishing {
    Publishing(ChannelKey(channel, scope), Message(channel, payload), Gathered(w.registry.watchers, order), 0, 0)
  }

  function Wrote(p: Publishing, accepted: bool): Publishing {
    p.(attempted := p.attempted + 1, delivered := p.delivered + if accepted then 1 else 0)
  }

  function NextRegistry(r: Registry, step: Step): Registry {
    match step
    case Subscribe(client, channel, scope) => Subscribed(r, client, channel, scope)
    case Unsubscribe(client, channel, scope) => Unsubscribed(r, client, channel, scope)
    case UnsubscribeAll(client) => UnsubscribedAll(r, client)
    case RegisterWatch(client, writer) => Watched(r, client, writer)
    case UnregisterWatch(client, writer) => Unwatched(r, client, writer)
    case Snapshot(_, _, _, _, _) => r
    case Write(_, _) => r
  }

  ghost function Next(w: World, step: Step): World
    requires Enabled(w, step)
  {
    var w' := w.(registry := NextRegistry(w.registry, step));
    match step
    case Snapshot(p, channel, payload, scope, order) =>
      w'.(publishing := w.publishing[p := Opened(w, channel, payload, scope, order)])
    case Write(p, accepted) =>
      var call := w.publishing[p];
      w'.(publishing := w.publishing[p := Wrote(call, accepted)],
          sent := w.sent + if accepted then [Sent(p, call.targets[call.attempted], call.message)] else [])
    case _ => w'
  }

  const EMPTY := World(Registry({}, map[]), map[], [])

  ghost predicate Moves(states: seq<World>, i: nat, step: Step)
    requires i + 1 < |states|
  {
    Enabled(states[i], step) && states[i + 1] == Next(states[i], step)
  }

  ghost predicate Run(states: seq<World>, steps: seq<Step>) {
    && |states| == |steps| + 1
    && states[0] == EMPTY
    && (forall i :: 0 <= i < |steps| ==> Moves(states, i, steps[i]))
  }

  // ----- Publish -----

  /** The streams that accepted the writes of one Publish, each as often as it did. */
  function Reached(sent: seq<Sent>, p: nat): multiset<Writer> {
    if sent == [] then multiset{}
    else Reached(sent[..|sent| - 1], p) + Reach(sent[|sent| - 1], p)
  }

  function Reach(e: Sent, p: nat): multiset<Writer> {
    if e.publisher == p then multiset{e.writer} else multiset{}
  }

  /** The entry of an accepted write names a call that is under way and one of its targets. */
  predicate Owned(publishing: map<nat, Publishing>, e: Sent) {
    && e.publisher in publishing
    && e.writer in publishing[e.publisher].targets
    && e.message == publishing[e.publisher].message
  }

  predicate Counted(sent: seq<Sent>, p: nat, call: Publishing) {
    && call.attempted <= |call.targets|
    && call.delivered == |Reached(sent, p)|
    && Reached(sent, p) <= multiset(call.targets[..call.attempted])
  }

  ghost predicate Accounted(w: World) {
    && (forall e :: e in w.sent ==> Owned(w.publishing, e))
    && (forall p :: p in w.publishing ==> Counted(w.sent, p, w.publishing[p]))
  }

  lemma {:induction false} NotSent(publishing: map<nat, Publishing>, sent: seq<Sent>, p: nat)
    requires forall e :: e in sent ==> Owned(publishing, e)
    requires p !in publishing
    ensures Reached(sent, p) == multiset{}
  {
    if sent != [] {
      assert sent[|sent| - 1] in sent;
      NotSent(publishing, sent[..|sent| - 1], p);
    }
  }

  lemma SentOneMore(sent: seq<Sent>, e: Sent, p: nat)
    ensures Reached(sent + [e], p) == Reached(sent, p) + Reach(e, p)
  {
    assert (sent + [e])[..|sent|] == sent;
  }

  lemma SnapshotAccounted(w: World, step: Step)
    requires Accounted(w) && Enabled(w, step) && step.Snapshot?
    ensures Accounted(Next(w, step))
  {
    NotSent(w.publishing, w.sent, step.publisher);
  }

  /** One more write keeps the count of every call, whether it is accepted or not. */
  lemma WriteCounted(sent: seq<Sent>, e: Sent, accepted: bool, p: nat, call: Publishing)
    requires Counted(sent, p, call)
    requires e.publisher == p ==> call.attempted < |call.targets| && e.writer == call.targets[call.attempted]
    ensures Counted(sent + if accepted then [e] else [], p, if e.publisher == p then Wrote(call, accepted) else call)
  {
    hide Reached;
    if accepted {
      SentOneMore(sent, e, p);
    } else {
      assert sent + [] == sent;
    }
    if e.publisher == p {
      assert call.targets[..call.attempted + 1] == call.targets[..call.attempted] + [e.writer];
    }
  }

  lemma WriteAccounted(w: World, step: Step)
    requires Accounted(w) && Enabled(w, step) && step.Write?
    ensures Accounted(Next(w, step))
  {
    hide NextRegistry, Reached, Counted;
    var w' := Next(w, step);
    var call := w.publishing[step.publisher];
    var e := Sent(step.publisher, call.targets[call.attempted], call.message);
    forall x | x in w'.sent ensures Owned(w'.publishing, x) {
      assert x in w.sent || x == e;
    }
    hide Owned, Wrote;
    forall p | p in w'.publishing ensures Counted(w'.sent, p, w'.publishing[p]) {
      WriteCounted(w.sent, e, step.accepted, p, w.publishing[p]);
    }
  }

  lemma StepAccounted(w: World, step: Step)
    requires Accounted(w) && Enabled(w, step)
    ensures Accounted(Next(w, step))
  {
    match step {
      case Snapshot(_, _, _, _, _) => hide *; SnapshotAccounted(w, step);
      case Write(_, _) => hide *; WriteAccounted(w, step);
      case _ => hide NextRegistry;
    }
  }

  lemma {:induction false} RunAccounted(states: seq<World>, steps: seq<Step>, n: nat)
    requires Run(states, steps) && n <= |steps|
    ensures Accounted(states[n])
  {
    if n > 0 {
      RunAccounted(states, steps, n - 1);
      assert Moves(states, n - 1, steps[n - 1]);
      hide Accounted, Enabled, Next;
      StepAccounted(states[n - 1], steps[n - 1]);
    }
  }

  /** Step `i` took the snapshot of this call. */
  ghost predicate OpenedBy(states: seq<World>, steps: seq<Step>, i: nat, p: nat, call: Publishing)
    requires |states| == |steps| + 1
  {
    && i < |steps| && steps[i].Snapshot? && steps[i].publisher == p && Enabled(states[i], steps[i])
    && var call0 := Opened(states[i], steps[i].channel, steps[i].payload, steps[i].scope, steps[i].order);
       call.key == call0.key && call.message == call0.message && call.targets == call0.targets
  }

  lemma {:induction false} SnapshotOf(states: seq<World>, steps: seq<Step>, n: nat, p: nat) returns (i: nat)
    requires Run(states, steps) && n <= |steps| && p in states[n].publishing
    ensures i < n && OpenedBy(states, steps, i, p, states[n].publishing[p])
  {
    assert Moves(states, n - 1, steps[n - 1]);
    hide NextRegistry, Opened;
    if p in states[n - 1].publishing {
      i := SnapshotOf(states, steps, n - 1, p);
    } else {
      i := n - 1;
    }
  }

  lemma {:induction false} GatheredFrom(watchers: Watchers, order: seq<string>, writer: Writer) returns (client: string)
    requires writer in Gathered(watchers, order)
    ensures client in order && writer in Streams(watchers, client)
  {
    var rest := order[..|order| - 1];
    if writer in Streams(watchers, order[|order| - 1]) {
      client := order[|order| - 1];
    } else {
      client := GatheredFrom(watchers, rest, writer);
    }
  }

  /** Every accepted write is justified by the snapshot of its Publish: at that moment its stream was registered for a
      client then subscribed to the published key, and the message is the published one, whatever happened since. */
  lemma WritesJustified(states: seq<World>, steps: seq<Step>, n: nat, e: Sent) returns (i: nat, client: string)
    requires Run(states, steps) && n <= |steps| && e in states[n].sent
    ensures i < n && steps[i].Snapshot? && steps[i].publisher == e.publisher
    ensures e.message == Message(steps[i].channel, steps[i].payload)
    ensures IsSubscriber(states[i].registry, client, ChannelKey(steps[i].channel, steps[i].scope))
    ensures e.writer in Streams(states[i].registry.watchers, client)
  {
    RunAccounted(states, steps, n);
    hide NextRegistry, Next, Counted, Run;
    assert Owned(states[n].publishing, e);
    i := SnapshotOf(states, steps, n, e.publisher);
    client := GatheredFrom(states[i].registry.watchers, steps[i].order, e.writer);
  }

  /** What Publish returns is the number of its accepted writes; no stream accepts more of them than it was registered
      times for the subscribers at the snapshot, so the result is at most their number of streams, and reaches it only if
      every one of those streams has accepted the message. */
  lemma DeliveredCounts(states: seq<World>, steps: seq<Step>, n: nat, p: nat) returns (i: nat)
    requires Run(states, steps) && n <= |steps| && p in states[n].publishing
    ensures i < n && steps[i].Snapshot? && steps[i].publisher == p
    ensures Enumerates(states[i].registry, ChannelKey(steps[i].channel, steps[i].scope), steps[i].order)
    ensures var reached, watchers, order := Reached(states[n].sent, p), states[i].registry.watchers, steps[i].order;
            && states[n].publishing[p].delivered == |reached| <= StreamTotal(watchers, order)
            && reached <= multiset(Gathered(watchers, order))
            && (|reached| == StreamTotal(watchers, order) ==> reached == multiset(Gathered(watchers, order)))
  {
    RunAccounted(states, steps, n);
    var call := states[n].publishing[p];
    assert Counted(states[n].sent, p, call);
    hide NextRegistry, Next, Run, Owned, Reached, Gathered;
    i := SnapshotOf(states, steps, n, p);
    GatheredSize(states[i].registry.watchers, steps[i].order);
    assert call.targets == call.targets[..call.attempted] + call.targets[call.attempted..];
    SubsetSize(Reached(states[n].sent, p), multiset(call.targets));
  }

  lemma SubsetSize(a: multiset<Writer>, b: multiset<Writer>)
    requires a <= b
    ensures |a| <= |b| && (|a| == |b| ==> a == b)
  {
    assert b == a + (b - a);
  }

  /** The steps, among the first `n`, at which a stream accepts a write of this Publish. */
  function AcceptedWrites(steps: seq<Step>, n: nat, p: nat): set<nat>
    requires n <= |steps|
  {
    set i: nat | i < n && steps[i] == Write(p, true)
  }

  lemma AcceptedWritesStep(steps: seq<Step>, n: nat, p: nat)
    requires n < |steps|
    ensures |AcceptedWrites(steps, n + 1, p)| == |AcceptedWrites(steps, n, p)| + if steps[n] == Write(p, true) then 1 else 0
  {
    assert AcceptedWrites(steps, n + 1, p)
        == AcceptedWrites(steps, n, p) + if steps[n] == Write(p, true) then {n} else {};
  }

  lemma DeliveredStep(w: World, step: Step, p: nat)
    requires Enabled(w, step)
    ensures var w' := Next(w, step);
            if p in w.publishing then
              && p in w'.publishing
              && w'.publishing[p].delivered == w.publishing[p].delivered + if step == Write(p, true) then 1 else 0
            else
              step != Write(p, true) && (p in w'.publishing ==> w'.publishing[p].delivered == 0)
  {
    hide NextRegistry, Gathered;
  }

  /** A refused write is not counted, and nothing else is: the result of Publish is the number of its writes that streams
      accept, whatever other threads do in between. */
  lemma {:induction false} DeliveredIsAccepted(states: seq<World>, steps: seq<Step>, n: nat, p: nat)
    requires Run(states, steps) && n <= |steps|
    ensures |AcceptedWrites(steps, n, p)| == if p in states[n].publishing then states[n].publishing[p].delivered else 0
  {
    if n > 0 {
      hide Next, Enabled, AcceptedWrites;
      DeliveredIsAccepted(states, steps, n - 1, p);
      AcceptedWritesStep(steps, n - 1, p);
      assert Moves(states, n - 1, steps[n - 1]);
      DeliveredStep(states[n - 1], steps[n - 1], p);
    }
  }

  // ----- Uninterrupted writing -----

  /** The world after `n` writes of one Publish that nothing interrupts. */
  ghost function AfterWrites(w: World, p: nat, accepts: nat -> bool, n: nat): (w': World)
    requires p in w.publishing && w.publishing[p].attempted == w.publishing[p].delivered == 0
    requires n <= |w.publishing[p].targets|
    ensures p in w'.publishing
    ensures w'.publishing[p].attempted == n
    ensures w'.publishing[p].targets == w.publishing[p].targets && w'.publishing[p].message == w.publishing[p].message
    decreases n
  {
    if n == 0 then w else Next(AfterWrites(w, p, accepts, n - 1), Write(p, accepts(n - 1)))
  }

  /** The steps of a Publish do what the loop of the class does: the same result, and the same entries in the same order. */
  lemma {:induction false} WritesAgree(w: World, p: nat, accepts: nat -> bool, n: nat)
    requires p in w.publishing && w.publishing[p].attempted == w.publishing[p].delivered == 0
    requires n <= |w.publishing[p].targets|
    ensures var w', call := AfterWrites(w, p, accepts, n), w.publishing[p];
            var accepted := Accepted(call.targets, accepts, n);
            && w'.publishing[p].delivered == |accepted|
            && |w'.sent| == |w.sent| + |accepted| && w'.sent[..|w.sent|] == w.sent
            && forall i :: 0 <= i < |accepted| ==> w'.sent[|w.sent| + i] == Sent(p, accepted[i], call.message)
    decreases n
  {
    if n > 0 {
      WritesAgree(w, p, accepts, n - 1);
      hide NextRegistry;
    }
  }

  /** The number of streams registered for the clients. */
  function StreamTotal(watchers: Watchers, order: seq<string>): nat {
    if order == [] then 0 else |Streams(watchers, order[0])| + StreamTotal(watchers, order[1..])
  }

  lemma {:induction false} StreamTotalSnoc(watchers: Watchers, order: seq<string>)
    requires order != []
    ensures StreamTotal(watchers, order)
         == StreamTotal(watchers, order[..|order| - 1]) + |Streams(watchers, order[|order| - 1])|
  {
    if |order| > 1 {
      StreamTotalSnoc(watchers, order[1..]);
      assert order[1..][..|order| - 2] == order[..|order| - 1][1..];
    }
  }

  lemma {:induction false} GatheredSize(watchers: Watchers, order: seq<string>)
    ensures |Gathered(watchers, order)| == StreamTotal(watchers, order)
  {
    if order != [] {
      GatheredSize(watchers, order[..|order| - 1]);
      StreamTotalSnoc(watchers, order);
    }
  }

  // ----- The order in which the subscribers are walked does not matter -----

  lemma AppendAssociates(a: seq<Writer>, b: seq<Writer>, c: seq<Writer>)
    ensures (a + b) + c == a + (b + c)
  {
  }

  lemma {:induction false} GatheredSplit(watchers: Watchers, before: seq<string>, after: seq<string>)
    ensures Gathered(watchers, before + after) == Gathered(watchers, before) + Gathered(watchers, after)
  {
    if after == [] {
      assert before + after == before;
    } else {
      var front, last := after[..|after| - 1], after[|after| - 1];
      var whole := before + after;
      GatheredSplit(watchers, before, front);
      assert whole[..|whole| - 1] == before + front && whole[|whole| - 1] == last;
      assert Gathered(watchers, whole) == Gathered(watchers, before + front) + Streams(watchers, last);
      assert Gathered(watchers, after) == Gathered(watchers, front) + Streams(watchers, last);
      hide Gathered, Streams;
      AppendAssociates(Gathered(watchers, before), Gathered(watchers, front), Streams(watchers, last));
    }
  }

  function Drop(order: seq<string>, i: nat): seq<string>
    requires i < |order|
  {
    order[..i] + order[i + 1..]
  }

  lemma GatheredDrop(watchers: Watchers, order: seq<string>, i: nat)
    requires i < |order|
    ensures multiset(Gathered(watchers, order))
         == multiset(Gathered(watchers, Drop(order, i))) + multiset(Streams(watchers, order[i]))
  {
    var c := [order[i]];
    assert order == order[..i] + (c + order[i + 1..]);
    GatheredSplit(watchers, order[..i], c + order[i + 1..]);
    GatheredSplit(watchers, c, order[i + 1..]);
    GatheredSplit(watchers, order[..i], order[i + 1..]);
    assert c[..0] == [];
    assert Gathered(watchers, c) == Streams(watchers, order[i]);
  }

  lemma NoMembers(o1: seq<string>, o2: seq<string>)
    requires forall c :: c in o1 <==> c in o2
    ensures o1 == [] ==> o2 == []
  {
    if o2 != [] {
      assert o2[0] in o1;
    }
  }

  /** Whatever the iteration order of the subscriber set, Publish writes to the same streams, each the same number of
      times. */
  lemma {:induction false} OrderIrrelevant(watchers: Watchers, o1: seq<string>, o2: seq<string>)
    requires Distinct(o1) && Distinct(o2) && forall c :: c in o1 <==> c in o2
    ensures multiset(Gathered(watchers, o1)) == multiset(Gathered(watchers, o2))
    decreases |o1|
  {
    if o1 == [] {
      NoMembers(o1, o2);
    } else {
      assert o1[0] in o1 && o1[0] in o2;
      var i :| 0 <= i < |o2| && o2[i] == o1[0];
      hide Gathered, Distinct, Drop;
      GatheredDrop(watchers, o1, 0);
      GatheredDrop(watchers, o2, i);
      Dropped(o1, 0);
      Dropped(o2, i);
      OrderIrrelevant(watchers, Drop(o1, 0), Drop(o2, i));
    }
  }

  lemma Dropped(order: seq<string>, i: nat)
    requires Distinct(order) && i < |order|
    ensures |Drop(order, i)| == |order| - 1 && Distinct(Drop(order, i))
    ensures forall x :: x in Drop(order, i) <==> x in order && x != order[i]
  {
    var rest := Drop(order, i);
    assert forall j :: 0 <= j < |rest| ==> rest[j] == order[if j < i then j else j + 1];
    forall x | x in order && x != order[i] ensures x in rest {
      var j :| 0 <= j < |order| && order[j] == x;
      assert rest[if j < i then j else j - 1] == x;
    }
  }

  // ----- Channels and scopes -----

  /** The subscriptions that the calls so far stand for: (client, channel, normalised scope). */
  function Triples(steps: seq<Step>, n: nat): set<(string, string, string)>
    requires n <= |steps|
  {
    if n == 0 then {}
    else
      var before := Triples(steps, n - 1);
      match steps[n - 1]
      case Subscribe(client, channel, scope) =>
        if Accepts(client, channel) then before + {(client, channel, NormalizeTidScope(scope))} else before
      case Unsubscribe(client, channel, scope) =>
        if Accepts(client, channel) then before - {(client, channel, NormalizeTidScope(scope))} else before
      case UnsubscribeAll(client) => if client == "" then before else set t | t in before && t.0 != client
      case _ => before
  }

  predicate ScopeColonFree(step: Step) {
    (step.Subscribe? || step.Unsubscribe?) ==> ColonFree(step.scope)
  }

  /** Refinement to channels and scopes: as long as scopes contain no colon, a client is a subscriber of the key of a
      channel and a scope exactly when its calls have subscribed it to that channel in that scope. */
  lemma {:induction false} ScopedRefinement(
    states: seq<World>, steps: seq<Step>, n: nat, client: string, channel: string, scope: string)
    requires Run(states, steps) && n <= |steps| && ColonFree(scope) && channel != ""
    requires forall i :: 0 <= i < |steps| ==> ScopeColonFree(steps[i])
    ensures IsSubscriber(states[n].registry, client, ChannelKey(channel, scope)) <==>
              (client, channel, NormalizeTidScope(scope)) in Triples(steps, n)
    ensures (client, channel, NormalizeTidScope(scope)) in Triples(steps, n) ==> client != ""
  {
    if n > 0 {
      var step := steps[n - 1];
      ScopedRefinement(states, steps, n - 1, client, channel, scope);
      assert Moves(states, n - 1, step);
      assert states[n].registry == NextRegistry(states[n - 1].registry, step);
      assert ScopeColonFree(step);
      if step.Subscribe? || step.Unsubscribe? {
        KeySeparation(step.channel, step.scope, channel, scope);
      }
      hide ChannelKey, NormalizeTidScope, Next, Enabled;
    }
  }

  /** A Publish reaches only streams of clients that are subscribed to that very channel in that very scope. */
  lemma PublishStaysInScope(states: seq<World>, steps: seq<Step>, n: nat, e: Sent) returns (i: nat, client: string)
    requires Run(states, steps) && n <= |steps| && e in states[n].sent
    requires forall i :: 0 <= i < |steps| ==> ScopeColonFree(steps[i])
    requires forall i :: 0 <= i < |steps| && steps[i].Snapshot? ==> ColonFree(steps[i].scope)
    ensures i < n && steps[i].Snapshot? && steps[i].publisher == e.publisher
    ensures e.message == Message(steps[i].channel, steps[i].payload)
    ensures (client, steps[i].channel, NormalizeTidScope(steps[i].scope)) in Triples(steps, i)
    ensures e.writer in Streams(states[i].registry.watchers, client)
  {
    i, client := WritesJustified(states, steps, n, e);
    assert Moves(states, i, steps[i]);
    ScopedRefinement(states, steps, i, client, steps[i].channel, steps[i].scope);
  }

  // ----- Scopes with colons -----

  /** A client that is subscribed to a key has a subscription to some channel and scope with that key, whatever characters
      they contain. */
  lemma {:induction false} SubscriptionBehind(states: seq<World>, steps: seq<Step>, n: nat, client: string, key: string)
    returns (channel: string, scope: string)
    requires Run(states, steps) && n <= |steps| && IsSubscriber(states[n].registry, client, key)
    ensures channel != "" && ChannelKey(channel, scope) == key
    ensures (client, channel, NormalizeTidScope(scope)) in Triples(steps, n)
  {
    assert n > 0;
    var step := steps[n - 1];
    assert Moves(states, n - 1, step);
    assert states[n].registry == NextRegistry(states[n - 1].registry, step);
    hide ChannelKey, NormalizeTidScope, Next, Enabled, Run;
    if IsSubscriber(states[n - 1].registry, client, key) {
      channel, scope := SubscriptionBehind(states, steps, n - 1, client, key);
      if step.Unsubscribe? && Accepts(step.client, step.channel) {
        KeyDetermined(step.channel, step.scope, channel, scope);
      }
    } else {
      channel, scope := step.channel, step.scope;
    }
  }

  /** Step `i` is a Publish whose message one of its streams accepts, although at its snapshot no client for which that
      stream is registered has a subscription to the published channel in the published scope. */
  ghost predicate Misdelivers(states: seq<World>, steps: seq<Step>, i: nat, e: Sent)
    requires |states| == |steps| + 1 && i < |steps|
  {
    && steps[i].Snapshot? && e in states[|steps|].sent && e.publisher == steps[i].publisher
    && forall client :: e.writer in Streams(states[i].registry.watchers, client) ==>
         (client, steps[i].channel, NormalizeTidScope(steps[i].scope)) !in Triples(steps, i)
  }

  /** Some run misdelivers a message that is published to this channel in this scope. */
  ghost predicate Misdeliverable(channel: string, scope: string) {
    exists states: seq<World>, steps: seq<Step>, i: nat, e: Sent ::
      && Run(states, steps) && i < |steps| && Misdelivers(states, steps, i, e)
      && steps[i].channel == channel && steps[i].scope == scope
  }

  lemma {:induction false} PublishingStays(states: seq<World>, steps: seq<Step>, i: nat, n: nat)
    requires Run(states, steps) && i < n <= |steps| && steps[i].Snapshot?
    ensures steps[i].publisher in states[n].publishing
    decreases n
  {
    assert Moves(states, n - 1, steps[n - 1]);
    hide NextRegistry, Opened;
    if i < n - 1 {
      PublishingStays(states, steps, i, n - 1);
    }
  }

  /** A call takes one snapshot only. */
  lemma SnapshotOnce(states: seq<World>, steps: seq<Step>, i: nat, j: nat)
    requires Run(states, steps) && i < |steps| && j < |steps| && steps[i].Snapshot? && steps[j].Snapshot?
    requires steps[i].publisher == steps[j].publisher
    ensures i == j
  {
    assert Moves(states, i, steps[i]) && Moves(states, j, steps[j]);
    if i < j {
      PublishingStays(states, steps, i, j);
    } else if j < i {
      PublishingStays(states, steps, j, i);
    }
  }

  lemma MisdeliveryNeedsAlias(states: seq<World>, steps: seq<Step>, i: nat, e: Sent)
    requires Run(states, steps) && i < |steps| && Misdelivers(states, steps, i, e)
    ensures Aliased(steps[i].channel, steps[i].scope)
  {
    var j, client := WritesJustified(states, steps, |steps|, e);
    SnapshotOnce(states, steps, i, j);
    var channel, scope :=
      SubscriptionBehind(states, steps, i, client, ChannelKey(steps[i].channel, steps[i].scope));
    hide ChannelKey, NormalizeTidScope, Triples, Run;
    assert channel != steps[i].channel || NormalizeTidScope(scope) != NormalizeTidScope(steps[i].scope);
  }

  /** A world in which the stream 0 of client "c" is registered. */
  function Watching(pairs: set<(string, string)>, publishing: map<nat, Publishing>, sent: seq<Sent>): World {
    World(Registry(pairs, map["c" := [0]]), publishing, sent)
  }

  lemma WatchStep()
    ensures Enabled(EMPTY, RegisterWatch("c", Some(0))) && Next(EMPTY, RegisterWatch("c", Some(0))) == Watching({}, map[], [])
  {
    var streams := Streams(map[], "c") + [0];
    assert streams == [0] && streams[0] == 0;
    assert WithStreams(map[], "c", streams) == map["c" := [0]];
  }

  lemma SubscribeStep(channel: string, scope: string)
    requires channel != ""
    ensures var step := Subscribe("c", channel, scope);
            && Enabled(Watching({}, map[], []), step)
            && Next(Watching({}, map[], []), step) == Watching({("c", ChannelKey(channel, scope))}, map[], [])
  {
    hide ChannelKey;
  }

  lemma SnapshotStep(channel: string, scope: string)
    requires channel != ""
    ensures var key, step := ChannelKey(channel, scope), Snapshot(0, channel, "", scope, ["c"]);
            var w := Watching({("c", key)}, map[], []);
            && Enabled(w, step)
            && Next(w, step) == w.(publishing := map[0 := Publishing(key, Message(channel, ""), [0], 0, 0)])
  {
    var key := ChannelKey(channel, scope);
    var w := Watching({("c", key)}, map[], []);
    hide ChannelKey;
    assert ["c"][..0] == [] && Gathered(w.registry.watchers, ["c"]) == [0];
    assert Enumerates(w.registry, key, ["c"]);
  }

  lemma WriteStep(pairs: set<(string, string)>, key: string, message: Message)
    ensures var w := Watching(pairs, map[0 := Publishing(key, message, [0], 0, 0)], []);
            && Enabled(w, Write(0, true))
            && Next(w, Write(0, true))
               == Watching(pairs, map[0 := Publishing(key, message, [0], 1, 1)], [Sent(0, 0, message)])
  {
    assert [] + [Sent(0, 0, message)] == [Sent(0, 0, message)];
  }

  /** A stream watches, its client subscribes to an alias, and a Publish to the original writes to the stream. */
  function AliasSteps(channel: string, scope: string, alias: string, aliasScope: string): (steps: seq<Step>)
    ensures |steps| == 4
  {
    [RegisterWatch("c", Some(0)), Subscribe("c", alias, aliasScope), Snapshot(0, channel, "", scope, ["c"]), Write(0, true)]
  }

  function AliasStates(channel: string, key: string): (states: seq<World>)
    ensures |states| == 5
  {
    var message := Message(channel, "");
    [EMPTY, Watching({}, map[], []), Watching({("c", key)}, map[], []),
     Watching({("c", key)}, map[0 := Publishing(key, message, [0], 0, 0)], []),
     Watching({("c", key)}, map[0 := Publishing(key, message, [0], 1, 1)], [Sent(0, 0, message)])]
  }

  lemma AliasRun(channel: string, scope: string, alias: string, aliasScope: string)
    requires channel != "" && alias != "" && ChannelKey(alias, aliasScope) == ChannelKey(channel, scope)
    ensures Run(AliasStates(channel, ChannelKey(channel, scope)), AliasSteps(channel, scope, alias, aliasScope))
  {
    var key := ChannelKey(channel, scope);
    var states, steps := AliasStates(channel, key), AliasSteps(channel, scope, alias, aliasScope);
    hide ChannelKey, Next, Enabled, Watching;
    assert Moves(states, 0, steps[0]) by { WatchStep(); }
    assert Moves(states, 1, steps[1]) by { SubscribeStep(alias, aliasScope); }
    assert Moves(states, 2, steps[2]) by { SnapshotMoves(states, channel, scope); }
    assert Moves(states, 3, steps[3]) by { WriteStep({("c", key)}, key, Message(channel, "")); }
    hide Moves;
  }

  lemma SnapshotMoves(states: seq<World>, channel: string, scope: string)
    requires channel != "" && states == AliasStates(channel, ChannelKey(channel, scope))
    ensures Moves(states, 2, Snapshot(0, channel, "", scope, ["c"]))
  {
    hide ChannelKey, Next, Enabled;
    SnapshotStep(channel, scope);
  }

  /** With an alias of the channel and scope at hand, four steps misdeliver. */
  lemma AliasMisdelivers(channel: string, scope: string, alias: string, aliasScope: string)
    requires channel != "" && alias != "" && ChannelKey(alias, aliasScope) == ChannelKey(channel, scope)
    requires alias != channel || NormalizeTidScope(aliasScope) != NormalizeTidScope(scope)
    ensures Misdeliverable(channel, scope)
  {
    var e := Sent(0, 0, Message(channel, ""));
    var states, steps := AliasStates(channel, ChannelKey(channel, scope)), AliasSteps(channel, scope, alias, aliasScope);
    hide Run, ChannelKey, NormalizeTidScope, Triples;
    AliasRun(channel, scope, alias, aliasScope);
    AliasTriples(steps, alias, aliasScope);
    assert steps[2] == Snapshot(0, channel, "", scope, ["c"]) && states[4].sent == [e];
    assert states[2].registry.watchers == map["c" := [0]];
    assert Misdelivers(states, steps, 2, e);
  }

  lemma AliasTriples(steps: seq<Step>, channel: string, scope: string)
    requires |steps| >= 2 && steps[0].RegisterWatch? && steps[1] == Subscribe("c", channel, scope) && channel != ""
    ensures Triples(steps, 2) == {("c", channel, NormalizeTidScope(scope))}
  {
    hide NormalizeTidScope;
    assert Triples(steps, 1) == {};
  }

  /** Deliveries out of scope, exactly: a message published to a channel in a scope can reach a stream none of whose clients
      is subscribed there if and only if another channel and scope have the same key. */
  lemma MisdeliverableIff(channel: string, scope: string)
    requires channel != ""
    ensures Misdeliverable(channel, scope) <==> Aliased(channel, scope)
  {
    if Misdeliverable(channel, scope) {
      var states: seq<World>, steps: seq<Step>, i: nat, e: Sent :|
        && Run(states, steps) && i < |steps| && Misdelivers(states, steps, i, e)
        && steps[i].channel == channel && steps[i].scope == scope;
      MisdeliveryNeedsAlias(states, steps, i, e);
    }
    if Aliased(channel, scope) {
      var c: string, s: string :|
        && c != "" && ChannelKey(c, s) == ChannelKey(channel, scope)
        && (c != channel || NormalizeTidScope(s) != NormalizeTidScope(scope));
      AliasMisdelivers(channel, scope, c, s);
    }
  }

  /** For instance, "jobs" in the scope "a:b" reaches who subscribed to "b:jobs" in the scope "a". */
  lemma OutOfScope()
    ensures Misdeliverable("jobs", "a:b")
  {
    assert ChannelKey("b:jobs", "a") == ChannelKey("jobs", "a:b");
    AliasMisdelivers("jobs", "a:b", "b:jobs", "a");
  }

  lemma KeyDetermined(c1: string, s1: string, c2: string, s2: string)
    ensures c1 == c2 && NormalizeTidScope(s1) == NormalizeTidScope(s2) ==> ChannelKey(c1, s1) == ChannelKey(c2, s2)
  {
  }
}
