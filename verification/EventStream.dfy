/** The client's two streams: the ordered, bounded event queue that coalesces or
    closes when its consumer is too slow, and the latest-wins snapshot slot. Steps
    of producers, the worker, the closer and the consumer interleave freely. */
module EventStream {
  import opened Wrappers

  type Key(==, !new)

  /** An event with the number under which it was offered; only a coalescible
      event has a key. */
  datatype Event = Event(serial: nat, key: Option<Key>)

  // ---------------------------------------------------------------------
  // The event queue
  // ---------------------------------------------------------------------

  /** `Checking` is about to take the lock, `Sending` holds one event outside it,
      `Waiting` selects on the wake token and the stop signal. */
  datatype Pc = Checking | Sending(event: Event) | Waiting | Done

  /** `owedSignals` and `owedStops` count producers and closers that have left the
      lock and still have to signal. `abandoned` is the event in flight when the
      worker stopped. */
  datatype Subscription = Subscription(
    capacity: nat, queue: seq<Event>, wake: bool, stop: bool, closed: bool, tooSlow: bool,
    stream: seq<Event>, pc: Pc, abandoned: seq<Event>, owedSignals: nat, owedStops: nat,
    delivered: seq<Event>, offered: nat, accepted: seq<Event>)

  datatype Action = Offer(key: Option<Key>) | Close | SignalStop | Signal | Check | Push | SeeStop | SeeWake | Receive

  /** The last queued event with this key. */
  function LastWithKey(queue: seq<Event>, key: Key): (r: Option<nat>)
    ensures r.Some? ==> r.value < |queue| && queue[r.value].key == Some(key)
    ensures forall i :: 0 <= i < |queue| && queue[i].key == Some(key) ==> r.Some? && i <= r.value
  {
    if queue == [] then None
    else if queue[|queue| - 1].key == Some(key) then Some(|queue| - 1)
    else LastWithKey(queue[..|queue| - 1], key)
  }

  /** One event offered under the lock. A full queue replaces the last event of
      the same key, drops a coalescible event that has none, and closes on any
      other event. */
  function OfferStep(s: Subscription, key: Option<Key>): Subscription {
    var event := Event(s.offered, key);
    var s := s.(offered := s.offered + 1);
    if s.closed then s
    else if |s.queue| < s.capacity then
      s.(queue := s.queue + [event], owedSignals := s.owedSignals + 1,
         accepted := if key.None? then s.accepted + [event] else s.accepted)
    else if key.Some? then
      var last := LastWithKey(s.queue, key.value);
      if last.Some? then s.(queue := s.queue[last.value := event], owedSignals := s.owedSignals + 1) else s
    else s.(closed := true, tooSlow := true, owedStops := s.owedStops + 1)
  }

  function CheckStep(s: Subscription): Subscription {
    if s.closed then s.(pc := Done)
    else if s.queue != [] then s.(pc := Sending(s.queue[0]), queue := s.queue[1..])
    else s.(pc := Waiting)
  }

  /** One action; one that does not apply changes nothing. */
  function Step(s: Subscription, a: Action): Subscription {
    match a
    case Offer(key) => OfferStep(s, key)
    case Close => s.(closed := true, owedStops := s.owedStops + 1)
    case SignalStop => if s.owedStops > 0 then s.(stop := true, owedStops := s.owedStops - 1, owedSignals := s.owedSignals + 1) else s
    case Signal => if s.owedSignals > 0 then s.(wake := true, owedSignals := s.owedSignals - 1) else s
    case Check => if s.pc == Checking then CheckStep(s) else s
    case Push =>
      if s.pc.Sending? && |s.stream| < s.capacity then s.(stream := s.stream + [s.pc.event], pc := Checking) else s
    case SeeStop =>
      if !s.stop then s
      else if s.pc.Sending? then s.(pc := Done, abandoned := [s.pc.event])
      else if s.pc == Waiting then s.(pc := Done)
      else s
    case SeeWake => if s.pc == Waiting && s.wake then s.(wake := false, pc := Checking) else s
    case Receive => if s.stream == [] then s else s.(delivered := s.delivered + [s.stream[0]], stream := s.stream[1..])
  }

  function Run(s: Subscription, actions: seq<Action>): Subscription
    decreases |actions|
  {
    if actions == [] then s else Run(Step(s, actions[0]), actions[1..])
  }

  function Opened(capacity: nat): Subscription {
    Subscription(capacity, [], false, false, false, false, [], Checking, [], 0, 0, [], 0, [])
  }

  /** Everything accepted and not coalesced away, oldest first. */
  function Pipeline(s: Subscription): seq<Event> {
    s.delivered + s.stream + (if s.pc.Sending? then [s.pc.event] else []) + s.abandoned + s.queue
  }

  /** The events that may not be coalesced. */
  function Solid(events: seq<Event>): seq<Event> {
    if events == [] then []
    else Solid(events[..|events| - 1]) + (if events[|events| - 1].key.None? then [events[|events| - 1]] else [])
  }

  lemma {:induction false} SolidOfConcat(a: seq<Event>, b: seq<Event>)
    ensures Solid(a + b) == Solid(a) + Solid(b)
  {
    if b == [] {
      assert a + b == a;
    } else {
      assert (a + b)[..|a + b| - 1] == a + b[..|b| - 1];
      SolidOfConcat(a, b[..|b| - 1]);
    }
  }

  lemma {:induction false} CoalescingKeepsSolid(events: seq<Event>, i: nat, event: Event)
    requires i < |events| && events[i].key.Some? && event.key.Some?
    ensures Solid(events[i := event]) == Solid(events)
  {
    var last := |events| - 1;
    if i < last {
      assert events[i := event][..last] == events[..last][i := event];
      CoalescingKeepsSolid(events[..last], i, event);
    } else {
      assert events[i := event][..last] == events[..last];
    }
  }

  // --- What every interleaving keeps ---

  /** For each key the pipeline holds events in the order they were offered. */
  ghost predicate KeysInOrder(events: seq<Event>, bound: nat) {
    && (forall i :: 0 <= i < |events| ==> events[i].serial < bound)
    && forall i, j :: 0 <= i < j < |events| && events[i].key == events[j].key ==> events[i].serial < events[j].serial
  }

  ghost predicate Flowing(s: Subscription) {
    && Solid(Pipeline(s)) == s.accepted
    && KeysInOrder(Pipeline(s), s.offered)
    && |s.queue| <= s.capacity && |s.stream| <= s.capacity
    && (s.abandoned != [] ==> s.pc == Done)
    && (s.tooSlow ==> s.closed) && (s.pc == Done ==> s.closed)
    && (s.closed ==> s.stop || s.owedStops > 0)
    && (s.stop || s.owedStops > 0 ==> s.closed)
    && (s.pc == Waiting && s.queue != [] && !s.closed ==> s.wake || s.owedSignals > 0)
  }

  lemma OfferKeepsFlowing(s: Subscription, key: Option<Key>)
    requires Flowing(s)
    ensures Flowing(OfferStep(s, key))
  {
    hide Solid, KeysInOrder;
    var event := Event(s.offered, key);
    var ahead := s.delivered + s.stream + (if s.pc.Sending? then [s.pc.event] else []) + s.abandoned;
    assert Pipeline(s) == ahead + s.queue;
    if s.closed {
      LaterBound(Pipeline(s), s.offered);
    } else if |s.queue| < s.capacity {
      assert Pipeline(OfferStep(s, key)) == Pipeline(s) + [event];
      AppendNewest(Pipeline(s), event);
    } else if key.Some? && LastWithKey(s.queue, key.value).Some? {
      var i := LastWithKey(s.queue, key.value).value;
      assert Pipeline(OfferStep(s, key)) == Pipeline(s)[|ahead| + i := event];
      ReplaceWithNewest(ahead, s.queue, i, event);
      CoalescingKeepsSolid(Pipeline(s), |ahead| + i, event);
    } else {
      LaterBound(Pipeline(s), s.offered);
    }
  }

  lemma LaterBound(events: seq<Event>, bound: nat)
    requires KeysInOrder(events, bound)
    ensures KeysInOrder(events, bound + 1)
  {
  }

  lemma AppendNewest(events: seq<Event>, event: Event)
    requires KeysInOrder(events, event.serial)
    ensures KeysInOrder(events + [event], event.serial + 1)
    ensures Solid(events + [event]) == Solid(events) + if event.key.None? then [event] else []
  {
    assert (events + [event])[..|events|] == events;
  }

  /** The replaced event is the last of its key, so the newer one keeps order. */
  lemma ReplaceWithNewest(ahead: seq<Event>, queue: seq<Event>, i: nat, event: Event)
    requires KeysInOrder(ahead + queue, event.serial) && event.key.Some?
    requires LastWithKey(queue, event.key.value) == Some(i)
    ensures KeysInOrder((ahead + queue)[|ahead| + i := event], event.serial + 1)
    ensures (ahead + queue)[|ahead| + i].key == event.key
  {
    var events, at := ahead + queue, |ahead| + i;
    forall j | at < j < |events| ensures events[j].key != event.key {
      assert events[j] == queue[j - |ahead|];
    }
  }

  /** Only offers change what is in the pipeline; everything else moves it on. */
  lemma QueueMovesOn(before: seq<Event>, queue: seq<Event>)
    requires queue != []
    ensures before + [queue[0]] + [] + queue[1..] == before + [] + [] + queue
  {
    assert queue == [queue[0]] + queue[1..];
  }

  lemma CheckMovesOn(s: Subscription)
    requires s.abandoned != [] ==> s.pc == Done
    ensures Pipeline(Step(s, Check)) == Pipeline(s)
  {
    if s.pc == Checking && !s.closed && s.queue != [] {
      QueueMovesOn(s.delivered + s.stream, s.queue);
    }
  }

  lemma StreamMovesOn(delivered: seq<Event>, stream: seq<Event>, rest: seq<Event>)
    requires stream != []
    ensures (delivered + [stream[0]]) + stream[1..] + rest == delivered + stream + rest
  {
    assert stream == [stream[0]] + stream[1..];
  }

  lemma ReceiveMovesOn(s: Subscription)
    ensures Pipeline(Step(s, Receive)) == Pipeline(s)
  {
    if s.stream != [] {
      StreamMovesOn(s.delivered, s.stream, []);
    }
  }

  lemma PipelineMovesOn(s: Subscription, a: Action)
    requires !a.Offer? && (s.abandoned != [] ==> s.pc == Done)
    ensures Pipeline(Step(s, a)) == Pipeline(s)
  {
    hide OfferStep, CheckStep;
    match a
    case Check => CheckMovesOn(s);
    case Receive => ReceiveMovesOn(s);
    case _ =>
  }

  lemma StepKeepsFlowing(s: Subscription, a: Action)
    requires Flowing(s)
    ensures Flowing(Step(s, a))
  {
    hide Solid, KeysInOrder, Pipeline;
    if a.Offer? {
      OfferKeepsFlowing(s, a.key);
    } else {
      PipelineMovesOn(s, a);
    }
  }

  lemma {:induction false} RunKeepsFlowing(s: Subscription, actions: seq<Action>)
    requires Flowing(s)
    ensures Flowing(Run(s, actions))
    decreases |actions|
  {
    hide Flowing, Step;
    if actions != [] {
      StepKeepsFlowing(s, actions[0]);
      RunKeepsFlowing(Step(s, actions[0]), actions[1..]);
    }
  }

  // --- Prefix delivery ---

  /** The non-coalescible events of a run, as its offers alone number them. */
  function SolidOffers(actions: seq<Action>, next: nat): seq<Event>
    decreases |actions|
  {
    if actions == [] then []
    else if actions[0].Offer? then
      (if actions[0].key.None? then [Event(next, None)] else []) + SolidOffers(actions[1..], next + 1)
    else SolidOffers(actions[1..], next)
  }

  lemma {:induction false} ClosedAcceptsNothing(s: Subscription, actions: seq<Action>)
    requires s.closed
    ensures Run(s, actions).closed && Run(s, actions).accepted == s.accepted
    decreases |actions|
  {
    if actions != [] { ClosedAcceptsNothing(Step(s, actions[0]), actions[1..]); }
  }

  lemma StepAccepts(s: Subscription, a: Action)
    requires !s.closed
    ensures var t := Step(s, a);
            if t.closed then t.accepted == s.accepted
            else
              && t.accepted == s.accepted + (if a.Offer? && a.key.None? then [Event(s.offered, None)] else [])
              && t.offered == if a.Offer? then s.offered + 1 else s.offered
  {
  }

  lemma {:induction false} AcceptedOffers(s: Subscription, actions: seq<Action>)
    requires !s.closed
    ensures Run(s, actions).accepted <= s.accepted + SolidOffers(actions, s.offered)
    ensures !Run(s, actions).closed ==> Run(s, actions).accepted == s.accepted + SolidOffers(actions, s.offered)
    decreases |actions|
  {
    hide Step;
    if actions != [] {
      var t := Step(s, actions[0]);
      StepAccepts(s, actions[0]);
      if t.closed {
        ClosedAcceptsNothing(t, actions[1..]);
      } else {
        AcceptedOffers(t, actions[1..]);
        assert s.accepted + SolidOffers(actions, s.offered) == t.accepted + SolidOffers(actions[1..], t.offered);
      }
    }
  }

  lemma {:induction false} SolidIsMonotone(events: seq<Event>, more: seq<Event>)
    ensures Solid(events) <= Solid(events + more)
  {
    SolidOfConcat(events, more);
  }

  /** Over every interleaving the non-coalescible events a consumer has received
      are a prefix of those offered. While the subscription is open nothing is
      missing: received, buffered, in flight and queued ones are all of them, in
      order. A missing one means the subscription is closed. */
  lemma DeliveryIsAPrefix(capacity: nat, actions: seq<Action>)
    ensures var s := Run(Opened(capacity), actions);
            && Solid(s.delivered) <= SolidOffers(actions, 0)
            && (!s.closed ==> Solid(Pipeline(s)) == SolidOffers(actions, 0))
  {
    hide Run, SolidOffers, Solid;
    var start := Opened(capacity);
    OpenedIsFlowing(capacity);
    RunKeepsFlowing(start, actions);
    AcceptedOffers(start, actions);
    var s := Run(start, actions);
    var rest := s.stream + (if s.pc.Sending? then [s.pc.event] else []) + s.abandoned + s.queue;
    assert Pipeline(s) == s.delivered + rest;
    SolidIsMonotone(s.delivered, rest);
  }

  lemma OpenedIsFlowing(capacity: nat)
    ensures Flowing(Opened(capacity))
  {
    assert Pipeline(Opened(capacity)) == [];
  }

  /** A consumer never sees two events of one key out of order. */
  lemma KeysArriveInOrder(capacity: nat, actions: seq<Action>, i: nat, j: nat)
    requires i < j < |Run(Opened(capacity), actions).delivered|
    requires Run(Opened(capacity), actions).delivered[i].key == Run(Opened(capacity), actions).delivered[j].key
    ensures Run(Opened(capacity), actions).delivered[i].serial < Run(Opened(capacity), actions).delivered[j].serial
  {
    hide Run, Solid;
    OpenedIsFlowing(capacity);
    RunKeepsFlowing(Opened(capacity), actions);
    var s := Run(Opened(capacity), actions);
    assert s.delivered[i] == Pipeline(s)[i] && s.delivered[j] == Pipeline(s)[j];
  }

  /** Events never sit in the queue unnoticed: an open subscription whose worker
      waits has a wake token, or a producer that still owes one. */
  lemma QueuedEventsAreNoticed(capacity: nat, actions: seq<Action>)
    ensures var s := Run(Opened(capacity), actions);
            && |s.queue| <= capacity && |s.stream| <= capacity
            && (s.pc == Waiting && s.queue != [] && !s.closed ==> s.wake || s.owedSignals > 0)
            && (s.pc != Done && s.closed ==> s.stop || s.owedStops > 0)
  {
    hide Run, Solid;
    OpenedIsFlowing(capacity);
    RunKeepsFlowing(Opened(capacity), actions);
    CapacityIsFixed(Opened(capacity), actions);
  }

  lemma StepKeepsCapacity(s: Subscription, a: Action)
    ensures Step(s, a).capacity == s.capacity
  {
    hide LastWithKey;
  }

  lemma {:induction false} CapacityIsFixed(s: Subscription, actions: seq<Action>)
    ensures Run(s, actions).capacity == s.capacity
    decreases |actions|
  {
    hide Step;
    if actions != [] { StepKeepsCapacity(s, actions[0]); }
    if actions != [] { CapacityIsFixed(Step(s, actions[0]), actions[1..]); }
  }

  // --- The newest event of each key ---

  predicate HasKey(queue: seq<Event>, key: Key) { exists i :: 0 <= i < |queue| && queue[i].key == Some(key) }

  /** The number of the newest event of a key, offered while open, and whether it was
      dropped: there was no room, and no queued event for it to replace. */
  datatype Newest = Newest(serial: nat, dropped: bool)

  function NoteOffer(s: Subscription, newest: map<Key, Newest>, a: Action): map<Key, Newest> {
    if a.Offer? && a.key.Some? && !s.closed then
      newest[a.key.value := Newest(s.offered, |s.queue| >= s.capacity && !HasKey(s.queue, a.key.value))]
    else newest
  }

  function NewestOffers(s: Subscription, newest: map<Key, Newest>, actions: seq<Action>): map<Key, Newest>
    decreases |actions|
  {
    if actions == [] then newest else NewestOffers(Step(s, actions[0]), NoteOffer(s, newest, actions[0]), actions[1..])
  }

  /** The last queued event of a key is the newest of that key. */
  ghost predicate QueuesNewest(s: Subscription, newest: map<Key, Newest>) {
    forall i :: 0 <= i < |s.queue| && s.queue[i].key.Some? && IsLastOfKey(s.queue, i) ==>
      s.queue[i].key.value in newest && newest[s.queue[i].key.value] == Newest(s.queue[i].serial, false)
  }

  ghost predicate IsLastOfKey(queue: seq<Event>, i: nat)
    requires i < |queue|
  {
    forall j :: i < j < |queue| ==> queue[j].key != queue[i].key
  }

  /** The newest of a key, unless it was dropped, is somewhere between the offer and
      the consumer. */
  ghost predicate KeepsNewest(s: Subscription, newest: map<Key, Newest>) {
    forall key :: key in newest && !newest[key].dropped ==> Event(newest[key].serial, Some(key)) in Pipeline(s)
  }

  lemma LastWithKeyIffHasKey(queue: seq<Event>, key: Key)
    ensures LastWithKey(queue, key).Some? <==> HasKey(queue, key)
  {
  }

  /** Where the offered event goes, if anywhere. */
  lemma OfferedIsQueued(s: Subscription, key: Key) returns (i: nat)
    requires !s.closed && (|s.queue| < s.capacity || HasKey(s.queue, key))
    ensures var t := OfferStep(s, Some(key));
            && i < |t.queue| && t.queue[i] == Event(s.offered, Some(key)) && |s.queue| <= |t.queue|
            && (forall j :: 0 <= j < |s.queue| && j != i ==> t.queue[j] == s.queue[j])
            && (i < |s.queue| ==> s.queue[i].key == Some(key))
            && IsLastOfKey(t.queue, i) && |t.queue| <= |s.queue| + 1
            && (|t.queue| > |s.queue| ==> i == |s.queue|)
  {
    LastWithKeyIffHasKey(s.queue, key);
    i := if |s.queue| < s.capacity then |s.queue| else LastWithKey(s.queue, key).value;
  }

  lemma OtherwiseNothingIsQueued(s: Subscription, key: Option<Key>)
    requires s.closed || (|s.queue| >= s.capacity && (key.None? || !HasKey(s.queue, key.value)))
    ensures OfferStep(s, key).queue == s.queue
  {
    if key.Some? {
      LastWithKeyIffHasKey(s.queue, key.value);
    }
  }

  lemma SolidIsAppended(s: Subscription)
    requires !s.closed && |s.queue| < s.capacity
    ensures OfferStep(s, None).queue == s.queue + [Event(s.offered, None)]
  {
  }

  lemma OfferQueuesNewest(s: Subscription, newest: map<Key, Newest>, key: Option<Key>)
    requires QueuesNewest(s, newest) && |s.queue| <= s.capacity
    ensures QueuesNewest(OfferStep(s, key), NoteOffer(s, newest, Offer(key)))
  {
    hide OfferStep, HasKey, IsLastOfKey;
    var t, more := OfferStep(s, key), NoteOffer(s, newest, Offer(key));
    forall i | 0 <= i < |t.queue| && t.queue[i].key.Some? && IsLastOfKey(t.queue, i)
      ensures t.queue[i].key.value in more && more[t.queue[i].key.value] == Newest(t.queue[i].serial, false)
    {
      OneIsNewest(s, newest, key, i);
    }
  }

  lemma OneIsNewest(s: Subscription, newest: map<Key, Newest>, key: Option<Key>, i: nat)
    requires QueuesNewest(s, newest) && |s.queue| <= s.capacity
    requires var t := OfferStep(s, key); i < |t.queue| && t.queue[i].key.Some? && IsLastOfKey(t.queue, i)
    ensures var e, more := OfferStep(s, key).queue[i], NoteOffer(s, newest, Offer(key));
            e.key.value in more && more[e.key.value] == Newest(e.serial, false)
  {
    hide OfferStep, HasKey, IsLastOfKey;
    var t := OfferStep(s, key);
    if !s.closed && key.Some? && (|s.queue| < s.capacity || HasKey(s.queue, key.value)) {
      var at := OfferedIsQueued(s, key.value);
      LastIsUnique(t.queue, i, at);
      if i != at {
        assert t.queue[i] == s.queue[i];
        LastStaysLast(s.queue, t.queue, i);
      }
    } else if !s.closed && key.None? && |s.queue| < s.capacity {
      SolidIsAppended(s);
      LastStaysLast(s.queue, t.queue, i);
    } else {
      OtherwiseNothingIsQueued(s, key);
      if key.Some? && !s.closed {
        NoneHasKey(s.queue, key.value);
      }
    }
  }

  lemma LastIsUnique(queue: seq<Event>, i: nat, at: nat)
    requires i < |queue| && at < |queue| && IsLastOfKey(queue, i) && IsLastOfKey(queue, at)
    ensures i != at ==> queue[i].key != queue[at].key
  {
  }

  lemma NoneHasKey(queue: seq<Event>, key: Key)
    requires !HasKey(queue, key)
    ensures forall i :: 0 <= i < |queue| ==> queue[i].key != Some(key)
  {
  }

  lemma LastStaysLast(queue: seq<Event>, more: seq<Event>, i: nat)
    requires i < |queue| <= |more| && forall j :: i <= j < |queue| ==> queue[j].key == more[j].key || queue[j].key != queue[i].key
    requires IsLastOfKey(more, i) && more[i].key == queue[i].key
    ensures IsLastOfKey(queue, i)
  {
  }

  lemma StepQueuesNewest(s: Subscription, newest: map<Key, Newest>, a: Action)
    requires QueuesNewest(s, newest) && |s.queue| <= s.capacity
    ensures QueuesNewest(Step(s, a), NoteOffer(s, newest, a))
  {
    hide OfferStep;
    if a.Offer? {
      OfferQueuesNewest(s, newest, a.key);
    } else if a == Check && Step(s, a).queue != s.queue {
      var t := Step(s, a);
      forall i | 0 <= i < |t.queue| && t.queue[i].key.Some? && IsLastOfKey(t.queue, i) ensures IsLastOfKey(s.queue, i + 1) {
        assert s.queue[i + 1] == t.queue[i];
        forall j | i + 1 < j < |s.queue| ensures s.queue[j].key != s.queue[i + 1].key {
          assert s.queue[j] == t.queue[j - 1];
        }
      }
    }
  }

  lemma OfferLeavesAhead(s: Subscription, key: Option<Key>)
    ensures var t := OfferStep(s, key);
            && t.delivered == s.delivered && t.stream == s.stream && t.pc == s.pc && t.abandoned == s.abandoned
  {
  }

  lemma InPipeline(s: Subscription, e: Event)
    ensures e in Pipeline(s) <==> e in Pipeline(s.(queue := [])) || e in s.queue
  {
    assert Pipeline(s) == Pipeline(s.(queue := [])) + s.queue;
  }

  lemma OfferKeepsNewest(s: Subscription, newest: map<Key, Newest>, key: Option<Key>)
    requires KeepsNewest(s, newest) && |s.queue| <= s.capacity
    ensures KeepsNewest(OfferStep(s, key), NoteOffer(s, newest, Offer(key)))
  {
    hide OfferStep, HasKey;
    var t, more := OfferStep(s, key), NoteOffer(s, newest, Offer(key));
    OfferLeavesAhead(s, key);
    assert Pipeline(t.(queue := [])) == Pipeline(s.(queue := []));
    forall other | other in more && !more[other].dropped ensures Event(more[other].serial, Some(other)) in Pipeline(t) {
      var e := Event(more[other].serial, Some(other));
      InPipeline(s, e);
      InPipeline(t, e);
      OfferKeepsOthers(s, key, e);
    }
  }

  /** The offered event is queued or replaces none but an event of its key. */
  lemma OfferKeepsOthers(s: Subscription, key: Option<Key>, e: Event)
    requires |s.queue| <= s.capacity
    ensures e in s.queue && (e.key != key || s.closed) ==> e in OfferStep(s, key).queue
    ensures !s.closed && key.Some? && e == Event(s.offered, key) && (|s.queue| < s.capacity || HasKey(s.queue, key.value)) ==>
              e in OfferStep(s, key).queue
  {
    hide HasKey, OfferStep;
    if !s.closed && key.Some? && (|s.queue| < s.capacity || HasKey(s.queue, key.value)) {
      var i := OfferedIsQueued(s, key.value);
      if e in s.queue && e.key != key {
        var j :| 0 <= j < |s.queue| && s.queue[j] == e;
        assert OfferStep(s, key).queue[j] == e;
      }
    } else if !s.closed && key.None? && |s.queue| < s.capacity {
      SolidIsAppended(s);
    } else {
      OtherwiseNothingIsQueued(s, key);
    }
  }

  lemma {:induction false} RunKnowsNewest(s: Subscription, newest: map<Key, Newest>, actions: seq<Action>)
    requires Flowing(s) && QueuesNewest(s, newest) && KeepsNewest(s, newest)
    ensures QueuesNewest(Run(s, actions), NewestOffers(s, newest, actions))
    ensures KeepsNewest(Run(s, actions), NewestOffers(s, newest, actions))
    decreases |actions|
  {
    hide QueuesNewest, KeepsNewest, Step, NoteOffer, Solid, KeysInOrder;
    if actions != [] {
      StepKeepsFlowing(s, actions[0]);
      StepQueuesNewest(s, newest, actions[0]);
      StepKeepsNewest(s, newest, actions[0]);
      RunKnowsNewest(Step(s, actions[0]), NoteOffer(s, newest, actions[0]), actions[1..]);
    }
  }

  lemma StepKeepsNewest(s: Subscription, newest: map<Key, Newest>, a: Action)
    requires Flowing(s) && KeepsNewest(s, newest)
    ensures KeepsNewest(Step(s, a), NoteOffer(s, newest, a))
  {
    hide Solid, KeysInOrder, OfferStep, Pipeline;
    if a.Offer? {
      OfferKeepsNewest(s, newest, a.key);
    } else {
      PipelineMovesOn(s, a);
    }
  }

  /** Over every interleaving: of every key in the queue the last event is the newest
      that was offered, and the newest of any key, unless it found the queue full and
      without an event of that key, is queued, on its way or delivered. */
  lemma TheNewestOfAKeyIsKept(capacity: nat, actions: seq<Action>, i: nat, key: Key)
    ensures var s, newest := Run(Opened(capacity), actions), NewestOffers(Opened(capacity), map[], actions);
            && (i < |s.queue| && s.queue[i].key == Some(key) && IsLastOfKey(s.queue, i) ==>
                  key in newest && newest[key] == Newest(s.queue[i].serial, false))
            && (key in newest && !newest[key].dropped ==> Event(newest[key].serial, Some(key)) in Pipeline(s))
  {
    hide Run, NewestOffers, Solid, KeysInOrder;
    OpenedIsFlowing(capacity);
    RunKnowsNewest(Opened(capacity), map[], actions);
  }

  /** An open subscription is closed by nothing but its closing, or by an event that
      may not be coalesced and finds the queue full; only then is it too slow. */
  lemma OnlySolidEventsOverflow(capacity: nat, actions: seq<Action>, a: Action)
    requires !Run(Opened(capacity), actions).closed
    ensures var s := Run(Opened(capacity), actions);
            var t := Step(s, a);
            && (t.closed <==> a == Close || (a == Offer(None) && |s.queue| == capacity))
            && (t.tooSlow <==> a == Offer(None) && |s.queue| == capacity)
  {
    hide Run, Solid, KeysInOrder, Pipeline;
    OpenedIsFlowing(capacity);
    RunKeepsFlowing(Opened(capacity), actions);
    CapacityIsFixed(Opened(capacity), actions);
  }

  /** An open subscription queues an event exactly if there is room, or a queued event of
      its key to take the place of; and signals each event it queues. */
  lemma AnOfferIsQueuedIff(capacity: nat, actions: seq<Action>, key: Option<Key>)
    ensures var s := Run(Opened(capacity), actions);
            var t := Step(s, Offer(key));
            && (Event(s.offered, key) in t.queue <==>
                  !s.closed && (|s.queue| < capacity || (key.Some? && exists i :: 0 <= i < |s.queue| && s.queue[i].key == key)))
            && (Event(s.offered, key) in t.queue ==> t.owedSignals == s.owedSignals + 1)
            && t.offered == s.offered + 1
  {
    hide Run, Solid;
    OpenedIsFlowing(capacity);
    RunKeepsFlowing(Opened(capacity), actions);
    CapacityIsFixed(Opened(capacity), actions);
    var s := Run(Opened(capacity), actions);
    QueueIsOlder(s);
    if key.Some? {
      LastWithKeyIffHasKey(s.queue, key.value);
    }
    if !s.closed && key.Some? && (|s.queue| < s.capacity || HasKey(s.queue, key.value)) {
      var i := OfferedIsQueued(s, key.value);
    } else if !s.closed && key.None? && |s.queue| < s.capacity {
      SolidIsAppended(s);
    } else {
      OtherwiseNothingIsQueued(s, key);
    }
  }

  lemma QueueIsOlder(s: Subscription)
    requires Flowing(s)
    ensures forall i :: 0 <= i < |s.queue| ==> s.queue[i].serial < s.offered
  {
    var all := Pipeline(s);
    forall i | 0 <= i < |s.queue| ensures s.queue[i].serial < s.offered {
      assert all[|all| - |s.queue| + i] == s.queue[i];
    }
  }

  /** The queue as an object. */
  class EventSubscription {
    const capacity: nat
    var queue: seq<Event>
    var closed: bool
    var tooSlow: bool
    ghost var offered: nat

    constructor (capacity: nat)
      ensures this.capacity == capacity && queue == [] && !closed && !tooSlow && offered == 0
    {
      this.capacity, queue, closed, tooSlow, offered := capacity, [], false, false, 0;
    }

    /** The critical section of a producer; `signal` and `stopping` say what it
        still does outside the lock. */
    method Enqueue(event: Event) returns (signal: bool, stopping: bool)
      requires event.serial == offered
      modifies this
      ensures forall s: Subscription ::
                s.capacity == capacity && s.queue == old(queue) && s.closed == old(closed) && s.tooSlow == old(tooSlow) &&
                s.offered == old(offered) ==>
                var t := OfferStep(s, event.key);
                && t.queue == queue && t.closed == closed && t.tooSlow == tooSlow && t.offered == offered
                && (signal <==> t.owedSignals == s.owedSignals + 1) && (stopping <==> t.owedStops == s.owedStops + 1)
    {
      offered := offered + 1;
      if closed {
        return false, false;
      }
      if |queue| < capacity {
        queue := queue + [event];
        return true, false;
      }
      if event.key.Some? {
        ghost var last := LastWithKey(queue, event.key.value);
        var i := |queue|;
        while i > 0
          invariant 0 <= i <= |queue| && queue == old(queue)
          invariant forall j :: i <= j < |queue| ==> queue[j].key != event.key
        {
          i := i - 1;
          if queue[i].key == event.key {
            assert last == Some(i);
            queue := queue[i := event];
            return true, false;
          }
        }
        assert last.None?;
        return false, false;
      }
      closed, tooSlow := true, true;
      return false, true;
    }

    /** The worker's critical section: an event to send, to stop, or to wait. */
    method Take() returns (next: Pc)
      modifies this`queue
      ensures forall s: Subscription :: s.queue == old(queue) && s.closed == closed ==>
                CheckStep(s).queue == queue && CheckStep(s).pc == next
    {
      if closed {
        return Done;
      }
      if |queue| > 0 {
        next := Sending(queue[0]);
        queue := queue[1..];
        return;
      }
      return Waiting;
    }
  }

  // ---------------------------------------------------------------------
  // The snapshot slot
  // ---------------------------------------------------------------------

  /** A publisher holds the lock from its first attempt to its last send, but the
      consumer may take from the slot between any two of its steps. */
  datatype Publisher = Free | Full(revision: nat) | Drained(revision: nat)

  datatype Snapshots = Snapshots(slot: Option<nat>, closed: bool, publisher: Publisher, received: seq<nat>, latest: nat)

  datatype SnapshotAction = OfferSnapshot(revision: nat) | DrainOld | SendNew | TakeSnapshot | CloseSnapshots

  function SnapshotStep(s: Snapshots, a: SnapshotAction): Snapshots {
    match a
    case OfferSnapshot(revision) =>
      if s.publisher != Free || s.closed then s
      else if s.slot.None? then s.(slot := Some(revision), latest := revision)
      else s.(publisher := Full(revision))
    case DrainOld => if s.publisher.Full? then s.(slot := None, publisher := Drained(s.publisher.revision)) else s
    case SendNew =>
      if s.publisher.Drained? && s.slot.None? then
        s.(slot := Some(s.publisher.revision), latest := s.publisher.revision, publisher := Free)
      else s
    case TakeSnapshot => if s.slot.None? then s else s.(received := s.received + [s.slot.value], slot := None)
    case CloseSnapshots => if s.publisher == Free then s.(closed := true) else s
  }

  function RunSnapshots(s: Snapshots, actions: seq<SnapshotAction>): Snapshots
    decreases |actions|
  {
    if actions == [] then s else RunSnapshots(SnapshotStep(s, actions[0]), actions[1..])
  }

  /** Revisions are offered in rising order. */
  predicate Rising(s: Snapshots, a: SnapshotAction) {
    a.OfferSnapshot? ==> a.revision > s.latest && (s.publisher != Free ==> a.revision > s.publisher.revision)
  }

  predicate AllRising(s: Snapshots, actions: seq<SnapshotAction>)
    decreases |actions|
  {
    actions == [] || (Rising(s, actions[0]) && AllRising(SnapshotStep(s, actions[0]), actions[1..]))
  }

  ghost predicate StrictlyRising(revisions: seq<nat>, bound: nat) {
    && (forall i :: 0 <= i < |revisions| ==> revisions[i] <= bound)
    && forall i, j :: 0 <= i < j < |revisions| ==> revisions[i] < revisions[j]
  }

  function Visible(s: Snapshots): seq<nat> { s.received + if s.slot.Some? then [s.slot.value] else [] }

  /** What the consumer has and will see rises; a publisher that has drained finds
      the slot empty; a free publisher has left its newest snapshot to be seen. */
  ghost predicate LatestWins(s: Snapshots) {
    && StrictlyRising(Visible(s), s.latest)
    && (s.publisher.Drained? ==> s.slot.None?)
    && (s.publisher != Free ==> s.publisher.revision > s.latest)
    && (s.publisher == Free ==> Visible(s) != [] && Visible(s)[|Visible(s)| - 1] == s.latest)
  }

  lemma RisingAppends(revisions: seq<nat>, bound: nat, next: nat)
    requires StrictlyRising(revisions, bound) && bound < next
    ensures StrictlyRising(revisions + [next], next)
  {
  }

  lemma RisingDrops(revisions: seq<nat>, bound: nat, n: nat)
    requires StrictlyRising(revisions, bound) && n <= |revisions|
    ensures StrictlyRising(revisions[..n], bound)
  {
  }

  lemma SnapshotStepKeeps(s: Snapshots, a: SnapshotAction)
    requires LatestWins(s) && Rising(s, a)
    ensures LatestWins(SnapshotStep(s, a))
  {
    hide StrictlyRising;
    var t := SnapshotStep(s, a);
    match a
    case OfferSnapshot(revision) =>
      if s.publisher == Free && !s.closed && s.slot.None? {
        RisingAppends(Visible(s), s.latest, revision);
        assert Visible(t) == Visible(s) + [revision];
      } else {
        assert Visible(t) == Visible(s);
      }
    case DrainOld =>
      RisingDrops(Visible(s), s.latest, |s.received|);
      assert Visible(s)[..|s.received|] == s.received;
      assert Visible(t) == Visible(s) || Visible(t) == s.received;
    case SendNew =>
      if s.publisher.Drained? && s.slot.None? {
        RisingAppends(Visible(s), s.latest, s.publisher.revision);
        assert Visible(t) == Visible(s) + [s.publisher.revision];
      }
    case _ => assert Visible(t) == Visible(s);
  }

  /** Over every interleaving the consumer sees strictly rising revisions, a
      publisher never waits for room, and the newest snapshot is never lost. */
  lemma {:induction false} SnapshotsAreLatestWins(s: Snapshots, actions: seq<SnapshotAction>)
    requires LatestWins(s) && AllRising(s, actions)
    ensures LatestWins(RunSnapshots(s, actions))
    decreases |actions|
  {
    hide LatestWins, SnapshotStep, Rising;
    if actions != [] {
      SnapshotStepKeeps(s, actions[0]);
      SnapshotsAreLatestWins(SnapshotStep(s, actions[0]), actions[1..]);
    }
  }

  /** The newest revision offered to an open slot by a publisher that got the lock. */
  function NewestOffered(s: Snapshots, actions: seq<SnapshotAction>, newest: nat): nat
    decreases |actions|
  {
    if actions == [] then newest
    else
      NewestOffered(SnapshotStep(s, actions[0]), actions[1..],
                    if actions[0].OfferSnapshot? && s.publisher == Free && !s.closed then actions[0].revision else newest)
  }

  function Carrying(s: Snapshots): nat { if s.publisher == Free then s.latest else s.publisher.revision }

  lemma {:induction false} NewestIsCarried(s: Snapshots, actions: seq<SnapshotAction>)
    ensures NewestOffered(s, actions, Carrying(s)) == Carrying(RunSnapshots(s, actions))
    decreases |actions|
  {
    if actions != [] {
      NewestIsCarried(SnapshotStep(s, actions[0]), actions[1..]);
    }
  }

  /** Whenever no publisher is at work, the last snapshot the consumer has taken or will
      take is the newest that was offered; and two steps of a publisher at work bring it
      there. */
  lemma TheNewestOfferedIsSeen(s: Snapshots, actions: seq<SnapshotAction>)
    requires LatestWins(s) && AllRising(s, actions)
    ensures var end, newest := RunSnapshots(s, actions), NewestOffered(s, actions, Carrying(s));
            var settled := SnapshotStep(SnapshotStep(end, DrainOld), SendNew);
            && (end.publisher == Free ==> Visible(end) != [] && Visible(end)[|Visible(end)| - 1] == newest)
            && (end.publisher != Free ==> settled.slot == Some(newest) && settled.publisher == Free)
  {
    hide RunSnapshots, AllRising, NewestOffered;
    SnapshotsAreLatestWins(s, actions);
    NewestIsCarried(s, actions);
  }

  lemma ANewSlotIsLatestWins(initial: nat)
    ensures LatestWins(Snapshots(Some(initial), false, Free, [], initial))
  {
  }

  /** The slot as an object; the lock is held from the first attempt to the last
      send. */
  class SnapshotSubscription {
    var slot: Option<nat>
    var closed: bool
    ghost var received: seq<nat>
    ghost var latest: nat

    constructor (initial: nat)
      ensures View(Free) == Snapshots(Some(initial), false, Free, [], initial) && LatestWins(View(Free))
    {
      slot, closed, received, latest := Some(initial), false, [], initial;
      new;
      ANewSlotIsLatestWins(initial);
    }

    ghost function View(publisher: Publisher): Snapshots
      reads this
    {
      Snapshots(slot, closed, publisher, received, latest)
    }

    /** Tries to send, else drops what nobody took and sends. */
    method Offer(revision: nat)
      modifies this`slot, this`latest
      ensures View(Free) == SnapshotStep(SnapshotStep(SnapshotStep(old(View(Free)), OfferSnapshot(revision)), DrainOld), SendNew)
      ensures !closed ==> slot == Some(revision)
    {
      if closed {
        return;
      }
      if slot.None? {
        slot, latest := Some(revision), revision;
        return;
      }
      slot := None;
      slot, latest := Some(revision), revision;
    }

    method CloseStream()
      modifies this`closed
      ensures View(Free) == SnapshotStep(old(View(Free)), CloseSnapshots)
    {
      if !closed {
        closed := true;
      }
    }
  }
}
