/** The in-process event bus: sequence numbers, per-topic replay rings, subscriptions with bounded
    channels, and a publish whose deliveries happen one by one after its lock is released. */
module EventBus {
  import opened Common

  type Topic = string
  type SubId = nat

  datatype Event = Event(number: nat, topics: seq<Topic>, payload: string)
  datatype Delivery = Delivery(topic: Topic, event: Event)

  const RING_SIZE := 1024
  const LIVE_BUFFER := 64

  /** One subscription. pending holds deliveries some publisher has picked this subscriber for and not
      yet attempted; received and replay are what its reader already has. */
  datatype Sub = Sub(
    topics: set<Topic>, lastSeq: nat, since: nat, registered: bool, done: bool,
    replay: seq<Delivery>, received: seq<Delivery>, channel: seq<Delivery>, pending: seq<Delivery>)

  /** log is everything ever published, in order of sequence number. */
  datatype State = State(log: seq<Event>, subs: map<SubId, Sub>)

  // ----- Rings -----

  function Repeat(ev: Event, topics: seq<Topic>, t: Topic): seq<Event> {
    if topics == [] then []
    else
      var n := |topics| - 1;
      Repeat(ev, topics[..n], t) + if topics[n] == t then [ev] else []
  }

  /** The events appended to topic t's ring over the whole log, once per mention of the topic. */
  function Appended(log: seq<Event>, t: Topic): seq<Event> {
    if log == [] then []
    else
      var n := |log| - 1;
      Appended(log[..n], t) + Repeat(log[n], log[n].topics, t)
  }

  function Last(s: seq<Event>): seq<Event> {
    if |s| > RING_SIZE then s[|s| - RING_SIZE..] else s
  }

  /** What a ring must hold: the last RING_SIZE appended events. */
  function Ring(log: seq<Event>, t: Topic): seq<Event> {
    Last(Appended(log, t))
  }

  lemma LastAppend(s: seq<Event>, e: Event)
    ensures Last(Last(s) + [e]) == Last(s + [e])
  {
  }

  lemma {:induction false} InRepeat(ev: Event, topics: seq<Topic>, t: Topic, e: Event)
    ensures e in Repeat(ev, topics, t) <==> e == ev && t in topics
  {
    if topics != [] {
      var n := |topics| - 1;
      InRepeat(ev, topics[..n], t, e);
      assert topics == topics[..n] + [topics[n]];
    }
  }

  lemma {:induction false} InAppended(log: seq<Event>, t: Topic, e: Event)
    ensures e in Appended(log, t) <==> e in log && t in e.topics
  {
    if log != [] {
      var n := |log| - 1;
      InAppended(log[..n], t, e);
      InRepeat(log[n], log[n].topics, t, e);
      assert log == log[..n] + [log[n]];
    }
  }

  /** Sequence numbers count up from one. */
  ghost predicate Numbered(log: seq<Event>) {
    forall i :: 0 <= i < |log| ==> log[i].number == i + 1 && log[i].topics != []
  }

  // ----- Who gets what -----

  predicate Matches(topics: set<Topic>, ev: Event) {
    exists t :: t in ev.topics && t in topics
  }

  /** The topic a live delivery carries: the first of the event's topics subscribed to. */
  ghost function Label(topics: set<Topic>, wanted: seq<Topic>): Topic
    requires exists t :: t in wanted && t in topics
  {
    if wanted[0] in topics then wanted[0] else Label(topics, wanted[1..])
  }

  /** The sequence numbers a new subscriber is replayed. */
  ghost function Retained(log: seq<Event>, topics: set<Topic>, lastSeq: nat): set<nat> {
    if lastSeq == 0 then {}
    else set t, i | t in topics && 0 <= i < |Ring(log, t)| && Ring(log, t)[i].number > lastSeq :: Ring(log, t)[i].number
  }

  ghost function Published(log: seq<Event>, topics: set<Topic>, since: nat): set<nat> {
    set i | since <= i < |log| && Matches(topics, log[i]) :: i + 1
  }

  // ----- Atomic steps -----

  function Stamp(st: State, ev: Event): Event {
    ev.(number := |st.log| + 1)
  }

  /** The locked phase of Publish. */
  ghost function Publish(st: State, ev: Event): State {
    if ev.topics == [] then st
    else
      var e := Stamp(st, ev);
      State(st.log + [e], map id | id in st.subs :: Targeted(st.subs[id], e))
  }

  ghost function Targeted(s: Sub, e: Event): Sub {
    if s.registered && Matches(s.topics, e) then
      s.(pending := s.pending + [Delivery(Label(s.topics, e.topics), e)])
    else s
  }

  function Without<T>(s: seq<T>, i: nat): seq<T>
    requires i < |s|
  {
    s[..i] + s[i + 1..]
  }

  /** One unlocked delivery: refused when disconnected (or, as select may choose either ready case,
      accepted all the same), queued when there is room, and otherwise the subscriber is disconnected. */
  function Deliver(s: Sub, i: nat, chooseDone: bool): Sub
    requires i < |s.pending|
  {
    var rest := s.(pending := Without(s.pending, i));
    if s.done && (chooseDone || |s.channel| >= LIVE_BUFFER) then rest
    else if |s.channel| < LIVE_BUFFER then rest.(channel := s.channel + [s.pending[i]])
    else rest.(done := true)
  }

  function Receive(s: Sub): Sub
    requires s.channel != []
  {
    s.(received := s.received + [s.channel[0]], channel := s.channel[1..])
  }

  ghost predicate Sorted(replay: seq<Delivery>) {
    forall i, j :: 0 <= i < j < |replay| ==> replay[i].event.number < replay[j].event.number
  }

  function NumberSeq(s: seq<Delivery>): seq<nat> {
    seq(|s|, i requires 0 <= i < |s| => s[i].event.number)
  }

  function Numbers(s: seq<Delivery>): multiset<nat> {
    multiset(NumberSeq(s))
  }

  /** The locked phase of Subscribe: the replay is sorted and holds exactly the retained events. */
  ghost predicate Subscribes(st: State, id: SubId, topics: set<Topic>, lastSeq: nat, replay: seq<Delivery>,
                             next: State)
  {
    && id !in st.subs
    && Sorted(replay) && Numbers(replay) == multiset(Retained(st.log, topics, lastSeq))
    && AllGenuine(st.log, topics, replay)
    && next == st.(subs := st.subs[id := Sub(topics, lastSeq, |st.log|, true, false, replay, [], [], [])])
  }

  /** Any atomic step of any goroutine. */
  ghost predicate Step(st: State, next: State) {
    || (exists ev :: next == Publish(st, ev))
    || (exists id, topics, lastSeq, replay :: Subscribes(st, id, topics, lastSeq, replay, next))
    || (exists id, i, choose :: id in st.subs && 0 <= i < |st.subs[id].pending|
                                && next == st.(subs := st.subs[id := Deliver(st.subs[id], i, choose)]))
    || (exists id :: id in st.subs && st.subs[id].channel != []
                     && next == st.(subs := st.subs[id := Receive(st.subs[id])]))
    || (exists id :: id in st.subs && next == st.(subs := st.subs[id := st.subs[id].(done := true)]))
    || (exists id :: id in st.subs && st.subs[id].done
                     && next == st.(subs := st.subs[id := st.subs[id].(registered := false)]))
  }

  const INITIAL := State([], map[])

  ghost predicate IsRun(states: seq<State>) {
    |states| > 0 && states[0] == INITIAL
    && forall i :: 0 <= i < |states| - 1 ==> Step(states[i], states[i + 1])
  }

  // ----- Exactly once -----

  /** Everything a subscriber has, will read, or is still to be offered. */
  ghost function Accounted(s: Sub): multiset<nat> {
    Numbers(s.replay) + Numbers(s.received) + Numbers(s.channel) + Numbers(s.pending)
  }

  /** What it should get: the retained events it asked for, and every match published since. */
  ghost function Due(log: seq<Event>, s: Sub): multiset<nat>
    requires s.since <= |log|
  {
    multiset(Retained(log[..s.since], s.topics, s.lastSeq) + Published(log, s.topics, s.since))
  }

  /** Never twice and never unasked, connected or not; while connected, all of it. */
  ghost predicate ExactlyOnce(log: seq<Event>, s: Sub) {
    && s.since <= |log|
    && Accounted(s) <= Due(log, s)
    && (!s.done ==> s.registered && Accounted(s) == Due(log, s))
  }

  /** A delivery carries a published event unchanged, under one of its topics that was subscribed to. */
  ghost predicate Genuine(log: seq<Event>, topics: set<Topic>, d: Delivery) {
    && 1 <= d.event.number <= |log| && log[d.event.number - 1] == d.event
    && d.topic in topics && d.topic in d.event.topics
  }

  ghost predicate AllGenuine(log: seq<Event>, topics: set<Topic>, s: seq<Delivery>) {
    forall d :: d in s ==> Genuine(log, topics, d)
  }

  ghost predicate Authentic(log: seq<Event>, s: Sub) {
    && AllGenuine(log, s.topics, s.replay) && AllGenuine(log, s.topics, s.received)
    && AllGenuine(log, s.topics, s.channel) && AllGenuine(log, s.topics, s.pending)
  }

  ghost predicate Served(log: seq<Event>, s: Sub) {
    ExactlyOnce(log, s) && Authentic(log, s)
  }

  ghost predicate Inv(st: State) {
    && Numbered(st.log)
    && forall id :: id in st.subs ==> Served(st.log, st.subs[id])
  }

  lemma LabelFits(topics: set<Topic>, wanted: seq<Topic>)
    requires exists t :: t in wanted && t in topics
    ensures Label(topics, wanted) in topics && Label(topics, wanted) in wanted
  {
  }

  lemma GenuineStays(log: seq<Event>, topics: set<Topic>, s: seq<Delivery>, e: Event)
    requires AllGenuine(log, topics, s)
    ensures AllGenuine(log + [e], topics, s)
  {
  }

  lemma PublishAuthentic(log: seq<Event>, s: Sub, e: Event)
    requires Authentic(log, s) && e.number == |log| + 1
    ensures Authentic(log + [e], Targeted(s, e))
  {
    hide AllGenuine, Label;
    GenuineStays(log, s.topics, s.replay, e);
    GenuineStays(log, s.topics, s.received, e);
    GenuineStays(log, s.topics, s.channel, e);
    GenuineStays(log, s.topics, s.pending, e);
    if s.registered && Matches(s.topics, e) {
      LabelFits(s.topics, e.topics);
      OneMoreGenuine(log + [e], s.topics, s.pending, Delivery(Label(s.topics, e.topics), e));
    }
  }

  lemma OneMoreGenuine(log: seq<Event>, topics: set<Topic>, s: seq<Delivery>, d: Delivery)
    requires AllGenuine(log, topics, s) && Genuine(log, topics, d)
    ensures AllGenuine(log, topics, s + [d])
  {
  }

  lemma DeliverAuthentic(log: seq<Event>, s: Sub, i: nat, choose: bool)
    requires Authentic(log, s) && i < |s.pending|
    ensures Authentic(log, Deliver(s, i, choose))
  {
    hide Genuine;
    assert s.pending[i] in s.pending;
  }

  lemma ReceiveAuthentic(log: seq<Event>, s: Sub)
    requires Authentic(log, s) && s.channel != []
    ensures Authentic(log, Receive(s))
  {
    hide Genuine;
    assert s.channel[0] in s.channel;
  }

  lemma NumbersAppend(a: seq<Delivery>, b: seq<Delivery>)
    ensures Numbers(a + b) == Numbers(a) + Numbers(b)
  {
    assert NumberSeq(a + b) == NumberSeq(a) + NumberSeq(b);
  }

  lemma NumbersOne(d: Delivery)
    ensures Numbers([d]) == multiset{d.event.number}
  {
    assert NumberSeq([d]) == [d.event.number];
  }

  lemma NumbersWithout(s: seq<Delivery>, i: nat)
    requires i < |s|
    ensures Numbers(s) == Numbers(Without(s, i)) + multiset{s[i].event.number}
  {
    assert NumberSeq(s) == NumberSeq(s[..i]) + [s[i].event.number] + NumberSeq(s[i + 1..]);
    assert NumberSeq(Without(s, i)) == NumberSeq(s[..i]) + NumberSeq(s[i + 1..]);
  }

  lemma DeliverServes(log: seq<Event>, s: Sub, i: nat, choose: bool)
    requires Served(log, s) && i < |s.pending|
    ensures Served(log, Deliver(s, i, choose))
  {
    hide ExactlyOnce, Authentic;
    DeliverOnce(log, s, i, choose);
    DeliverAuthentic(log, s, i, choose);
  }

  lemma ReceiveServes(log: seq<Event>, s: Sub)
    requires Served(log, s) && s.channel != []
    ensures Served(log, Receive(s))
  {
    hide ExactlyOnce, Authentic;
    ReceiveOnce(log, s);
    ReceiveAuthentic(log, s);
  }

  lemma DeliverOnce(log: seq<Event>, s: Sub, i: nat, choose: bool)
    requires ExactlyOnce(log, s) && i < |s.pending|
    ensures ExactlyOnce(log, Deliver(s, i, choose))
  {
    NumbersWithout(s.pending, i);
    NumbersAppend(s.channel, [s.pending[i]]);
    NumbersOne(s.pending[i]);
    var s' := Deliver(s, i, choose);
    assert Due(log, s') == Due(log, s);
  }

  lemma ReceiveOnce(log: seq<Event>, s: Sub)
    requires ExactlyOnce(log, s) && s.channel != []
    ensures ExactlyOnce(log, Receive(s))
  {
    NumbersWithout(s.channel, 0);
    assert Without(s.channel, 0) == s.channel[1..];
    NumbersAppend(s.received, [s.channel[0]]);
    NumbersOne(s.channel[0]);
    assert Due(log, Receive(s)) == Due(log, s);
  }

  lemma PublishedGrows(log: seq<Event>, topics: set<Topic>, since: nat, e: Event)
    requires since <= |log|
    ensures Published(log + [e], topics, since) ==
            Published(log, topics, since) + if Matches(topics, e) then {|log| + 1} else {}
    ensures |log| + 1 !in Published(log, topics, since)
  {
    hide Matches;
    var log' := log + [e];
    var before, after := Published(log, topics, since), Published(log', topics, since);
    assert log'[|log|] == e && log'[..|log|] == log;
    forall n ensures n in after <==> n in before || (n == |log| + 1 && Matches(topics, e)) {
      if 1 <= n <= |log| {
        assert log'[n - 1] == log[n - 1];
      }
    }
  }

  /** A replayed number is one already published. */
  lemma RetainedIsPublished(log: seq<Event>, topics: set<Topic>, lastSeq: nat, n: nat)
    requires Numbered(log) && n in Retained(log, topics, lastSeq)
    ensures lastSeq < n <= |log| && Matches(topics, log[n - 1])
  {
    hide Ring;
    var t, i :|
      t in topics && 0 <= i < |Ring(log, t)| && Ring(log, t)[i].number > lastSeq && n == Ring(log, t)[i].number;
    RingInLog(log, t, Ring(log, t)[i]);
    assert t in log[n - 1].topics;
  }

  lemma RingInLog(log: seq<Event>, t: Topic, e: Event)
    requires Numbered(log) && e in Ring(log, t)
    ensures 1 <= e.number <= |log| && log[e.number - 1] == e && t in e.topics
  {
    assert e in Appended(log, t);
    InAppended(log, t, e);
    var k :| 0 <= k < |log| && log[k] == e;
  }

  /** Publishing adds one due event to exactly the subscribers whose topics it matches. */
  lemma DueGrows(log: seq<Event>, s: Sub, e: Event)
    requires Numbered(log) && s.since <= |log|
    ensures Due(log + [e], s) == Due(log, s) + if Matches(s.topics, e) then multiset{|log| + 1} else multiset{}
  {
    hide Matches, Retained, Published;
    assert (log + [e])[..s.since] == log[..s.since];
    PublishedGrows(log, s.topics, s.since, e);
    var retained := Retained(log[..s.since], s.topics, s.lastSeq);
    if |log| + 1 in retained {
      RetainedIsPublished(log[..s.since], s.topics, s.lastSeq, |log| + 1);
    }
    var before := retained + Published(log, s.topics, s.since);
    assert retained + (Published(log, s.topics, s.since) + {|log| + 1}) == before + {|log| + 1};
    assert retained + (Published(log, s.topics, s.since) + {}) == before;
  }

  lemma PublishOnce(log: seq<Event>, s: Sub, e: Event)
    requires Numbered(log) && ExactlyOnce(log, s) && e.number == |log| + 1
    ensures ExactlyOnce(log + [e], Targeted(s, e))
  {
    hide Matches, Retained, Published, Label;
    var s' := Targeted(s, e);
    DueGrows(log, s, e);
    assert Due(log + [e], s') == Due(log + [e], s);
    if s' != s {
      var d := s'.pending[|s.pending|];
      assert s'.pending == s.pending + [d];
      NumbersAppend(s.pending, [d]);
      NumbersOne(d);
    }
  }

  lemma SubscribeOnce(log: seq<Event>, topics: set<Topic>, lastSeq: nat, replay: seq<Delivery>)
    requires Numbers(replay) == multiset(Retained(log, topics, lastSeq)) && AllGenuine(log, topics, replay)
    ensures Served(log, Sub(topics, lastSeq, |log|, true, false, replay, [], [], []))
  {
    assert log[..|log|] == log;
    assert Published(log, topics, |log|) == {};
    assert Retained(log, topics, lastSeq) + {} == Retained(log, topics, lastSeq);
  }

  lemma PutOnce(st: State, id: SubId, s: Sub)
    requires Inv(st) && Served(st.log, s)
    ensures Inv(st.(subs := st.subs[id := s]))
  {
    hide Served;
  }

  lemma DoneOnce(log: seq<Event>, s: Sub, s': Sub)
    requires Served(log, s)
    requires s' == s.(done := true) || (s.done && s' == s.(registered := false))
    ensures Served(log, s')
  {
    assert Due(log, s') == Due(log, s);
  }

  /** Every step of every interleaving keeps exactly-once. */
  lemma StepKeepsExactlyOnce(st: State, next: State)
    requires Inv(st) && Step(st, next)
    ensures Inv(next)
  {
    hide ExactlyOnce, Authentic, AllGenuine, Deliver, Receive, Targeted;
    if ev :| next == Publish(st, ev) {
      if ev.topics != [] {
        var e := Stamp(st, ev);
        forall id | id in st.subs ensures Served(st.log + [e], Targeted(st.subs[id], e)) {
          PublishOnce(st.log, st.subs[id], e);
          PublishAuthentic(st.log, st.subs[id], e);
        }
      }
    } else if id, topics, lastSeq, replay :| Subscribes(st, id, topics, lastSeq, replay, next) {
      SubscribeOnce(st.log, topics, lastSeq, replay);
      PutOnce(st, id, next.subs[id]);
    } else if id, i, choose :| id in st.subs && 0 <= i < |st.subs[id].pending|
                               && next == st.(subs := st.subs[id := Deliver(st.subs[id], i, choose)]) {
      DeliverServes(st.log, st.subs[id], i, choose);
      PutOnce(st, id, next.subs[id]);
    } else if id :| id in st.subs && st.subs[id].channel != []
                    && next == st.(subs := st.subs[id := Receive(st.subs[id])]) {
      ReceiveServes(st.log, st.subs[id]);
      PutOnce(st, id, next.subs[id]);
    } else if id :| id in st.subs && next == st.(subs := st.subs[id := st.subs[id].(done := true)]) {
      DoneOnce(st.log, st.subs[id], next.subs[id]);
      PutOnce(st, id, next.subs[id]);
    } else if id :| id in st.subs && st.subs[id].done
                    && next == st.(subs := st.subs[id := st.subs[id].(registered := false)]) {
      DoneOnce(st.log, st.subs[id], next.subs[id]);
      PutOnce(st, id, next.subs[id]);
    }
  }

  lemma {:induction false} RunKeepsExactlyOnce(states: seq<State>, i: nat)
    requires IsRun(states) && i < |states|
    ensures Inv(states[i])
  {
    if i > 0 {
      RunKeepsExactlyOnce(states, i - 1);
      assert Step(states[i - 1], states[i - 1 + 1]);
      StepKeepsExactlyOnce(states[i - 1], states[i]);
    }
  }

  // ----- The bus itself -----

  /** One insertion, keeping the order. */
  method InsertByNumber(r: seq<Delivery>, d: Delivery) returns (r': seq<Delivery>)
    requires Sorted(r) && d.event.number !in Numbers(r)
    ensures Sorted(r') && Numbers(r') == Numbers(r) + multiset{d.event.number}
    ensures forall x :: x in r' <==> x == d || x in r
  {
    hide Numbers;
    var at := |r|;
    while at > 0 && r[at - 1].event.number > d.event.number
      invariant 0 <= at <= |r|
      invariant forall j :: at <= j < |r| ==> r[j].event.number > d.event.number
    {
      at := at - 1;
    }
    if at > 0 {
      NumberInSeq(r, d.event.number);
      assert r[at - 1].event.number != d.event.number;
    }
    r' := r[..at] + [d] + r[at..];
    InsertSorted(r, d, at, r');
    InsertNumbers(r, d, at, r');
  }

  lemma InsertSorted(r: seq<Delivery>, d: Delivery, at: nat, r': seq<Delivery>)
    requires Sorted(r) && at <= |r| && r' == r[..at] + [d] + r[at..]
    requires at > 0 ==> r[at - 1].event.number < d.event.number
    requires at < |r| ==> d.event.number < r[at].event.number
    ensures Sorted(r')
  {
    assert |r'| == |r| + 1 && r'[at] == d;
    assert forall i :: 0 <= i < at ==> r'[i] == r[i];
    assert forall i :: at < i < |r'| ==> r'[i] == r[i - 1];
  }

  lemma InsertNumbers(r: seq<Delivery>, d: Delivery, at: nat, r': seq<Delivery>)
    requires at <= |r| && r' == r[..at] + [d] + r[at..]
    ensures Numbers(r') == Numbers(r) + multiset{d.event.number}
  {
    hide Numbers;
    assert r == r[..at] + r[at..];
    NumbersAppend(r[..at], r[at..]);
    NumbersAppend(r[..at] + [d], r[at..]);
    NumbersAppend(r[..at], [d]);
    NumbersOne(d);
  }

  /** sort.Slice by Seq over events with distinct numbers. */
  method SortByNumber(s: seq<Delivery>) returns (r: seq<Delivery>)
    requires forall i, j :: 0 <= i < j < |s| ==> s[i].event.number != s[j].event.number
    ensures Sorted(r) && Numbers(r) == Numbers(s) && forall x :: x in r <==> x in s
  {
    r := [];
    for k := 0 to |s|
      invariant Sorted(r) && Numbers(r) == Numbers(s[..k]) && forall x :: x in r <==> x in s[..k]
    {
      NumberInSeq(s[..k], s[k].event.number);
      r := InsertByNumber(r, s[k]);
      NumbersAppend(s[..k], [s[k]]);
      NumbersOne(s[k]);
      assert s[..k + 1] == s[..k] + [s[k]];
    }
    assert s[..|s|] == s;
  }

  lemma RetainedOneTopic(log: seq<Event>, topics: set<Topic>, t: Topic, lastSeq: nat)
    requires lastSeq > 0
    ensures Retained(log, topics + {t}, lastSeq) == Retained(log, topics, lastSeq) + Newer(Ring(log, t), lastSeq)
  {
    hide Ring;
  }

  function Newer(ring: seq<Event>, lastSeq: nat): set<nat> {
    set i | 0 <= i < |ring| && ring[i].number > lastSeq :: ring[i].number
  }

  lemma NewerOneMore(ring: seq<Event>, lastSeq: nat, k: nat)
    requires k < |ring|
    ensures Newer(ring[..k + 1], lastSeq) ==
            Newer(ring[..k], lastSeq) + if ring[k].number > lastSeq then {ring[k].number} else {}
  {
    assert ring[..k + 1] == ring[..k] + [ring[k]];
    forall n ensures n in Newer(ring[..k + 1], lastSeq) <==>
        n in Newer(ring[..k], lastSeq) || (ring[k].number > lastSeq && n == ring[k].number) {
      if n in Newer(ring[..k], lastSeq) {
        var i :| 0 <= i < k && ring[..k][i].number > lastSeq && n == ring[..k][i].number;
        assert ring[..k + 1][i] == ring[..k][i];
      }
      if ring[k].number > lastSeq && n == ring[k].number {
        assert ring[..k + 1][k] == ring[k];
      }
    }
  }

  lemma NumberInSeq(s: seq<Delivery>, n: nat)
    ensures n in Numbers(s) <==> exists i :: 0 <= i < |s| && s[i].event.number == n
  {
    if n in Numbers(s) {
      assert n in NumberSeq(s);
      var i :| 0 <= i < |s| && NumberSeq(s)[i] == n;
      assert s[i].event.number == n;
    }
    forall i | 0 <= i < |s| && s[i].event.number == n ensures n in Numbers(s) {
      assert NumberSeq(s)[i] == n;
    }
  }

  lemma DistinctNumbers(s: seq<Delivery>, numbers: set<nat>)
    requires Numbers(s) == multiset(numbers)
    ensures forall i, j :: 0 <= i < j < |s| ==> s[i].event.number != s[j].event.number
  {
    forall i, j | 0 <= i < j < |s| ensures s[i].event.number != s[j].event.number {
      var n := s[j].event.number;
      NumbersWithout(s, j);
      assert Numbers(Without(s, j))[n] == multiset(numbers)[n] - 1 <= 0;
      NumberInSeq(Without(s, j), n);
      assert Without(s, j)[i] == s[i];
    }
  }

  class Bus {
    var last: nat
    var rings: map<Topic, seq<Event>>
    var subs: map<SubId, Sub>
    var nextId: SubId
    ghost var log: seq<Event>

    ghost function Abs(): State
      reads this
    {
      State(log, subs)
    }

    function RingAt(t: Topic): seq<Event>
      reads this`rings
    {
      if t in rings then rings[t] else []
    }

    ghost predicate Valid()
      reads this
    {
      && last == |log|
      && (forall t :: RingAt(t) == Ring(log, t))
      && (forall id :: id in subs ==> id < nextId)
      && Inv(Abs())
    }

    constructor ()
      ensures Valid() && Abs() == INITIAL
    {
      last, rings, subs, nextId, log := 0, map[], map[], 0, [];
    }

    /** The loop over the event's topics: append to each ring and trim it. */
    method AppendToRings(e: Event)
      requires forall t :: RingAt(t) == Ring(log, t)
      modifies this`rings
      ensures forall t :: RingAt(t) == Ring(log + [e], t)
    {
      hide Ring, Last, Appended, Repeat;
      RingsStart(log, e);
      for k := 0 to |e.topics|
        invariant forall t :: RingAt(t) == RingAfter(log, e, k, t)
      {
        var t := e.topics[k];
        var r := RingAt(t) + [e];
        if |r| > RING_SIZE {
          r := r[|r| - RING_SIZE..];
        }
        RingsAdvance(log, e, k, r);
        ghost var was := rings;
        rings := rings[t := r];
        forall x ensures RingAt(x) == RingAfter(log, e, k + 1, x) {
          if x != t {
            assert RingAfter(log, e, k, x) == if x in was then was[x] else [];
          }
        }
      }
      RingsEnd(log, e);
    }

    /** The locked phase of Publish: stamp the event, append it to the ring of each of its topics, and
        pick the subscribers it must be offered to. */
    method PublishLocked(ev: Event)
      requires Valid()
      modifies this
      ensures Valid() && Abs() == Publish(old(Abs()), ev)
    {
      hide Inv, Targeted, Ring;
      if ev.topics == [] {
        return;
      }
      var e := ev.(number := last + 1);
      PublishKeeps(Abs(), ev);
      last := last + 1;
      AppendToRings(e);
      TargetAll(e);
      log := log + [e];
      assert Abs() == Publish(old(Abs()), ev);
      assert Inv(Abs());
      assert forall t :: RingAt(t) == Ring(log, t);
    }

    /** The loop over subscribers: each is offered the event under the first topic it subscribed to. */
    method TargetAll(e: Event)
      modifies this`subs
      ensures subs == map id | id in old(subs) :: Targeted(old(subs)[id], e)
    {
      var todo := subs.Keys;
      while todo != {}
        invariant todo <= subs.Keys == old(subs).Keys
        invariant forall id :: id in subs ==>
          subs[id] == if id in todo then old(subs)[id] else Targeted(old(subs)[id], e)
        decreases |todo|
      {
        var id :| id in todo;
        var s := subs[id];
        if s.registered {
          var found, topic := FirstMatch(s.topics, e.topics);
          if found {
            subs := subs[id := s.(pending := s.pending + [Delivery(topic, e)])];
          }
        }
        todo := todo - {id};
      }
    }

    /** Deliver one picked event, after the lock is released. */
    method DeliverOne(id: SubId, i: nat, chooseDone: bool)
      requires Valid() && id in subs && i < |subs[id].pending|
      modifies this
      ensures Valid() && Abs() == old(Abs()).(subs := old(subs)[id := Deliver(old(subs)[id], i, chooseDone)])
      ensures subs[id].pending == old(subs)[id].pending[..i] + old(subs)[id].pending[i + 1..]
      ensures !old(subs)[id].done && |old(subs)[id].channel| < 64 ==>
        !subs[id].done && subs[id].channel == old(subs)[id].channel + [old(subs)[id].pending[i]]
      ensures !old(subs)[id].done && |old(subs)[id].channel| >= 64 ==>
        subs[id].done && subs[id].channel == old(subs)[id].channel
    {
      hide Served, Ring;
      ghost var next := Abs().(subs := subs[id := Deliver(subs[id], i, chooseDone)]);
      DeliverServes(log, subs[id], i, chooseDone);
      PutOnce(Abs(), id, Deliver(subs[id], i, chooseDone));
      var s := subs[id];
      var d := s.pending[i];
      s := s.(pending := Without(s.pending, i));
      var full := |s.channel| >= LIVE_BUFFER;
      if s.done && (chooseDone || full) {
        // already disconnected
      } else if !full {
        s := s.(channel := s.channel + [d]);
      } else {
        s := s.(done := true);
      }
      subs := subs[id := s];
    }

    /** The replay loops: retained events newer than lastSeq, topic by topic, each once, then sorted. */
    method Snapshot(topics: seq<Topic>, lastSeq: nat) returns (replay: seq<Delivery>)
      requires Numbered(log) && forall t :: RingAt(t) == Ring(log, t)
      ensures Sorted(replay) && Numbers(replay) == multiset(Retained(log, Elems(topics), lastSeq))
      ensures AllGenuine(log, Elems(topics), replay)
    {
      hide Ring, Retained, Genuine;
      replay := [];
      assert NumberSeq(replay) == [];
      RetainedNone(log, lastSeq);
      if lastSeq == 0 {
        RetainedNever(log, Elems(topics));
        return;
      }
      var seen: set<nat> := {};
      assert Elems(topics[..0]) == {};
      for k := 0 to |topics|
        invariant seen == Retained(log, Elems(topics[..k]), lastSeq) && Numbers(replay) == multiset(seen)
        invariant AllGenuine(log, Elems(topics), replay)
      {
        RingGenuine(log, Elems(topics), topics[k]);
        seen, replay := CollectNewer(topics[k], RingAt(topics[k]), lastSeq, seen, replay);
        RetainedOneTopic(log, Elems(topics[..k]), topics[k], lastSeq);
        assert topics[..k + 1] == topics[..k] + [topics[k]];
        assert Elems(topics[..k + 1]) == Elems(topics[..k]) + {topics[k]};
      }
      assert topics[..|topics|] == topics;
      DistinctNumbers(replay, seen);
      replay := SortByNumber(replay);
    }

    /** The locked phase of Subscribe: snapshot and registration happen under one lock. */
    method Subscribe(topics: seq<Topic>, lastSeq: nat) returns (id: SubId, replay: seq<Delivery>)
      requires Valid()
      modifies this
      ensures Valid() && Subscribes(old(Abs()), id, Elems(topics), lastSeq, replay, Abs())
    {
      hide Served, Ring, Retained, AllGenuine;
      replay := Snapshot(topics, lastSeq);
      id := nextId;
      var s := Sub(Elems(topics), lastSeq, last, true, false, replay, [], [], []);
      SubscribeOnce(log, Elems(topics), lastSeq, replay);
      PutOnce(Abs(), id, s);
      subs := subs[id := s];
      nextId := nextId + 1;
    }

    /** The reader takes the next delivery off its channel. */
    method Read(id: SubId) returns (d: Delivery)
      requires Valid() && id in subs && subs[id].channel != []
      modifies this
      ensures Valid() && d == old(subs)[id].channel[0]
      ensures Abs() == old(Abs()).(subs := old(subs)[id := Receive(old(subs)[id])])
    {
      hide Served, Ring;
      ReceiveServes(log, subs[id]);
      PutOnce(Abs(), id, Receive(subs[id]));
      var s := subs[id];
      d := s.channel[0];
      subs := subs[id := s.(received := s.received + [d], channel := s.channel[1..])];
    }

    /** The second half of cancel: the subscription is dropped once it is closed. */
    method Unregister(id: SubId)
      requires Valid() && id in subs && subs[id].done
      modifies this
      ensures Valid() && Abs() == old(Abs()).(subs := old(subs)[id := old(subs)[id].(registered := false)])
    {
      hide Served, Ring;
      DoneOnce(log, subs[id], subs[id].(registered := false));
      PutOnce(Abs(), id, subs[id].(registered := false));
      subs := subs[id := subs[id].(registered := false)];
    }

    /** The first half of cancel. */
    method Close(id: SubId)
      requires Valid() && id in subs
      modifies this
      ensures Valid() && Abs() == old(Abs()).(subs := old(subs)[id := old(subs)[id].(done := true)])
    {
      hide Served, Ring;
      DoneOnce(log, subs[id], subs[id].(done := true));
      PutOnce(Abs(), id, subs[id].(done := true));
      subs := subs[id := subs[id].(done := true)];
    }
  }

  /** Topic t's ring once the first k topics of e have been served. */
  ghost function RingAfter(log: seq<Event>, e: Event, k: nat, t: Topic): seq<Event>
    requires k <= |e.topics|
  {
    Last(Appended(log, t) + Repeat(e, e.topics[..k], t))
  }

  lemma RingsStart(log: seq<Event>, e: Event)
    ensures forall t :: RingAfter(log, e, 0, t) == Ring(log, t)
  {
    hide Appended;
    forall t ensures RingAfter(log, e, 0, t) == Ring(log, t) {
      assert Appended(log, t) + [] == Appended(log, t);
    }
  }

  lemma RingsAdvance(log: seq<Event>, e: Event, k: nat, r: seq<Event>)
    requires k < |e.topics|
    requires var grown := RingAfter(log, e, k, e.topics[k]) + [e];
             r == if |grown| > RING_SIZE then grown[|grown| - RING_SIZE..] else grown
    ensures r == RingAfter(log, e, k + 1, e.topics[k])
    ensures forall t :: t != e.topics[k] ==> RingAfter(log, e, k + 1, t) == RingAfter(log, e, k, t)
  {
    hide Appended, Last, Repeat;
    var t0 := e.topics[k];
    var was := Appended(log, t0) + Repeat(e, e.topics[..k], t0);
    RepeatOneMore(e, k, t0);
    LastTrims(Last(was) + [e]);
    LastAppend(was, e);
    assert was + [e] == Appended(log, t0) + (Repeat(e, e.topics[..k], t0) + [e]);
    forall t | t != t0 ensures RingAfter(log, e, k + 1, t) == RingAfter(log, e, k, t) {
      RepeatOneMore(e, k, t);
    }
  }

  lemma LastTrims(s: seq<Event>)
    ensures Last(s) == if |s| > RING_SIZE then s[|s| - RING_SIZE..] else s
  {
  }

  lemma RepeatOneMore(e: Event, k: nat, t: Topic)
    requires k < |e.topics|
    ensures Repeat(e, e.topics[..k + 1], t) ==
      if e.topics[k] == t then Repeat(e, e.topics[..k], t) + [e] else Repeat(e, e.topics[..k], t)
  {
    assert e.topics[..k + 1][..k] == e.topics[..k];
    assert Repeat(e, e.topics[..k], t) + [] == Repeat(e, e.topics[..k], t);
  }

  lemma RingsEnd(log: seq<Event>, e: Event)
    ensures forall t :: RingAfter(log, e, |e.topics|, t) == Ring(log + [e], t)
  {
    assert (log + [e])[..|log|] == log && e.topics[..|e.topics|] == e.topics;
  }

  lemma PublishKeeps(st: State, ev: Event)
    requires Inv(st)
    ensures Inv(Publish(st, ev))
  {
    hide Inv, Publish;
    assert Step(st, Publish(st, ev));
    StepKeepsExactlyOnce(st, Publish(st, ev));
  }

  lemma RetainedNone(log: seq<Event>, lastSeq: nat)
    ensures Retained(log, {}, lastSeq) == {}
  {
    hide Ring;
  }

  lemma RetainedNever(log: seq<Event>, topics: set<Topic>)
    ensures Retained(log, topics, 0) == {}
  {
  }

  /** The inner loop over one ring, skipping what is old or already seen. */
  method CollectNewer(t: Topic, ring: seq<Event>, lastSeq: nat, seen: set<nat>, replay: seq<Delivery>)
    returns (seen': set<nat>, replay': seq<Delivery>)
    requires Numbers(replay) == multiset(seen)
    ensures seen' == seen + Newer(ring, lastSeq) && Numbers(replay') == multiset(seen')
    ensures forall d :: d in replay' ==> d in replay || (d.topic == t && d.event in ring)
  {
    hide Newer, NumberSeq;
    seen', replay' := seen, replay;
    NewerNone(ring, lastSeq);
    for j := 0 to |ring|
      invariant seen' == seen + Newer(ring[..j], lastSeq) && Numbers(replay') == multiset(seen')
      invariant forall d :: d in replay' ==> d in replay || (d.topic == t && d.event in ring)
    {
      NewerOneMore(ring, lastSeq, j);
      if ring[j].number > lastSeq && ring[j].number !in seen' {
        NumbersAppend(replay', [Delivery(t, ring[j])]);
        NumbersOne(Delivery(t, ring[j]));
        seen' := seen' + {ring[j].number};
        replay' := replay' + [Delivery(t, ring[j])];
      }
    }
    assert ring[..|ring|] == ring;
  }

  lemma RingGenuine(log: seq<Event>, topics: set<Topic>, t: Topic)
    requires Numbered(log) && t in topics
    ensures forall e :: e in Ring(log, t) ==> Genuine(log, topics, Delivery(t, e))
  {
    forall e | e in Ring(log, t) ensures Genuine(log, topics, Delivery(t, e)) {
      RingInLog(log, t, e);
    }
  }

  lemma NewerNone(ring: seq<Event>, lastSeq: nat)
    ensures Newer(ring[..0], lastSeq) == {}
  {
  }

  method FirstMatch(topics: set<Topic>, wanted: seq<Topic>) returns (found: bool, topic: Topic)
    ensures found <==> exists t :: t in wanted && t in topics
    ensures found ==> topic == Label(topics, wanted)
  {
    for k := 0 to |wanted|
      invariant forall j :: 0 <= j < k ==> wanted[j] !in topics
    {
      if wanted[k] in topics {
        LabelAt(topics, wanted, k);
        return true, wanted[k];
      }
    }
    return false, "";
  }

  lemma {:induction false} LabelAt(topics: set<Topic>, wanted: seq<Topic>, k: nat)
    requires k < |wanted| && wanted[k] in topics && forall j :: 0 <= j < k ==> wanted[j] !in topics
    ensures Label(topics, wanted) == wanted[k]
  {
    if k > 0 {
      LabelAt(topics, wanted[1..], k - 1);
    }
  }
}
