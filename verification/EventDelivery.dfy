/** What a reader of the event bus can rely on: which events a step makes due, which a replay holds, what
    one delivery attempt does, and that whoever keeps reading gets everything. */
module EventDelivery {
  import opened Common
  import opened EventBus

  // ----- Publishing -----

  /** An event with a topic is logged under the next number; each registered subscriber to one of its
      topics is picked once, under the first such topic, and nobody else notices. */
  lemma PublishMeans(st: State, ev: Event, id: SubId)
    requires id in st.subs
    ensures ev.topics == [] ==> Publish(st, ev) == st
    ensures ev.topics != [] ==>
      && Publish(st, ev).log == st.log + [Event(|st.log| + 1, ev.topics, ev.payload)]
      && Publish(st, ev).subs.Keys == st.subs.Keys
    ensures
      var s, s', e := st.subs[id], Publish(st, ev).subs[id], Event(|st.log| + 1, ev.topics, ev.payload);
      && (s' == s || s.registered)
      && ((forall k :: 0 <= k < |ev.topics| ==> ev.topics[k] !in s.topics) ==> s' == s)
      && (forall k :: 0 <= k < |ev.topics| && ev.topics[k] in s.topics && s.registered
                      && (forall j :: 0 <= j < k ==> ev.topics[j] !in s.topics) ==>
            s' == s.(pending := s.pending + [Delivery(ev.topics[k], e)]))
  {
    hide Label;
    var s := st.subs[id];
    forall k | 0 <= k < |ev.topics| && ev.topics[k] in s.topics && forall j :: 0 <= j < k ==> ev.topics[j] !in s.topics
      ensures Label(s.topics, ev.topics) == ev.topics[k]
    {
      LabelAt(s.topics, ev.topics, k);
    }
  }

  // ----- What a ring keeps -----

  /** How often a topic was named over a stretch of the log. */
  function Mentions(log: seq<Event>, t: Topic): nat {
    if log == [] then 0 else Mentions(log[..|log| - 1], t) + multiset(log[|log| - 1].topics)[t]
  }

  lemma {:induction false} RepeatSize(ev: Event, topics: seq<Topic>, t: Topic)
    ensures |Repeat(ev, topics, t)| == multiset(topics)[t]
  {
    if topics != [] {
      var n := |topics| - 1;
      RepeatSize(ev, topics[..n], t);
      assert topics == topics[..n] + [topics[n]];
    }
  }

  lemma {:induction false} AppendedSize(log: seq<Event>, t: Topic)
    ensures |Appended(log, t)| == Mentions(log, t)
  {
    if log != [] {
      var n := |log| - 1;
      AppendedSize(log[..n], t);
      RepeatSize(log[n], log[n].topics, t);
    }
  }

  lemma {:induction false} AppendedJoins(a: seq<Event>, b: seq<Event>, t: Topic)
    ensures Appended(a + b, t) == Appended(a, t) + Appended(b, t)
  {
    if b == [] {
      assert a + b == a;
    } else {
      var n := |b| - 1;
      AppendedJoins(a, b[..n], t);
      assert a + b == (a + b[..n]) + [b[n]] && b == b[..n] + [b[n]];
      AppendedOne(a + b[..n], b[n], t);
      AppendedOne(b[..n], b[n], t);
      hide Appended, Repeat;
      var x, y, z := Appended(a, t), Appended(b[..n], t), Repeat(b[n], b[n].topics, t);
      assert (x + y) + z == x + (y + z);
    }
  }

  lemma AppendedOne(log: seq<Event>, e: Event, t: Topic)
    ensures Appended(log + [e], t) == Appended(log, t) + Repeat(e, e.topics, t)
  {
    assert (log + [e])[..|log|] == log;
  }

  /** The last mention of a topic in an event is the last thing its ring got so far. */
  lemma AppendedEnds(log: seq<Event>, t: Topic)
    requires log != [] && t in log[|log| - 1].topics
    ensures Appended(log, t) != [] && Appended(log, t)[|Appended(log, t)| - 1] == log[|log| - 1]
  {
    var e := log[|log| - 1];
    var tail := Repeat(e, e.topics, t);
    InRepeat(e, e.topics, t, e);
    assert tail != [];
    InRepeat(e, e.topics, t, tail[|tail| - 1]);
  }

  lemma InLast(a: seq<Event>, b: seq<Event>, e: Event)
    requires a != [] && a[|a| - 1] == e && e !in b
    ensures e in Last(a + b) <==> |b| < 1024
  {
    var s := a + b;
    if |b| < 1024 {
      assert s[|a| - 1] == e;
      assert |s| > 1024 ==> s[|s| - 1024..][|a| - 1 - (|s| - 1024)] == e;
    }
    assert |b| >= 1024 ==> Last(s) == b[|b| - 1024..];
  }

  /** A topic's ring still holds an event of that topic exactly while fewer than 1024 mentions of the
      topic have followed it. */
  lemma RingHolds(log: seq<Event>, t: Topic, n: nat)
    requires Numbered(log) && 1 <= n <= |log|
    ensures log[n - 1] in Ring(log, t) <==> t in log[n - 1].topics && Mentions(log[n..], t) < 1024
  {
    hide Last, Appended;
    var e, a, b := log[n - 1], Appended(log[..n], t), Appended(log[n..], t);
    assert log == log[..n] + log[n..];
    AppendedJoins(log[..n], log[n..], t);
    AppendedSize(log[n..], t);
    InAppended(log[n..], t, e);
    assert forall k :: 0 <= k < |log[n..]| ==> log[n..][k].number == n + k + 1;
    assert e !in b;
    if t in e.topics {
      assert log[..n][|log[..n]| - 1] == e;
      AppendedEnds(log[..n], t);
      InLast(a, b, e);
    } else if e in Ring(log, t) {
      RingInLog(log, t, e);
    }
  }

  /** A replay asks for the events after lastSeq, if any: exactly those of a wanted topic that the topic's
      ring still holds. */
  lemma RetainedMeans(log: seq<Event>, topics: set<Topic>, lastSeq: nat, n: nat)
    requires Numbered(log)
    ensures n in Retained(log, topics, lastSeq) <==>
      && 0 < lastSeq < n <= |log|
      && exists t :: t in topics && t in log[n - 1].topics && Mentions(log[n..], t) < 1024
  {
    hide Ring;
    if n in Retained(log, topics, lastSeq) {
      var t, i :|
        t in topics && 0 <= i < |Ring(log, t)| && Ring(log, t)[i].number > lastSeq && n == Ring(log, t)[i].number;
      RingInLog(log, t, Ring(log, t)[i]);
      RingHolds(log, t, n);
    }
    if 0 < lastSeq < n <= |log| {
      forall t | t in topics && t in log[n - 1].topics && Mentions(log[n..], t) < 1024
        ensures n in Retained(log, topics, lastSeq)
      {
        RingHolds(log, t, n);
        var i :| 0 <= i < |Ring(log, t)| && Ring(log, t)[i] == log[n - 1];
      }
    }
  }

  // ----- One attempt -----

  function Gone(s: seq<Delivery>, i: nat): seq<Delivery>
    requires i < |s|
  {
    s[..i] + s[i + 1..]
  }

  /** An attempt takes its delivery off the waiting list. A connected reader with fewer than 64 events
      queued gets it at the end of its queue and stays connected; one with 64 is disconnected. */
  lemma AttemptMeans(s: Sub, i: nat, choose: bool)
    requires i < |s.pending|
    ensures
      var s' := Deliver(s, i, choose);
      && s' == s.(pending := Gone(s.pending, i), channel := s'.channel, done := s'.done)
      && (!s.done && |s.channel| < 64 ==> !s'.done && s'.channel == s.channel + [s.pending[i]])
      && (!s.done && |s.channel| >= 64 ==> s'.done && s'.channel == s.channel)
      && (s.done ==> s'.done && (s'.channel == s.channel || s'.channel == s.channel + [s.pending[i]]))
      && (|s.channel| <= 64 ==> |s'.channel| <= 64)
  {
  }

  // ----- A connected reader through a run -----

  /** All that one step can do to a connected reader. */
  ghost predicate Happens(s: Sub, s': Sub) {
    || s' == s
    || (exists d :: s' == s.(pending := s.pending + [d]))
    || (exists i :: 0 <= i < |s.pending| && |s.channel| < 64
                    && s' == s.(pending := Gone(s.pending, i), channel := s.channel + [s.pending[i]]))
    || (exists i :: 0 <= i < |s.pending| && |s.channel| >= 64
                    && s' == s.(pending := Gone(s.pending, i), done := true))
    || (s.channel != [] && s' == s.(received := s.received + [s.channel[0]], channel := s.channel[1..]))
    || s' == s.(done := true)
  }

  lemma StepOnReader(st: State, next: State, id: SubId)
    requires Step(st, next) && id in st.subs && !st.subs[id].done
    ensures id in next.subs && Happens(st.subs[id], next.subs[id])
  {
    hide Label, Matches, Deliver;
    if ev :| next == Publish(st, ev) {
    } else if x, i, choose :| x in st.subs && 0 <= i < |st.subs[x].pending|
                              && next == st.(subs := st.subs[x := Deliver(st.subs[x], i, choose)]) {
      if x == id {
        AttemptMeans(st.subs[id], i, choose);
      }
    }
  }

  ghost predicate ChannelsBounded(st: State) {
    forall id :: id in st.subs ==> |st.subs[id].channel| <= 64
  }

  lemma StepKeepsBound(st: State, next: State)
    requires ChannelsBounded(st) && Step(st, next)
    ensures ChannelsBounded(next)
  {
    hide Label, Matches, Deliver;
    if ev :| next == Publish(st, ev) {
    } else if x, i, choose :| x in st.subs && 0 <= i < |st.subs[x].pending|
                              && next == st.(subs := st.subs[x := Deliver(st.subs[x], i, choose)]) {
      AttemptMeans(st.subs[x], i, choose);
    }
  }

  lemma {:induction false} RunKeepsBound(states: seq<State>, i: nat)
    requires IsRun(states) && i < |states|
    ensures ChannelsBounded(states[i])
  {
    if i > 0 {
      hide Step;
      RunKeepsBound(states, i - 1);
      assert Step(states[i - 1], states[i - 1 + 1]);
      StepKeepsBound(states[i - 1], states[i]);
    }
  }

  /** A reader loses its connection in two ways only: it is cancelled, or an attempt meets 64 queued. */
  lemma DisconnectedOnlyWhenFull(states: seq<State>, i: nat, id: SubId)
    requires IsRun(states) && i + 1 < |states| && id in states[i].subs && id in states[i + 1].subs
    requires !states[i].subs[id].done && states[i + 1].subs[id].done
    ensures
      var s, s' := states[i].subs[id], states[i + 1].subs[id];
      || s' == s.(done := true)
      || (|s.channel| == 64
          && exists k :: 0 <= k < |s.pending| && s' == s.(pending := Gone(s.pending, k), done := true))
  {
    hide Step;
    RunKeepsBound(states, i);
    assert Step(states[i], states[i + 1]);
    StepOnReader(states[i], states[i + 1], id);
  }

  // ----- Reading everything -----

  /** A connected reader that has emptied its queue with nothing left waiting has all it is due. */
  lemma IdleReaderHasAll(st: State, id: SubId)
    requires Inv(st) && id in st.subs
    requires var s := st.subs[id]; !s.done && s.channel == [] && s.pending == []
    ensures var s := st.subs[id]; s.since <= |st.log| && Numbers(s.replay) + Numbers(s.received) == Due(st.log, s)
  {
    hide Due, Authentic;
    assert NumberSeq([]) == [];
  }

  /** One event for the reader: read off its queue, or else put there. */
  ghost predicate Serves(s: Sub, s': Sub) {
    || (s.channel != [] && s' == s.(received := s.received + [s.channel[0]], channel := s.channel[1..]))
    || (s.channel == [] && s.pending != [] && s' == s.(pending := s.pending[1..], channel := [s.pending[0]]))
  }

  lemma ServeStep(st: State, id: SubId) returns (next: State)
    requires id in st.subs && !st.subs[id].done && (st.subs[id].channel != [] || st.subs[id].pending != [])
    ensures Step(st, next) && id in next.subs && next == st.(subs := st.subs[id := next.subs[id]])
    ensures Serves(st.subs[id], next.subs[id])
  {
    var s := st.subs[id];
    if s.channel != [] {
      next := st.(subs := st.subs[id := Receive(s)]);
    } else {
      AttemptMeans(s, 0, false);
      assert Gone(s.pending, 0) == s.pending[1..];
      next := st.(subs := st.subs[id := Deliver(s, 0, false)]);
    }
  }

  /** steps leads from st to last, each one a step of the bus that changes nothing but this reader. */
  ghost predicate Leads(st: State, steps: seq<State>, last: State, id: SubId)
    decreases |steps|
  {
    if steps == [] then last == st
    else
      && Step(st, steps[0]) && id in steps[0].subs && steps[0] == st.(subs := st.subs[id := steps[0].subs[id]])
      && Leads(steps[0], steps[1..], last, id)
  }

  /** From every state a connected reader can be given, one by one and without being disconnected, all
      that is queued and waiting for it, in that order. */
  lemma {:induction false} ReaderCanBeServed(st: State, id: SubId) returns (steps: seq<State>, last: State)
    requires id in st.subs && !st.subs[id].done
    ensures Leads(st, steps, last, id) && id in last.subs
    ensures
      var s := st.subs[id];
      last.subs[id] == s.(received := s.received + s.channel + s.pending, channel := [], pending := [])
    decreases 2 * |st.subs[id].pending| + |st.subs[id].channel|
  {
    hide Step;
    var s := st.subs[id];
    if s.channel == [] && s.pending == [] {
      assert s.received + s.channel + s.pending == s.received;
      return [], st;
    }
    var next := ServeStep(st, id);
    var s' := next.subs[id];
    assert s'.received + s'.channel + s'.pending == s.received + s.channel + s.pending;
    var rest;
    rest, last := ReaderCanBeServed(next, id);
    steps := [next] + rest;
    assert steps[1..] == rest;
  }
}
