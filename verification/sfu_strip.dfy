/** How a teardown that works through one transport, producer and consumer at a time adds up to
    the removal of all of them. */
module SfuStrip {
  import opened SessionHash
  import opened MapCount
  import opened SfuState

  // ----- one object after the other -----

  /** The sessions without the given registered producers. */
  function LessProducers(m: map<SessionId, Session>, all: map<ProducerId, Producer>, gone: set<ProducerId>): map<SessionId, Session> {
    map sid | sid in m :: m[sid].(producers := m[sid].producers - gone * KeysWhere(all, ProducerIn(sid)))
  }

  function LessConsumers(m: map<SessionId, Session>, all: map<ConsumerId, Consumer>, gone: set<ConsumerId>): map<SessionId, Session> {
    map sid | sid in m :: m[sid].(consumers := m[sid].consumers - gone * KeysWhere(all, ConsumerIn(sid)))
  }

  lemma LessProducersStep(m: map<SessionId, Session>, all: map<ProducerId, Producer>, gone: set<ProducerId>, p: ProducerId)
    requires p in all && p !in gone
    ensures var before, sid := LessProducers(m, all, gone), all[p].sessionId;
            LessProducers(m, all, gone + {p}) ==
            if sid in before then before[sid := before[sid].(producers := before[sid].producers - {p})] else before
  {
    forall sid | sid in m && sid != all[p].sessionId
      ensures (gone + {p}) * KeysWhere(all, ProducerIn(sid)) == gone * KeysWhere(all, ProducerIn(sid))
    {}
    forall sid | sid in m && sid == all[p].sessionId
      ensures m[sid].producers - (gone + {p}) * KeysWhere(all, ProducerIn(sid)) ==
              m[sid].producers - gone * KeysWhere(all, ProducerIn(sid)) - {p}
    {}
  }

  lemma LessConsumersStep(m: map<SessionId, Session>, all: map<ConsumerId, Consumer>, gone: set<ConsumerId>, c: ConsumerId)
    requires c in all && c !in gone
    ensures var before, sid := LessConsumers(m, all, gone), all[c].sessionId;
            LessConsumers(m, all, gone + {c}) ==
            if sid in before then before[sid := before[sid].(consumers := before[sid].consumers - {c})] else before
  {
    forall sid | sid in m && sid != all[c].sessionId
      ensures (gone + {c}) * KeysWhere(all, ConsumerIn(sid)) == gone * KeysWhere(all, ConsumerIn(sid))
    {}
    forall sid | sid in m && sid == all[c].sessionId
      ensures m[sid].consumers - (gone + {c}) * KeysWhere(all, ConsumerIn(sid)) ==
              m[sid].consumers - gone * KeysWhere(all, ConsumerIn(sid)) - {c}
    {}
  }

  /** The gauge after the given registered consumers were closed one by one. */
  function LessGauge(g: ConsumerGauge, all: map<ConsumerId, Consumer>, gone: set<ConsumerId>): ConsumerGauge {
    ConsumerGauge(g.webcam - |gone * KeysWhere(all, Tracked(Webcam))|,
                  g.microphone - |gone * KeysWhere(all, Tracked(Microphone))|,
                  g.screen - |gone * KeysWhere(all, Tracked(Screen))|)
  }

  lemma CardStep<K, V>(all: map<K, V>, p: V -> bool, gone: set<K>, k: K)
    requires k in all && k !in gone
    ensures |(gone + {k}) * KeysWhere(all, p)| == |gone * KeysWhere(all, p)| + (if p(all[k]) then 1 else 0)
  {
    assert (gone + {k}) * KeysWhere(all, p) ==
           if p(all[k]) then gone * KeysWhere(all, p) + {k} else gone * KeysWhere(all, p);
  }

  lemma LessGaugeStep(g: ConsumerGauge, all: map<ConsumerId, Consumer>, gone: set<ConsumerId>, c: ConsumerId)
    requires c in all && c !in gone
    ensures LessGauge(g, all, gone + {c}) == BumpConsumer(LessGauge(g, all, gone), all[c].trackType, -1)
  {
    CardStep(all, Tracked(Webcam), gone, c);
    CardStep(all, Tracked(Microphone), gone, c);
    CardStep(all, Tracked(Screen), gone, c);
  }

  function LessTransportGauge(g: TransportGauge, all: map<TransportId, Transport>, gone: set<TransportId>): TransportGauge {
    TransportGauge(g.send - |gone * KeysWhere(all, Directed(Send))|, g.recv - |gone * KeysWhere(all, Directed(Recv))|)
  }

  lemma LessTransportGaugeStep(g: TransportGauge, all: map<TransportId, Transport>, gone: set<TransportId>, t: TransportId)
    requires t in all && t !in gone
    ensures LessTransportGauge(g, all, gone + {t}) == BumpTransport(LessTransportGauge(g, all, gone), all[t].direction, -1)
  {
    CardStep(all, Directed(Send), gone, t);
    CardStep(all, Directed(Recv), gone, t);
  }

  // ----- one transport after the other -----

  lemma WithoutTwice<K, V>(m: map<K, V>, a: V -> bool, b: V -> bool, both: V -> bool)
    requires forall v :: both(v) <==> a(v) || b(v)
    ensures Without(Without(m, a), b) == Without(m, both)
  {}

  lemma CountTwice<K, V>(m: map<K, V>, a: V -> bool, b: V -> bool, both: V -> bool, p: V -> bool)
    requires forall v :: both(v) <==> a(v) || b(v)
    ensures CountBoth(m, both, p) == CountBoth(m, a, p) + CountBoth(Without(m, a), b, p)
  {
    var left := Without(m, a);
    SetMinus(KeysWhere(m, both) * KeysWhere(m, p), KeysWhere(m, a) * KeysWhere(m, p), KeysWhere(left, b) * KeysWhere(left, p));
  }

  lemma CountInTwice<K, V>(m: map<K, V>, done: set<K>, k: K, p: V -> bool)
    requires k in m && k !in done
    ensures CountIn(m, done + {k}, p) == CountIn(m, done, p) + CountIn(m - done, {k}, p)
  {
    SetMinus((done + {k}) * KeysWhere(m, p), done * KeysWhere(m, p), {k} * KeysWhere(m - done, p));
  }

  lemma StripTransportGauge(s: State, done: set<TransportId>, t: TransportId)
    requires t in s.transports && t !in done
    ensures Strip(Strip(s, done), {t}).transportGauge == Strip(s, done + {t}).transportGauge
  {
    hide CountIn;
    CountInTwice(s.transports, done, t, Directed(Send));
    CountInTwice(s.transports, done, t, Directed(Recv));
  }

  lemma StripConsumerGauge(s: State, done: set<TransportId>, t: TransportId)
    ensures Strip(Strip(s, done), {t}).consumerGauge == Strip(s, done + {t}).consumerGauge
  {
    hide CountBoth;
    CountTwice(s.consumers, ConsumerOn(done), ConsumerOn({t}), ConsumerOn(done + {t}), Tracked(Webcam));
    CountTwice(s.consumers, ConsumerOn(done), ConsumerOn({t}), ConsumerOn(done + {t}), Tracked(Microphone));
    CountTwice(s.consumers, ConsumerOn(done), ConsumerOn({t}), ConsumerOn(done + {t}), Tracked(Screen));
  }

  lemma MinusTwice<K, V>(m: map<K, V>, a: set<K>, b: set<K>)
    ensures m - a - b == m - (a + b)
  {}

  lemma BothTwice<K, V>(m: map<K, V>, a: V -> bool, b: V -> bool, both: V -> bool, p: V -> bool)
    requires forall v :: both(v) <==> a(v) || b(v)
    ensures KeysWhere(m, both) * KeysWhere(m, p) ==
            KeysWhere(m, a) * KeysWhere(m, p) + KeysWhere(Without(m, a), b) * KeysWhere(Without(m, a), p)
  {}

  lemma MinusBothTwice<K, V>(x: map<K, V>, m: map<K, V>, a: V -> bool, b: V -> bool, both: V -> bool, p: V -> bool)
    requires forall v :: both(v) <==> a(v) || b(v)
    ensures x - KeysWhere(m, a) * KeysWhere(m, p) - KeysWhere(Without(m, a), b) * KeysWhere(Without(m, a), p) ==
            x - KeysWhere(m, both) * KeysWhere(m, p)
  {
    BothTwice(m, a, b, both, p);
    MinusTwice(x, KeysWhere(m, a) * KeysWhere(m, p), KeysWhere(Without(m, a), b) * KeysWhere(Without(m, a), p));
  }

  lemma MinusTransportsTwice(x: map<TransportId, Transport>, m: map<TransportId, Transport>, done: set<TransportId>,
                             t: TransportId, p: Transport -> bool)
    requires t in m && t !in done
    ensures x - done * KeysWhere(m, p) - {t} * KeysWhere(m - done, p) == x - (done + {t}) * KeysWhere(m, p)
  {
    assert (done + {t}) * KeysWhere(m, p) == done * KeysWhere(m, p) + {t} * KeysWhere(m - done, p);
  }

  lemma StrippedTwice(s: State, done: set<TransportId>, t: TransportId, sid: SessionId)
    requires sid in s.sessions && t in s.transports && t !in done
    ensures Stripped(Strip(s, done), sid, {t}) == Stripped(s, sid, done + {t})
  {
    var x := s.sessions[sid];
    MinusTransportsTwice(x.transports, s.transports, done, t, TransportIn(sid));
    MinusBothTwice(x.producers, s.producers, ProducerOn(done), ProducerOn({t}), ProducerOn(done + {t}), ProducerIn(sid));
    MinusBothTwice(x.consumers, s.consumers, ConsumerOn(done), ConsumerOn({t}), ConsumerOn(done + {t}), ConsumerIn(sid));
  }

  /** Stripped sessions agree as maps when they agree one by one. */
  lemma SameSessions(s: State, ts: set<TransportId>, s': State, ts': set<TransportId>)
    requires s.sessions.Keys == s'.sessions.Keys
    requires forall sid :: sid in s.sessions ==> Stripped(s', sid, ts') == Stripped(s, sid, ts)
    ensures StrippedSessions(s', ts') == StrippedSessions(s, ts)
  {}

  lemma StripSessions(s: State, s': State, done: set<TransportId>, t: TransportId)
    requires t in s.transports && t !in done && s' == Strip(s, done)
    ensures StrippedSessions(s', {t}) == StrippedSessions(s, done + {t})
  {
    forall sid | sid in s.sessions ensures Stripped(s', sid, {t}) == Stripped(s, sid, done + {t}) {
      StrippedTwice(s, done, t, sid);
    }
    SameSessions(s, done + {t}, s', {t});
  }

  /** Removing one more transport after a set of them removes the larger set. */
  lemma StripStep(s: State, done: set<TransportId>, t: TransportId)
    requires t in s.transports && t !in done
    ensures Strip(Strip(s, done), {t}) == Strip(s, done + {t})
  {
    StripTransportGauge(s, done, t);
    StripConsumerGauge(s, done, t);
    StripSessions(s, Strip(s, done), done, t);
    MinusTwice(s.transports, done, {t});
    WithoutTwice(s.producers, ProducerOn(done), ProducerOn({t}), ProducerOn(done + {t}));
    WithoutTwice(s.consumers, ConsumerOn(done), ConsumerOn({t}), ConsumerOn(done + {t}));
  }

  // ----- what the loops of one teardown round and of one recovery add up to -----

  lemma VisitStep<K>(ids: set<K>, left: set<K>, k: K, keys: set<K>)
    requires k in left && left <= ids
    ensures (ids - (left - {k})) * keys == if k in keys then (ids - left) * keys + {k} else (ids - left) * keys
  {}

  lemma NoneGone(ms: map<SessionId, Session>, producers: map<ProducerId, Producer>, consumers: map<ConsumerId, Consumer>,
                 gone: set<nat>)
    requires gone == {}
    ensures LessProducers(ms, producers, gone) == ms
    ensures LessConsumers(ms, consumers, gone) == ms
  {
    forall sid ensures gone * KeysWhere(producers, ProducerIn(sid)) == gone {}
    forall sid ensures gone * KeysWhere(consumers, ConsumerIn(sid)) == gone {}
    forall m: map<nat, Producer> ensures m - gone == m {}
    forall m: map<nat, Consumer> ensures m - gone == m {}
  }

  lemma NoneCounted<K, V>(all: map<K, V>, p: V -> bool, gone: set<K>)
    requires gone == {}
    ensures |gone * KeysWhere(all, p)| == 0
  {
    assert gone * KeysWhere(all, p) == gone;
  }

  lemma NoConsumersGone(g: ConsumerGauge, all: map<ConsumerId, Consumer>, gone: set<ConsumerId>)
    requires gone == {}
    ensures LessGauge(g, all, gone) == g
  {
    forall k: TrackType ensures |gone * KeysWhere(all, Tracked(k))| == 0 { NoneCounted(all, Tracked(k), gone); }
  }

  lemma NoTransportsGone(g: TransportGauge, all: map<TransportId, Transport>, gone: set<TransportId>)
    requires gone == {}
    ensures LessTransportGauge(g, all, gone) == g
  {
    forall d: Direction ensures |gone * KeysWhere(all, Directed(d))| == 0 { NoneCounted(all, Directed(d), gone); }
  }

  lemma StrippedNone(s: State, sid: SessionId, none: set<TransportId>)
    requires sid in s.sessions && none == {}
    ensures Stripped(s, sid, none) == s.sessions[sid]
  {
    var x := s.sessions[sid];
    NothingOn(s, none);
    MinusNothing(x.transports, none * KeysWhere(s.transports, TransportIn(sid)));
    MinusNothing(x.producers, KeysWhere(s.producers, ProducerOn(none)) * KeysWhere(s.producers, ProducerIn(sid)));
    MinusNothing(x.consumers, KeysWhere(s.consumers, ConsumerOn(none)) * KeysWhere(s.consumers, ConsumerIn(sid)));
  }

  lemma MinusNothing<K, V>(m: map<K, V>, none: set<K>)
    requires none == {}
    ensures m - none == m
  {}

  lemma NothingOn(s: State, none: set<TransportId>)
    requires none == {}
    ensures KeysWhere(s.producers, ProducerOn(none)) == {} && KeysWhere(s.consumers, ConsumerOn(none)) == {}
    ensures Without(s.producers, ProducerOn(none)) == s.producers
    ensures Without(s.consumers, ConsumerOn(none)) == s.consumers
  {}

  lemma StripNoneSessions(s: State, none: set<TransportId>)
    requires none == {}
    ensures StrippedSessions(s, none) == s.sessions
  {
    forall sid | sid in s.sessions ensures Stripped(s, sid, none) == s.sessions[sid] { StrippedNone(s, sid, none); }
  }

  lemma StripNone(s: State, none: set<TransportId>)
    requires none == {}
    ensures Strip(s, none) == s
  {
    NothingOn(s, none);
    MinusNothing(s.transports, none);
    StripNoneSessions(s, none);
    NoTransportsGone(s.transportGauge, s.transports, none);
    NoConsumersGone(s.consumerGauge, s.consumers, KeysWhere(s.consumers, ConsumerOn(none)));
  }

  lemma OneTransportGone(g: TransportGauge, all: map<TransportId, Transport>, tid: TransportId, none: set<TransportId>)
    requires tid in all && none == {}
    ensures LessTransportGauge(g, all, {tid}) == BumpTransport(g, all[tid].direction, -1)
  {
    NoTransportsGone(g, all, none);
    LessTransportGaugeStep(g, all, none, tid);
    assert none + {tid} == {tid};
  }

  /** What a removal of transports leaves alone, and what it does to the transports and their gauge. */
  lemma StripKeeps(s: State, ts: set<TransportId>)
    ensures Strip(s, ts).transports == s.transports - ts
    ensures Strip(s, ts).connections == s.connections
    ensures Strip(s, ts).transportGauge == LessTransportGauge(s.transportGauge, s.transports, ts)
  {}

  lemma StripOneGauge(s: State, tid: TransportId)
    requires tid in s.transports
    ensures Strip(s, {tid}).transportGauge == BumpTransport(s.transportGauge, s.transports[tid].direction, -1)
  {
    hide Strip, LessTransportGauge;
    StripKeeps(s, {tid});
    OneTransportGone(s.transportGauge, s.transports, tid, {tid} - {tid});
  }

  /** The sessions after one teardown round has closed the contents of a transport. */
  function Emptied(s: State, tid: TransportId): map<SessionId, Session> {
    LessConsumers(LessProducers(s.sessions, s.producers, KeysWhere(s.producers, ProducerOn({tid}))),
                  s.consumers, KeysWhere(s.consumers, ConsumerOn({tid})))
  }

  lemma StrippedOne(s: State, tid: TransportId, sid: SessionId)
    requires tid in s.transports && sid in s.sessions
    ensures Stripped(s, sid, {tid}) ==
            if s.transports[tid].sessionId == sid
            then Emptied(s, tid)[sid].(transports := Emptied(s, tid)[sid].transports - {tid})
            else Emptied(s, tid)[sid]
  {
    var on := {tid} * KeysWhere(s.transports, TransportIn(sid));
    if s.transports[tid].sessionId == sid {
      assert on == {tid};
    } else {
      assert on == {};
      MinusNothing(s.sessions[sid].transports, on);
    }
  }

  lemma StripOneSessions(s: State, tid: TransportId)
    requires tid in s.transports
    ensures var sid, m := s.transports[tid].sessionId, Emptied(s, tid);
            StrippedSessions(s, {tid}) == if sid in m then m[sid := m[sid].(transports := m[sid].transports - {tid})] else m
  {
    var m, stripped := Emptied(s, tid), StrippedSessions(s, {tid});
    assert m.Keys == s.sessions.Keys;
    forall sid | sid in s.sessions
      ensures stripped[sid] == if s.transports[tid].sessionId == sid then m[sid].(transports := m[sid].transports - {tid}) else m[sid]
    {
      StrippedOne(s, tid, sid);
    }
  }

  lemma AllConsumersGone(g: ConsumerGauge, all: map<ConsumerId, Consumer>, gone: Consumer -> bool)
    ensures LessGauge(g, all, KeysWhere(all, gone)) == DropConsumers(g, all, gone)
  {}

  lemma AllTransportsGone(g: TransportGauge, all: map<TransportId, Transport>, gone: Transport -> bool)
    ensures LessTransportGauge(g, all, KeysWhere(all, gone)) == DropTransports(g, all, gone)
  {}

  function Marked(m: map<SessionId, Session>, sids: set<SessionId>): map<SessionId, Session> {
    map sid | sid in m :: if sid in sids then m[sid].(status := SessionResetting) else m[sid]
  }

  function Recreated(m: map<SessionId, Session>, sids: set<SessionId>, w: nat, epoch: nat): map<SessionId, Session> {
    map sid | sid in m.Keys + sids :: if sid in sids then FreshSession(w, epoch) else m[sid]
  }
}
