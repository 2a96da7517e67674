/** What the steps of a run say of the connection: which attempts are fulfilled, and what each call and callback leads
    to. Nothing here depends on how ConnectionLifecycle computes a step. */
module ConnectionHistory {
  import opened Results
  import opened ConnectionLifecycle

  lemma RunsOn(ss: seq<State>, es: seq<Step>, n: nat)
    requires Run(ss, es) && n < |es|
    ensures Enabled(ss[n], es[n]) && ss[n + 1] == Next(ss[n], es[n])
  {
    hide Enabled, Next;
  }

  /** While the attempt waits with its transport, a chunk arrives on it that begins with the server's hello, and neither
      onHandshake() nor a listener of the change disconnects or throws. */
  predicate ShakesHands(s: State, e: Step, id: nat) {
    && s.lifecycle == Connecting(id, true)
    && e.Data? && e.id == id && e.decoded.Some? && e.decoded.value != []
    && e.decoded.value[0].message == Hello && e.decoded.value[0].onHandshake == Returns && !e.decoded.value[0].disconnects
  }

  lemma {:induction false} ConnectedFulfilsNothing(s: State, ds: seq<Delivery>)
    requires !s.lifecycle.Connecting?
    ensures HandleMessages(s, ds).fulfilled == s.fulfilled
    decreases |ds|
  {
    if ds != [] && !s.lifecycle.Disconnected? {
      ConnectedFulfilsNothing(HandleMessage(s, ds[0]), ds[1..]);
    }
  }

  lemma FulfilStep(s: State, e: Step, id: nat)
    requires Enabled(s, e)
    ensures Next(s, e).fulfilled[id] == s.fulfilled[id] + if ShakesHands(s, e, id) then 1 else 0
  {
    if e.Data? && IsCurrent(s, e.id) && e.decoded.Some? && e.decoded.value != [] && (s.lifecycle.Connecting? ==> s.lifecycle.hasTransport) {
      var d := e.decoded.value[0];
      var t := HandleMessage(s, d);
      FirstMessage(s, d, id);
      ConnectedFulfilsNothing(t, e.decoded.value[1..]);
      hide HandleMessage;
    }
  }

  lemma FirstMessage(s: State, d: Delivery, id: nat)
    requires !s.lifecycle.Disconnected?
    ensures !HandleMessage(s, d).lifecycle.Connecting?
    ensures HandleMessage(s, d).fulfilled[id] == s.fulfilled[id] +
            if s.lifecycle == Connecting(id, true) && d.message == Hello && d.onHandshake == Returns && !d.disconnects then 1 else 0
  {
  }

  /** An attempt's handshake is fulfilled if and only if such a chunk arrived; and otherwise it is, once it is settled,
      rejected. */
  lemma {:induction false} FulfilledIff(ss: seq<State>, es: seq<Step>, n: nat, id: nat)
    requires Run(ss, es) && n < |ss|
    ensures ss[n].fulfilled[id] <= 1
    ensures ss[n].fulfilled[id] == 1 <==> exists k :: 0 <= k < n && ShakesHands(ss[k], es[k], id)
    ensures 1 <= id <= ss[n].sequence && !(ss[n].lifecycle.Connecting? && id == ss[n].sequence) ==>
              ss[n].rejected[id] == 1 - ss[n].fulfilled[id]
  {
    hide Enabled, Next, ShakesHands, Inv;
    AtMostOne(ss, es, n, id);
    if n > 0 {
      FulfilledIff(ss, es, n - 1, id);
      RunsOn(ss, es, n - 1);
      FulfilStep(ss[n - 1], es[n - 1], id);
    }
  }

  lemma AtMostOne(ss: seq<State>, es: seq<Step>, n: nat, id: nat)
    requires Run(ss, es) && n < |ss|
    ensures ss[n].fulfilled[id] + ss[n].rejected[id] <= 1
    ensures 1 <= id <= ss[n].sequence && !(ss[n].lifecycle.Connecting? && id == ss[n].sequence) ==>
              ss[n].fulfilled[id] + ss[n].rejected[id] == 1
  {
    hide Run;
    EveryRunKeepsInv(ss, es, n);
    assert ss[n].fulfilled[id] + ss[n].rejected[id] == Settlements(ss[n], id);
  }

  /** Every message is for the listeners, and none of them disconnects. */
  predicate AllPass(ds: seq<Delivery>) {
    forall i :: 0 <= i < |ds| ==> ds[i].message == Other && !ds[i].disconnects
  }

  lemma {:induction false} PassingChangesNothing(s: State, ds: seq<Delivery>)
    requires s.lifecycle.Connected?
    ensures AllPass(ds) ==> HandleMessages(s, ds) == s
    ensures !AllPass(ds) ==> HandleMessages(s, ds).lifecycle.Disconnected?
    decreases |ds|
  {
    if ds != [] {
      var t := HandleMessage(s, ds[0]);
      if ds[0].message == Other && !ds[0].disconnects {
        PassingChangesNothing(s, ds[1..]);
        assert AllPass(ds) <==> AllPass(ds[1..]) by {
          PassTail(ds);
        }
      } else {
        assert t.lifecycle.Disconnected? && !AllPass(ds);
      }
    }
  }

  lemma PassTail(ds: seq<Delivery>)
    requires ds != [] && ds[0].message == Other && !ds[0].disconnects
    ensures AllPass(ds) <==> AllPass(ds[1..])
  {
    if AllPass(ds[1..]) {
      forall i | 0 <= i < |ds| ensures ds[i].message == Other && !ds[i].disconnects {
        assert i > 0 ==> ds[1..][i - 1] == ds[i];
      }
    }
  }

  /** What a chunk on the current transport leads to: the first hello connects, the messages after it are passed on, and
      anything else disconnects. */
  lemma DataLeadsTo(ss: seq<State>, es: seq<Step>, n: nat)
    requires Run(ss, es) && n < |es| && es[n].Data?
    ensures var s, u, id, decoded := ss[n], ss[n + 1], es[n].id, es[n].decoded;
            && (s.lifecycle == Connected(id, false) ==>
                  if decoded.Some? && AllPass(decoded.value) then u == s
                  else u.lifecycle.Disconnected? && id in u.closed)
            && (s.lifecycle == Connecting(id, true) && decoded != Some([]) ==>
                  if ShakesHands(s, es[n], id) && AllPass(decoded.value[1..]) then u.lifecycle == Connected(id, false)
                  else u.lifecycle.Disconnected?)
            && (s.lifecycle == Connecting(id, false) ==> u.lifecycle.Disconnected?)
  {
    RunsOn(ss, es, n);
    hide Run;
    var s, id := ss[n], es[n].id;
    if es[n].decoded.Some? {
      var ds := es[n].decoded.value;
      if s.lifecycle == Connected(id, false) {
        PassingChangesNothing(s, ds);
        Closes(s, ds);
      } else if s.lifecycle == Connecting(id, true) && ds != [] {
        var t := HandleMessage(s, ds[0]);
        assert HandleMessages(s, ds) == HandleMessages(t, ds[1..]);
        assert if ShakesHands(s, es[n], id) then t.lifecycle == Connected(id, false) else t.lifecycle.Disconnected?;
        if t.lifecycle.Connected? {
          PassingChangesNothing(t, ds[1..]);
        }
      }
    }
  }

  lemma {:induction false} Closes(s: State, ds: seq<Delivery>)
    requires s.lifecycle.Connected?
    ensures HandleMessages(s, ds).lifecycle.Disconnected? ==> s.lifecycle.id in HandleMessages(s, ds).closed
    decreases |ds|
  {
    if ds != [] {
      var t := HandleMessage(s, ds[0]);
      if !t.lifecycle.Disconnected? {
        Closes(t, ds[1..]);
      }
    }
  }

  predicate Ends(e: Step) {
    e.FactoryRejects? || e.TransportCloses? || e.TransportFails? || e.SendFails?
  }

  /** What the other calls and callbacks lead to. */
  lemma CallsLeadTo(ss: seq<State>, es: seq<Step>, n: nat)
    requires Run(ss, es) && n < |es|
    ensures es[n] == Connect ==>
              && ss[n].lifecycle.Disconnected? && ss[n + 1].sequence == ss[n].sequence + 1
              && ss[n + 1].lifecycle == Connecting(ss[n].sequence + 1, false)
    ensures es[n] == Disconnect ==> ss[n + 1].lifecycle.Disconnected?
    ensures es[n].FactoryResolves? && ss[n].lifecycle == Connecting(es[n].id, false) ==>
              ss[n + 1].lifecycle == Connecting(es[n].id, true) && ss[n + 1].closed == ss[n].closed
    ensures Ends(es[n]) && !ss[n].lifecycle.Disconnected? && ss[n].lifecycle.id == es[n].id ==> ss[n + 1].lifecycle.Disconnected?
    ensures ss[n].lifecycle.Connected? && ss[n + 1].lifecycle.Disconnected? && !es[n].TransportCloses? && !es[n].FactoryRejects? ==>
              ss[n].lifecycle.id in ss[n + 1].closed
  {
    RunsOn(ss, es, n);
    EveryRunKeepsInv(ss, es, n);
    hide Run;
    if es[n].Data? && es[n].decoded.Some? && ss[n].lifecycle.Connected? {
      Closes(ss[n], es[n].decoded.value);
    }
    hide HandleMessages, Inv;
  }
}
