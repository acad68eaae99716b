/**
 The reconnecting notification client of packages/adapters/src/realtime.ts. One connection is
 shared by all subscribers; it may fail, hang, drop or be closed at any point, and the promise
 callbacks of a connect attempt run in their own turns, so everything else may come in between.
 */
module RealtimeClient {
  import opened Wrappers

  type Topic = string

  datatype Subscription = Subscription(topic: Topic, id: nat)

  // Where a connect attempt stands: its candidate is connecting or listening, is being disposed,
  // or the attempt is over and only its `finally` has not run. A factory that throws leaves no candidate.
  datatype Stage = Connecting | Disposing | Settling

  datatype Attempt = Attempt(candidate: Option<nat>, stage: Stage)

  // `disposed` are the clients whose listeners are gone. `stale` is history: the subscribers that may
  // have missed a signal and have not been told to catch up since.
  datatype Fanout = Fanout(
    subscribers: map<Topic, set<nat>>,
    client: Option<nat>,
    connectingClient: Option<nat>,
    connecting: Option<Attempt>,
    reconnectTimer: bool,
    reconnectAttempt: nat,
    closed: bool,
    closing: bool,
    created: nat,
    disposed: set<nat>,
    stale: set<Subscription>)

  datatype Action =
    | Subscribe(topic: Topic, id: nat, factoryOk: bool)
    | Unsubscribe(topic: Topic, id: nat)
    | Listening
    | ConnectFails
    | Disposed
    | AttemptOver
    | Disconnect(lost: nat)
    | TimerFires(factoryOk: bool)
    | Close
    | CloseResumes

  ghost function AllSubscriptions(s: Fanout): set<Subscription> {
    set topic, id | topic in s.subscribers && id in s.subscribers[topic] :: Subscription(topic, id)
  }

  // ----- the methods as functions ------------------------------------------------------------------

  ghost function ScheduleReconnect(s: Fanout): Fanout {
    if s.closed || s.subscribers == map[] || s.reconnectTimer then s
    else s.(reconnectTimer := true, reconnectAttempt := s.reconnectAttempt + 1)
  }

  ghost function EnsureConnected(s: Fanout, factoryOk: bool): Fanout {
    if s.closed || s.client.Some? || s.subscribers == map[] || s.connecting.Some? then s
    else if !factoryOk then s.(connecting := Some(Attempt(None, Settling)))
    else s.(connecting := Some(Attempt(Some(s.created), Connecting)),
            connectingClient := Some(s.created), created := s.created + 1)
  }

  ghost function DoSubscribe(s: Fanout, topic: Topic, id: nat, factoryOk: bool): Fanout {
    if s.closed then s
    else
      var before := if topic in s.subscribers then s.subscribers[topic] else {};
      EnsureConnected(
        s.(subscribers := s.subscribers[topic := before + {id}],
           stale := if s.client.None? then s.stale + {Subscription(topic, id)} else s.stale),
        factoryOk)
  }

  ghost function DoUnsubscribe(s: Fanout, topic: Topic, id: nat): Fanout {
    if topic !in s.subscribers then s
    else
      var left := s.subscribers[topic] - {id};
      s.(subscribers := if left == {} then s.subscribers - {topic} else s.subscribers[topic := left],
         stale := s.stale - {Subscription(topic, id)})
  }

  ghost predicate Enabled(s: Fanout, a: Action) {
    match a
    case Listening => s.connecting.Some? && s.connecting.value.stage == Connecting && s.connecting.value.candidate.Some?
    case ConnectFails => s.connecting.Some? && s.connecting.value.stage == Connecting
        && s.connecting.value.candidate.Some?
    case Disposed => s.connecting.Some? && s.connecting.value.stage == Disposing
    case AttemptOver => s.connecting.Some? && s.connecting.value.stage == Settling
    case Disconnect(lost) => lost < s.created && lost !in s.disposed
    case TimerFires(_) => s.reconnectTimer
    case CloseResumes => s.closing
    case _ => true
  }

  ghost function DoListening(s: Fanout): Fanout
    requires Enabled(s, Listening)
  {
    var candidate := s.connecting.value.candidate.value;
    if s.closed || s.subscribers == map[] || s.connectingClient != Some(candidate) then
      s.(connecting := Some(Attempt(Some(candidate), Disposing)), disposed := s.disposed + {candidate})
    else
      s.(connectingClient := None, client := Some(candidate), reconnectAttempt := 0,
         connecting := Some(Attempt(Some(candidate), Settling)),
         stale := s.stale - AllSubscriptions(s))
  }

  ghost function DoConnectFails(s: Fanout): Fanout
    requires Enabled(s, ConnectFails)
  {
    var candidate := s.connecting.value.candidate.value;
    s.(connectingClient := if s.connectingClient == Some(candidate) then None else s.connectingClient,
       connecting := Some(Attempt(Some(candidate), Disposing)), disposed := s.disposed + {candidate})
  }

  ghost function DoAttemptOver(s: Fanout): Fanout {
    var t := s.(connecting := None);
    if !t.closed && t.subscribers != map[] && t.client.None? then ScheduleReconnect(t) else t
  }

  ghost function DoDisconnect(s: Fanout, lost: nat): Fanout {
    if s.connectingClient == Some(lost) then
      ScheduleReconnect(s.(connectingClient := None, disposed := s.disposed + {lost}))
    else if s.client == Some(lost) then
      ScheduleReconnect(s.(client := None, disposed := s.disposed + {lost}, stale := s.stale + AllSubscriptions(s)))
    else s
  }

  ghost function DropClient(s: Fanout): Fanout {
    s.(closing := false, client := None,
       disposed := s.disposed + (if s.client.Some? then {s.client.value} else {}))
  }

  // Up to the first await; without a candidate to dispose there is none.
  ghost function DoClose(s: Fanout): Fanout {
    if s.closed then s
    else
      var t := s.(closed := true, closing := true, subscribers := map[], stale := {}, reconnectTimer := false,
                  connectingClient := None,
                  disposed := s.disposed + (if s.connectingClient.Some? then {s.connectingClient.value} else {}));
      if s.connectingClient.Some? then t else DropClient(t)
  }

  ghost function Step(s: Fanout, a: Action): Fanout
    requires Enabled(s, a)
  {
    match a
    case Subscribe(topic, id, factoryOk) => DoSubscribe(s, topic, id, factoryOk)
    case Unsubscribe(topic, id) => DoUnsubscribe(s, topic, id)
    case Listening => DoListening(s)
    case ConnectFails => DoConnectFails(s)
    case Disposed => s.(connecting := Some(s.connecting.value.(stage := Settling)))
    case AttemptOver => DoAttemptOver(s)
    case Disconnect(lost) => DoDisconnect(s, lost)
    case TimerFires(factoryOk) => EnsureConnected(s.(reconnectTimer := false), factoryOk)
    case Close => DoClose(s)
    case CloseResumes => DropClient(s)
  }

  // ----- the object ------------------------------------------------------------------------------------

  class PostgresRealtimeFanout {
    var subscribers: map<Topic, set<nat>>
    var client: Option<nat>
    var connectingClient: Option<nat>
    var connecting: Option<Attempt>
    var reconnectTimer: bool
    var reconnectAttempt: nat
    var closed: bool
    var closing: bool
    var created: nat
    var disposed: set<nat>
    ghost var stale: set<Subscription>

    ghost function Contents(): Fanout
      reads this
    {
      Fanout(subscribers, client, connectingClient, connecting, reconnectTimer, reconnectAttempt,
             closed, closing, created, disposed, stale)
    }

    constructor ()
      ensures Contents() == Fanout(map[], None, None, None, false, 0, false, false, 0, {}, {})
    {
      subscribers, client, connectingClient, connecting := map[], None, None, None;
      reconnectTimer, reconnectAttempt, closed, closing := false, 0, false, false;
      created, disposed, stale := 0, {}, {};
    }

    method ScheduleReconnectTimer()
      modifies this
      ensures Contents() == ScheduleReconnect(old(Contents()))
    {
      if closed || subscribers == map[] || reconnectTimer {
        return;
      }
      reconnectAttempt := reconnectAttempt + 1;
      reconnectTimer := true;
    }

    method Connect(factoryOk: bool)
      modifies this
      ensures Contents() == EnsureConnected(old(Contents()), factoryOk)
    {
      if closed || client.Some? || subscribers == map[] {
        return;
      }
      if connecting == None {
        if factoryOk {
          connectingClient := Some(created);
          connecting := Some(Attempt(Some(created), Connecting));
          created := created + 1;
        } else {
          connecting := Some(Attempt(None, Settling));
        }
      }
    }

    method AddSubscriber(topic: Topic, id: nat, factoryOk: bool) returns (refused: bool)
      modifies this
      ensures refused == old(closed) && Contents() == DoSubscribe(old(Contents()), topic, id, factoryOk)
    {
      refused := closed;
      if !refused {
        var topicSubscribers := if topic in subscribers then subscribers[topic] else {};
        subscribers := subscribers[topic := topicSubscribers + {id}];
        stale := if client.None? then stale + {Subscription(topic, id)} else stale;
        Connect(factoryOk);
      }
    }

    method RemoveSubscriber(topic: Topic, id: nat)
      modifies this
      ensures Contents() == DoUnsubscribe(old(Contents()), topic, id)
    {
      if topic in subscribers {
        var left := subscribers[topic] - {id};
        if left == {} {
          subscribers := subscribers - {topic};
        } else {
          subscribers := subscribers[topic := left];
        }
        stale := stale - {Subscription(topic, id)};
      }
    }

    method OnListening()
      requires Enabled(Contents(), Listening)
      modifies this
      ensures Contents() == DoListening(old(Contents()))
    {
      var candidate := connecting.value.candidate.value;
      if closed || subscribers == map[] || connectingClient != Some(candidate) {
        disposed := disposed + {candidate};
        connecting := Some(Attempt(Some(candidate), Disposing));
        return;
      }
      connectingClient := None;
      client := Some(candidate);
      reconnectAttempt := 0;
      NotifySubscribersToCatchUp();
      connecting := Some(Attempt(Some(candidate), Settling));
    }

    // Topic by topic, every subscriber is told once.
    method NotifySubscribersToCatchUp()
      modifies this`stale
      ensures stale == old(stale) - AllSubscriptions(old(Contents()))
    {
      var topics := subscribers.Keys;
      ghost var told: set<Subscription> := {};
      while topics != {}
        invariant topics <= subscribers.Keys
        invariant told == set topic, id | topic in subscribers && topic !in topics && id in subscribers[topic] ::
          Subscription(topic, id)
        invariant stale == old(stale) - told
        decreases |topics|
      {
        var topic :| topic in topics;
        ghost var here := set id | id in subscribers[topic] :: Subscription(topic, id);
        stale := stale - here;
        told := told + here;
        topics := topics - {topic};
      }
    }

    method HandleDisconnect(lost: nat)
      modifies this
      ensures Contents() == DoDisconnect(old(Contents()), lost)
    {
      if connectingClient == Some(lost) {
        connectingClient := None;
      } else if client == Some(lost) {
        stale := stale + AllSubscriptions(Contents());
        client := None;
      } else {
        return;
      }
      disposed := disposed + {lost};
      ScheduleReconnectTimer();
    }

    method CloseFanout()
      modifies this
      ensures Contents() == DoClose(old(Contents()))
    {
      if closed {
        return;
      }
      closed := true;
      subscribers := map[];
      stale := {};
      reconnectTimer := false;
      var candidate := connectingClient;
      connectingClient := None;
      if candidate.Some? {
        disposed := disposed + {candidate.value};
        closing := true;
        return;
      }
      FinishClose();
    }

    method FinishClose()
      modifies this
      ensures Contents() == DropClient(old(Contents()))
    {
      closing := false;
      if client.Some? {
        disposed := disposed + {client.value};
      }
      client := None;
    }
  }

  // ----- invariant --------------------------------------------------------------------------------------

  ghost predicate Init(s: Fanout) {
    s == Fanout(map[], None, None, None, false, 0, false, false, 0, {}, {})
  }

  ghost predicate Behaviour(ss: seq<Fanout>, acts: seq<Action>) {
    && |ss| == |acts| + 1
    && Init(ss[0])
    && (forall k | 0 <= k < |acts| :: Enabled(ss[k], acts[k]) && ss[k + 1] == Step(ss[k], acts[k]))
  }

  // Not closed, wanted and without a client: somebody is at it.
  ghost predicate NotStuck(s: Fanout) {
    !s.closed && s.subscribers != map[] && s.client.None? ==> s.connecting.Some? || s.reconnectTimer
  }

  ghost predicate IsConnecting(s: Fanout, c: nat) {
    s.connecting == Some(Attempt(Some(c), Connecting))
  }

  // A client that is not disposed is the one being connected or the one installed.
  ghost predicate ClientsOk(s: Fanout) {
    && (forall c | 0 <= c < s.created && c !in s.disposed :: IsConnecting(s, c) || s.client == Some(c))
    && (forall c | c in s.disposed :: c < s.created)
    && (s.client.Some? ==> s.client.value < s.created && s.client.value !in s.disposed)
    // a candidate that nobody wanted any more stays referenced after it was disposed
    && (s.connectingClient.Some? ==>
      s.connectingClient.value in s.disposed || IsConnecting(s, s.connectingClient.value))
    && (forall c: nat :: IsConnecting(s, c) ==>
          && c < s.created && s.client == None
          && s.connectingClient == (if c in s.disposed then None else Some(c)))
    && (s.connecting.Some? && s.connecting.value.candidate.None? ==> s.connecting.value.stage == Settling)
  }

  ghost predicate ClosedOk(s: Fanout) {
    && (s.closing ==> s.closed)
    && (s.closed ==> s.subscribers == map[] && !s.reconnectTimer && s.connectingClient == None)
    && (s.closed && !s.closing ==> s.client == None)
    && (forall topic | topic in s.subscribers :: s.subscribers[topic] != {})
  }

  ghost predicate FreshOk(s: Fanout) {
    && (s.client.Some? ==> s.stale == {})
    && s.stale <= AllSubscriptions(s)
  }

  ghost predicate Inv(s: Fanout) {
    NotStuck(s) && ClientsOk(s) && ClosedOk(s) && FreshOk(s)
  }

  lemma StepKeepsNotStuck(s: Fanout, a: Action)
    requires Inv(s) && Enabled(s, a)
    ensures NotStuck(Step(s, a))
  {
  }

  lemma ConnectKeepsClients(s: Fanout, factoryOk: bool)
    requires ClientsOk(s)
    ensures ClientsOk(EnsureConnected(s, factoryOk))
  {
  }

  lemma AttemptKeepsClients(s: Fanout, a: Action)
    requires ClientsOk(s) && Enabled(s, a)
    requires a.Listening? || a.ConnectFails? || a.Disposed? || a.AttemptOver?
    ensures ClientsOk(Step(s, a))
  {
  }

  lemma LossKeepsClients(s: Fanout, a: Action)
    requires ClientsOk(s) && Enabled(s, a)
    requires a.Disconnect? || a.Close? || a.CloseResumes?
    ensures ClientsOk(Step(s, a))
  {
    assert s.connectingClient.Some? ==> s.connectingClient != s.client;
  }

  lemma SubscribeKeepsClients(s: Fanout, topic: Topic, id: nat, factoryOk: bool)
    requires ClientsOk(s)
    ensures ClientsOk(DoSubscribe(s, topic, id, factoryOk))
  {
    if !s.closed {
      var before := if topic in s.subscribers then s.subscribers[topic] else {};
      var stale := if s.client.None? then s.stale + {Subscription(topic, id)} else s.stale;
      ConnectKeepsClients(s.(subscribers := s.subscribers[topic := before + {id}], stale := stale), factoryOk);
    }
  }

  lemma UnsubscribeKeepsClients(s: Fanout, topic: Topic, id: nat)
    requires ClientsOk(s)
    ensures ClientsOk(DoUnsubscribe(s, topic, id))
  {
  }

  lemma StepKeepsClients(s: Fanout, a: Action)
    requires ClientsOk(s) && Enabled(s, a)
    ensures ClientsOk(Step(s, a))
  {
    match a
    case Subscribe(topic, id, factoryOk) => SubscribeKeepsClients(s, topic, id, factoryOk);
    case TimerFires(factoryOk) => ConnectKeepsClients(s.(reconnectTimer := false), factoryOk);
    case Unsubscribe(topic, id) => UnsubscribeKeepsClients(s, topic, id);
    case Disconnect(_) => LossKeepsClients(s, a);
    case Close => LossKeepsClients(s, a);
    case CloseResumes => LossKeepsClients(s, a);
    case _ => AttemptKeepsClients(s, a);
  }

  lemma StepKeepsClosed(s: Fanout, a: Action)
    requires Inv(s) && Enabled(s, a)
    ensures ClosedOk(Step(s, a))
  {
  }

  lemma SubscribeKeepsFresh(s: Fanout, topic: Topic, id: nat, factoryOk: bool)
    requires FreshOk(s)
    ensures FreshOk(DoSubscribe(s, topic, id, factoryOk))
  {
  }

  lemma InAllIff(s: Fanout, x: Subscription)
    ensures x in AllSubscriptions(s) <==> x.topic in s.subscribers && x.id in s.subscribers[x.topic]
  {
    if x.topic in s.subscribers && x.id in s.subscribers[x.topic] {
      assert x == Subscription(x.topic, x.id);
    }
  }

  lemma UnsubscribeKeepsFresh(s: Fanout, topic: Topic, id: nat)
    requires FreshOk(s)
    ensures FreshOk(DoUnsubscribe(s, topic, id))
  {
    if topic in s.subscribers {
      var t := DoUnsubscribe(s, topic, id);
      forall x | x in t.stale
        ensures x in AllSubscriptions(t)
      {
        assert x in AllSubscriptions(s) && x != Subscription(topic, id);
        InAllIff(s, x);
        InAllIff(t, x);
        assert x.topic == topic ==> x.id in s.subscribers[topic] - {id};
      }
    }
  }

  lemma StepKeepsFresh(s: Fanout, a: Action)
    requires FreshOk(s) && ClosedOk(s) && Enabled(s, a)
    ensures FreshOk(Step(s, a))
  {
    match a
    case Subscribe(topic, id, factoryOk) => SubscribeKeepsFresh(s, topic, id, factoryOk);
    case Unsubscribe(topic, id) => UnsubscribeKeepsFresh(s, topic, id);
    case Disconnect(_) => assert AllSubscriptions(Step(s, a)) == AllSubscriptions(s);
    case Listening => assert AllSubscriptions(Step(s, a)) == AllSubscriptions(s);
    case Close =>
    case _ => assert Step(s, a).subscribers == s.subscribers;
  }

  lemma StepKeepsInv(s: Fanout, a: Action)
    requires Inv(s) && Enabled(s, a)
    ensures Inv(Step(s, a))
  {
    StepKeepsNotStuck(s, a);
    StepKeepsClients(s, a);
    StepKeepsClosed(s, a);
    StepKeepsFresh(s, a);
  }

  lemma {:induction false} AlwaysInv(ss: seq<Fanout>, acts: seq<Action>, k: nat)
    requires Behaviour(ss, acts) && k < |ss|
    ensures Inv(ss[k])
  {
    if k == 0 {
    } else {
      AlwaysInv(ss, acts, k - 1);
      StepKeepsInv(ss[k - 1], acts[k - 1]);
      assert ss[k] == Step(ss[k - 1], acts[k - 1]);
    }
  }

  // ----- main results ---------------------------------------------------------------------------------------

  /** While somebody is subscribed and the fanout is open, there is a client, or a step that works
      towards one is possible: the running attempt can move on, or the reconnect timer can fire. */
  lemma NeverStuck(ss: seq<Fanout>, acts: seq<Action>, k: nat)
    requires Behaviour(ss, acts) && k < |ss|
    requires !ss[k].closed && ss[k].subscribers != map[] && ss[k].client == None
    ensures var s := ss[k];
            Enabled(s, Listening) || Enabled(s, Disposed) || Enabled(s, AttemptOver)
            || Enabled(s, TimerFires(true))
    ensures var s := ss[k];
            Enabled(s, Listening) && s.connectingClient.Some? ==> Step(s, Listening).client == s.connectingClient
    ensures var s := ss[k];
            s.connecting == None && Enabled(s, TimerFires(true)) ==> IsConnecting(Step(s, TimerFires(true)), s.created)
  {
    AlwaysInv(ss, acts, k);
  }

  predicate Wanted(s: Fanout) {
    !s.closed && s.subscribers != map[]
  }

  // How many steps there are to an installed client, when connecting works and nothing comes in between.
  function Distance(s: Fanout): nat {
    if s.client.Some? then 0
    else match s.connecting
      case None => 2
      case Some(Attempt(candidate, Connecting)) => if candidate.Some? && s.connectingClient == candidate then 1 else 5
      case Some(Attempt(_, Disposing)) => 4
      case Some(Attempt(_, Settling)) => 3
  }

  function Onward(s: Fanout): Action {
    match s.connecting
    case None => TimerFires(true)
    case Some(Attempt(_, Connecting)) => Listening
    case Some(Attempt(_, Disposing)) => Disposed
    case Some(Attempt(_, Settling)) => AttemptOver
  }

  lemma OnwardGetsCloser(s: Fanout)
    requires Inv(s) && Wanted(s) && s.client.None?
    ensures Enabled(s, Onward(s)) && Wanted(Step(s, Onward(s)))
    ensures Distance(Step(s, Onward(s))) == Distance(s) - 1
  {
    if s.connecting.Some? && s.connecting.value.stage == Connecting {
      assert s.connecting.value.candidate.Some?;
      assert IsConnecting(s, s.connecting.value.candidate.value);
    }
  }

  // A run of the fanout's own steps, without subscriptions, losses or a close.
  ghost predicate OwnPath(ss: seq<Fanout>, acts: seq<Action>) {
    && |ss| == |acts| + 1
    && (forall k | 0 <= k < |acts| ::
          acts[k] == Onward(ss[k]) && Enabled(ss[k], acts[k]) && ss[k + 1] == Step(ss[k], acts[k]))
  }

  lemma {:induction false} LeadsToClient(s: Fanout) returns (ss: seq<Fanout>, acts: seq<Action>)
    requires Inv(s) && Wanted(s)
    ensures OwnPath(ss, acts) && ss[0] == s && |acts| == Distance(s)
    ensures ss[|acts|].client.Some?
    decreases Distance(s)
  {
    if s.client.Some? {
      ss, acts := [s], [];
    } else {
      OnwardGetsCloser(s);
      StepKeepsInv(s, Onward(s));
      var tt, more := LeadsToClient(Step(s, Onward(s)));
      ss, acts := [s] + tt, [Onward(s)] + more;
    }
  }

  /** From every state that is open and subscribed to, at most five steps of the fanout's own lead to an
      installed client, when the factory works and the candidate gets to listen. */
  lemma ReconnectsInFive(ss: seq<Fanout>, acts: seq<Action>, k: nat) returns (tt: seq<Fanout>, more: seq<Action>)
    requires Behaviour(ss, acts) && k < |ss| && Wanted(ss[k])
    ensures OwnPath(tt, more) && tt[0] == ss[k] && |more| <= 5 && tt[|more|].client.Some?
  {
    AlwaysInv(ss, acts, k);
    tt, more := LeadsToClient(ss[k]);
  }

  /** There is never more than one live connection, installed or under way. */
  lemma AtMostOneLiveClient(ss: seq<Fanout>, acts: seq<Action>, k: nat, c: nat, d: nat)
    requires Behaviour(ss, acts) && k < |ss|
    requires c < ss[k].created && c !in ss[k].disposed && d < ss[k].created && d !in ss[k].disposed
    ensures c == d
  {
    AlwaysInv(ss, acts, k);
  }

  /** Once close is through, there is no client and every one ever created has been disposed of, also
      when a connect attempt was under way. */
  lemma ClosedLeavesNothing(ss: seq<Fanout>, acts: seq<Action>, k: nat, c: nat)
    requires Behaviour(ss, acts) && k < |ss| && ss[k].closed && !ss[k].closing
    requires c < ss[k].created
    ensures ss[k].client == None && c in ss[k].disposed
  {
    AlwaysInv(ss, acts, k);
  }

  /** Whenever a client is installed, every subscriber that could have missed a signal while there
      was none has been told to catch up. */
  lemma InstalledMeansCaughtUp(ss: seq<Fanout>, acts: seq<Action>, k: nat)
    requires Behaviour(ss, acts) && k < |ss| && ss[k].client.Some?
    ensures ss[k].stale == {}
  {
    AlwaysInv(ss, acts, k);
  }
}
