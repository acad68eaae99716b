/** When the incremental reader of a thread log and the one-shot projection show the same thing. */
module ThreadViewAgrees {
  import opened Wrappers
  import opened ThreadView

  // ----- logs on which they agree ------------------------------------------------------------------

  function IdOf(e: Event): MessageId
    requires e.payload.MessageCreated?
  {
    DurableId(GetOr(e.payload.messageId, e.id))
  }

  ghost predicate DistinctMessageIds(log: seq<Event>) {
    forall i, j | 0 <= i < j < |log| && log[i].payload.MessageCreated? && log[j].payload.MessageCreated? ::
      IdOf(log[i]) != IdOf(log[j])
  }

  ghost predicate OneDurableBlockPerAgent(log: seq<Event>) {
    forall i, j | 0 <= i < j < |log| && log[i].payload.MessageCreated? && log[j].payload.MessageCreated? ::
      Agents(BlocksOf(log[i])) !! Agents(BlocksOf(log[j]))
  }

  ghost predicate NoSubagentAfterItsBlock(log: seq<Event>) {
    forall i, j | 0 <= i < j < |log| && log[i].payload.MessageCreated? && log[j].payload.SubagentUpdated? ::
      SubagentBlockFrom(log[j]).agentId !in Agents(BlocksOf(log[i]))
  }

  predicate Closes(e: Event) {
    e.payload.MessageCreated? || e.payload.RunEnded?
  }

  ghost predicate OpenSince(log: seq<Event>, i: nat)
    requires i < |log|
  {
    log[i].payload.ProgressMade? && forall j | i < j < |log| :: !Closes(log[j])
  }

  ghost predicate BubbleOpen(log: seq<Event>) {
    exists i: nat :: i < |log| && OpenSince(log, i)
  }

  ghost predicate RunsEndQuietly(log: seq<Event>) {
    forall j | 0 <= j < |log| && log[j].payload.RunEnded? :: !BubbleOpen(log[..j])
  }

  ghost predicate WellFormed(log: seq<Event>) {
    DistinctMessageIds(log) && OneDurableBlockPerAgent(log) && NoSubagentAfterItsBlock(log) && RunsEndQuietly(log)
  }

  // ----- lists ------------------------------------------------------------------------------------------

  ghost predicate UniqueIds(messages: seq<Message>) {
    forall i, j | 0 <= i < j < |messages| :: messages[i].id != messages[j].id
  }

  lemma {:induction false} KeepIn(messages: seq<Message>, f: Message -> bool)
    ensures forall m :: m in Keep(messages, f) <==> m in messages && f(m)
  {
    if messages == [] {
    } else {
      KeepIn(messages[1..], f);
      assert messages == [messages[0]] + messages[1..];
    }
  }

  lemma {:induction false} KeepAppend(a: seq<Message>, b: seq<Message>, f: Message -> bool)
    ensures Keep(a + b, f) == Keep(a, f) + Keep(b, f)
  {
    if a == [] {
      assert a + b == b;
    } else {
      assert (a + b)[1..] == a[1..] + b && (a + b)[0] == a[0];
      KeepAppend(a[1..], b, f);
    }
  }

  lemma {:induction false} KeepUnique(messages: seq<Message>, f: Message -> bool)
    requires UniqueIds(messages)
    ensures UniqueIds(Keep(messages, f))
  {
    if messages == [] {
    } else {
      var rest := messages[1..];
      assert forall i | 0 <= i < |rest| :: rest[i] == messages[i + 1];
      KeepUnique(rest, f);
      KeepIn(rest, f);
      var kept := Keep(rest, f);
      forall i | 0 <= i < |kept| ensures kept[i].id != messages[0].id {
        assert kept[i] in kept;
      }
    }
  }

  // Dropping only messages that f keeps out, and that g would drop anyway, does not show through g.
  lemma {:induction false} KeepKeep(messages: seq<Message>, f: Message -> bool, g: Message -> bool)
    requires forall m | m in messages && g(m) :: f(m)
    ensures Keep(Keep(messages, f), g) == Keep(messages, g)
  {
    if messages == [] {
    } else {
      KeepKeep(messages[1..], f, g);
      assert messages[0] in messages;
      if f(messages[0]) {
        assert ([messages[0]] + Keep(messages[1..], f))[1..] == Keep(messages[1..], f);
      }
    }
  }

  lemma {:induction false} KeepNothing(messages: seq<Message>, f: Message -> bool)
    requires forall m | m in messages :: !f(m)
    ensures Keep(messages, f) == []
  {
    if messages == [] {
    } else {
      assert messages[0] in messages;
      KeepNothing(messages[1..], f);
    }
  }

  lemma UniqueAppend(a: seq<Message>, b: seq<Message>)
    requires UniqueIds(a) && UniqueIds(b)
    requires forall m, n | m in a && n in b :: m.id != n.id
    ensures UniqueIds(a + b)
  {
  }

  lemma {:induction false} FindIs(messages: seq<Message>, id: MessageId)
    ensures match Find(messages, id)
            case Some(m) => m in messages && m.id == id
            case None => forall m | m in messages :: m.id != id
  {
    if messages == [] {
    } else {
      FindIs(messages[1..], id);
      assert messages == [messages[0]] + messages[1..];
    }
  }

  lemma TailIsUnique(messages: seq<Message>)
    requires UniqueIds(messages) && messages != []
    ensures UniqueIds(messages[1..])
    ensures forall m | m in messages[1..] :: m.id != messages[0].id
    ensures forall m :: m in messages <==> m == messages[0] || m in messages[1..]
  {
    assert forall i | 0 <= i < |messages| - 1 :: messages[1..][i] == messages[i + 1];
    assert messages == [messages[0]] + messages[1..];
  }

  lemma UniqueCons(head: Message, tail: seq<Message>)
    requires UniqueIds(tail) && forall m | m in tail :: m.id != head.id
    ensures UniqueIds([head] + tail)
    ensures forall m :: m in [head] + tail <==> m == head || m in tail
  {
    assert forall i | 0 <= i < |tail| :: tail[i] in tail;
  }

  lemma {:induction false} SetLiveIs(live: seq<Message>, m: Message)
    requires UniqueIds(live)
    ensures UniqueIds(SetLive(live, m))
    ensures forall x :: x in SetLive(live, m) <==> x == m || (x in live && x.id != m.id)
  {
    if live == [] {
    } else {
      TailIsUnique(live);
      if live[0].id == m.id {
        UniqueCons(m, live[1..]);
      } else {
        SetLiveIs(live[1..], m);
        UniqueCons(live[0], SetLive(live[1..], m));
      }
    }
  }

  lemma {:induction false} DeleteLiveIs(live: seq<Message>, agents: set<string>)
    requires UniqueIds(live)
    ensures UniqueIds(DeleteLive(live, agents))
    ensures forall x :: x in DeleteLive(live, agents) <==> x in live && !(x.id.SubagentId? && x.id.agentId in agents)
  {
    if live == [] {
    } else {
      TailIsUnique(live);
      DeleteLiveIs(live[1..], agents);
      UniqueCons(live[0], DeleteLive(live[1..], agents));
    }
  }

  // ----- the relation ---------------------------------------------------------------------------------------

  // What the projection's variables look like on a well-formed log.
  ghost predicate Shape(p: Projection) {
    && (forall m | m in p.messages :: m.id.DurableId? && Agents(m.blocks) <= p.durable)
    && (forall m | m in p.live :: m.id.SubagentId? && m.id.agentId !in p.durable
                                  && |m.blocks| == 1 && m.blocks[0].SubagentBlock?
                                    && m.blocks[0].agentId == m.id.agentId)
    && (p.streaming.Some? ==> p.streaming.value.id.ProgressId?
                              && |p.streaming.value.blocks| == 1 && p.streaming.value.blocks[0].ProgressBlock?)
    && UniqueIds(p.messages) && UniqueIds(p.live)
  }

  ghost predicate Related(p: Projection, messages: seq<Message>) {
    && UniqueIds(messages)
    && Keep(messages, IsDurable) == p.messages
    && (forall m: Message | m.id.SubagentId? :: m in messages <==> m in p.live)
    && (forall m: Message | m.id.ProgressId? :: m in messages <==> p.streaming == Some(m))
  }

  // What the next event may be.
  ghost predicate Accepts(p: Projection, e: Event) {
    match e.payload
    case MessageCreated(_, _, _) => (forall m | m in p.messages :: m.id != IdOf(e)) && Agents(BlocksOf(e)) !! p.durable
    case SubagentUpdated(_, _, _, _, _, _) => SubagentBlockFrom(e).agentId !in p.durable
    case RunEnded => p.streaming == None
    case _ => true
  }

  lemma ShapeKept(p: Projection, e: Event)
    requires Shape(p) && Accepts(p, e)
    ensures Shape(ProjectEvent(p, e))
  {
    match e.payload
    case MessageCreated(_, _, _) =>
      DeleteLiveIs(p.live, Agents(BlocksOf(e)));
      forall m, n | m in p.messages && n in [DurableMessage(e)] ensures m.id != n.id {
      }
      UniqueAppend(p.messages, [DurableMessage(e)]);
    case SubagentUpdated(_, _, _, _, _, _) =>
      var block := SubagentBlockFrom(e);
      SetLiveIs(p.live, BotMessage(e, SubagentId(block.agentId), block));
    case _ =>
  }

  lemma ProgressKeepsRelated(p: Projection, messages: seq<Message>, e: Event)
    requires Shape(p) && Related(p, messages) && e.payload.ProgressMade?
    ensures Related(ProjectEvent(p, e), Reduce(Some(Snapshot(0, messages)), e).value.messages)
  {
    var q := ProjectEvent(p, e);
    var kept := Keep(messages, NotProgress);
    var next := Reduce(Some(Snapshot(0, messages)), e).value.messages;
    var id := ProgressMessageId(e);
    FindIs(messages, id);
    assert PreviousText(Find(messages, id)) == StreamedText(p.streaming, id);
    assert next == kept + [q.streaming.value];
    KeepIn(messages, NotProgress);
    KeepUnique(messages, NotProgress);
    UniqueAppend(kept, [q.streaming.value]);
    KeepKeep(messages, NotProgress, IsDurable);
    KeepAppend(kept, [q.streaming.value], IsDurable);
    assert Keep([q.streaming.value], IsDurable) == [];
  }

  lemma SubagentKeepsRelated(p: Projection, messages: seq<Message>, e: Event)
    requires Shape(p) && Related(p, messages) && e.payload.SubagentUpdated? && Accepts(p, e)
    ensures Related(ProjectEvent(p, e), Reduce(Some(Snapshot(0, messages)), e).value.messages)
  {
    var block := SubagentBlockFrom(e);
    var m := BotMessage(e, SubagentId(block.agentId), block);
    var f := NotProgressNor(m.id);
    var kept, progress := Keep(messages, f), Keep(messages, IsProgress);
    KeepIn(messages, f);
    KeepIn(messages, IsProgress);
    KeepUnique(messages, f);
    KeepUnique(messages, IsProgress);
    UniqueAppend(kept, [m]);
    UniqueAppend(kept + [m], progress);
    SetLiveIs(p.live, m);
    KeepKeep(messages, f, IsDurable);
    KeepAppend(kept, [m], IsDurable);
    KeepAppend(kept + [m], progress, IsDurable);
    KeepNothing(progress, IsDurable);
    assert Keep([m], IsDurable) == [];
    assert Keep(messages, IsDurable) + [] + [] == Keep(messages, IsDurable);
  }

  lemma DurableIsNotReplaced(p: Projection, messages: seq<Message>, e: Event, m: Message)
    requires Shape(p) && Related(p, messages) && e.payload.MessageCreated? && Accepts(p, e)
    requires m in messages && m.id.DurableId?
    ensures NotReplacedBy(IdOf(e), Agents(BlocksOf(e)))(m)
  {
    KeepIn(messages, IsDurable);
    assert m in p.messages;
    forall b | b in m.blocks && b.SubagentBlock? ensures b.agentId !in Agents(BlocksOf(e)) {
      assert b.agentId in Agents(m.blocks);
    }
  }

  lemma LiveIsReplacedIff(p: Projection, e: Event, m: Message)
    requires Shape(p) && e.payload.MessageCreated? && m in p.live
    ensures NotReplacedBy(IdOf(e), Agents(BlocksOf(e)))(m) <==> m.id.agentId !in Agents(BlocksOf(e))
  {
  }

  lemma CreatedKeepsRelated(p: Projection, messages: seq<Message>, e: Event)
    requires Shape(p) && Related(p, messages) && e.payload.MessageCreated? && Accepts(p, e)
    ensures Related(ProjectEvent(p, e), Reduce(Some(Snapshot(0, messages)), e).value.messages)
  {
    var m := DurableMessage(e);
    var f := NotReplacedBy(m.id, Agents(BlocksOf(e)));
    var kept, q := Keep(messages, f), ProjectEvent(p, e);
    KeepIn(messages, f);
    KeepUnique(messages, f);
    UniqueAppend(kept, [m]);
    forall x | x in messages && IsDurable(x) ensures f(x) {
      DurableIsNotReplaced(p, messages, e, x);
    }
    KeepKeep(messages, f, IsDurable);
    KeepAppend(kept, [m], IsDurable);
    assert Keep([m], IsDurable) == [m] + [];
    DeleteLiveIs(p.live, Agents(BlocksOf(e)));
    forall x: Message | x.id.SubagentId? ensures x in kept + [m] <==> x in q.live {
      if x in p.live {
        LiveIsReplacedIff(p, e, x);
      }
    }
  }

  lemma EventKeepsRelated(p: Projection, s: Snapshot, e: Event)
    requires Shape(p) && Related(p, s.messages) && Accepts(p, e)
    ensures Related(ProjectEvent(p, e), Reduce(Some(s), e).value.messages)
  {
    match e.payload
    case ProgressMade(_, _) => ProgressKeepsRelated(p, s.messages, e);
    case SubagentUpdated(_, _, _, _, _, _) => SubagentKeepsRelated(p, s.messages, e);
    case MessageCreated(_, _, _) => CreatedKeepsRelated(p, s.messages, e);
    case _ =>
  }

  // ----- from the log to what each event meets ----------------------------------------------------------------

  lemma {:induction false} ProjectedMessages(log: seq<Event>)
    ensures forall m | m in Project(log).messages ::
              exists i :: 0 <= i < |log| && log[i].payload.MessageCreated? && m.id == IdOf(log[i])
    ensures forall agent | agent in Project(log).durable ::
              exists i :: 0 <= i < |log| && log[i].payload.MessageCreated? && agent in Agents(BlocksOf(log[i]))
  {
    if log == [] {
    } else {
      var n := |log| - 1;
      var front, e := log[..n], log[n];
      ProjectedMessages(front);
      forall m | m in Project(log).messages
        ensures exists i :: 0 <= i < |log| && log[i].payload.MessageCreated? && m.id == IdOf(log[i])
      {
        if m in Project(front).messages {
          var i :| 0 <= i < n && front[i].payload.MessageCreated? && m.id == IdOf(front[i]);
          assert log[i] == front[i];
        } else {
          assert log[n].payload.MessageCreated? && m.id == IdOf(log[n]);
        }
      }
      forall agent | agent in Project(log).durable
        ensures exists i :: 0 <= i < |log| && log[i].payload.MessageCreated? && agent in Agents(BlocksOf(log[i]))
      {
        if agent in Project(front).durable {
          var i :| 0 <= i < n && front[i].payload.MessageCreated? && agent in Agents(BlocksOf(front[i]));
          assert log[i] == front[i];
        } else {
          assert log[n].payload.MessageCreated? && agent in Agents(BlocksOf(log[n]));
        }
      }
    }
  }

  // Every stored message of the log is projected, with its agents.
  lemma {:induction false} MessagesAreProjected(log: seq<Event>)
    ensures forall i | 0 <= i < |log| && log[i].payload.MessageCreated? ::
              DurableMessage(log[i]) in Project(log).messages && Agents(BlocksOf(log[i])) <= Project(log).durable
  {
    if log == [] {
    } else {
      var n := |log| - 1;
      var front := log[..n];
      MessagesAreProjected(front);
      forall i | 0 <= i < |log| && log[i].payload.MessageCreated?
        ensures DurableMessage(log[i]) in Project(log).messages && Agents(BlocksOf(log[i])) <= Project(log).durable
      {
        if i < n {
          assert log[i] == front[i];
        }
      }
    }
  }

  lemma ClosedMeansNoBubble(log: seq<Event>)
    requires log != [] && Closes(log[|log| - 1])
    ensures !BubbleOpen(log)
  {
  }

  /** A bubble is open exactly from a progress event to the next message or end of a run. */
  lemma {:induction false} StreamingIffBubbleOpen(log: seq<Event>)
    ensures Project(log).streaming.Some? <==> BubbleOpen(log)
  {
    if log == [] {
    } else {
      var n := |log| - 1;
      var front, e := log[..n], log[n];
      StreamingIffBubbleOpen(front);
      if e.payload.ProgressMade? {
        assert OpenSince(log, n);
      } else if Closes(e) {
        ClosedMeansNoBubble(log);
      } else {
        if BubbleOpen(front) {
          var i: nat :| i < n && OpenSince(front, i);
          assert forall j | 0 <= j < n :: log[j] == front[j];
          assert OpenSince(log, i);
        }
        if BubbleOpen(log) {
          var i: nat :| i < |log| && OpenSince(log, i);
          assert forall j | 0 <= j < n :: log[j] == front[j];
          assert OpenSince(front, i);
        }
      }
    }
  }

  lemma LastEventIsAccepted(log: seq<Event>)
    requires WellFormed(log) && log != []
    ensures Accepts(Project(log[..|log| - 1]), log[|log| - 1])
  {
    var n := |log| - 1;
    var front, e := log[..n], log[n];
    var p := Project(front);
    ProjectedMessages(front);
    assert forall i | 0 <= i < n :: front[i] == log[i];
    match e.payload
    case MessageCreated(_, _, _) =>
      forall m | m in p.messages ensures m.id != IdOf(e) {
        var i :| 0 <= i < n && front[i].payload.MessageCreated? && m.id == IdOf(front[i]);
        assert log[i] == front[i];
      }
      forall agent | agent in p.durable ensures agent !in Agents(BlocksOf(e)) {
        var i :| 0 <= i < n && front[i].payload.MessageCreated? && agent in Agents(BlocksOf(front[i]));
        assert log[i] == front[i];
      }
    case SubagentUpdated(_, _, _, _, _, _) =>
      var agent := SubagentBlockFrom(e).agentId;
      forall i | 0 <= i < n && front[i].payload.MessageCreated? ensures agent !in Agents(BlocksOf(front[i])) {
        assert log[i] == front[i];
      }
    case RunEnded => StreamingIffBubbleOpen(front);
    case _ =>
  }

  lemma FrontIsWellFormed(log: seq<Event>)
    requires WellFormed(log) && log != []
    ensures WellFormed(log[..|log| - 1])
  {
    var front := log[..|log| - 1];
    assert forall i | 0 <= i < |front| :: front[i] == log[i];
    forall j | 0 <= j < |front| && front[j].payload.RunEnded? ensures !BubbleOpen(front[..j]) {
      assert front[..j] == log[..j] && log[j] == front[j];
    }
  }

  lemma AcceptedKeepsQuiet(front: seq<Event>, e: Event)
    requires RunsEndQuietly(front) && Accepts(Project(front), e)
    ensures RunsEndQuietly(front + [e])
  {
    var log := front + [e];
    StreamingIffBubbleOpen(front);
    forall j | 0 <= j < |log| && log[j].payload.RunEnded?
      ensures !BubbleOpen(log[..j])
    {
      if j < |front| {
        assert front[j] == log[j] && front[..j] == log[..j];
      } else {
        assert log[..j] == front;
      }
    }
  }

  // What was stored before an accepted event shares neither id nor agents with it.
  lemma AcceptedIsNew(front: seq<Event>, e: Event, i: nat)
    requires Accepts(Project(front), e) && i < |front| && front[i].payload.MessageCreated?
    ensures e.payload.MessageCreated? ==> IdOf(front[i]) != IdOf(e) && Agents(BlocksOf(front[i])) !! Agents(BlocksOf(e))
    ensures e.payload.SubagentUpdated? ==> SubagentBlockFrom(e).agentId !in Agents(BlocksOf(front[i]))
  {
    MessagesAreProjected(front);
    assert DurableMessage(front[i]).id == IdOf(front[i]);
  }

  // An accepted event after a well-formed log leaves the log well-formed.
  lemma AcceptedKeepsWellFormed(front: seq<Event>, e: Event)
    requires WellFormed(front) && Accepts(Project(front), e)
    ensures WellFormed(front + [e])
  {
    var log := front + [e];
    AcceptedKeepsQuiet(front, e);
    assert forall i | 0 <= i < |front| :: log[i] == front[i];
    forall i | 0 <= i < |front| && front[i].payload.MessageCreated?
      ensures e.payload.MessageCreated? ==>
        IdOf(front[i]) != IdOf(e) && Agents(BlocksOf(front[i])) !! Agents(BlocksOf(e))
      ensures e.payload.SubagentUpdated? ==> SubagentBlockFrom(e).agentId !in Agents(BlocksOf(front[i]))
    {
      AcceptedIsNew(front, e, i);
    }
  }

  // ----- main results ------------------------------------------------------------------------------------------

  lemma {:induction false} KeepEverything(messages: seq<Message>, f: Message -> bool)
    requires forall m | m in messages :: f(m)
    ensures Keep(messages, f) == messages
  {
    if messages == [] {
    } else {
      assert messages[0] in messages;
      KeepEverything(messages[1..], f);
    }
  }

  lemma ShownParts(p: Projection)
    requires Shape(p)
    ensures UniqueIds(Shown(p))
    ensures Keep(Shown(p), IsDurable) == p.messages
    ensures forall m :: m in Shown(p) <==> m in p.messages || m in p.live || p.streaming == Some(m)
  {
    var bubble := if p.streaming.Some? then [p.streaming.value] else [];
    UniqueAppend(p.messages, p.live);
    UniqueAppend(p.messages + p.live, bubble);
    KeepAppend(p.messages, p.live, IsDurable);
    KeepAppend(p.messages + p.live, bubble, IsDurable);
    KeepNothing(p.live, IsDurable);
    KeepNothing(bubble, IsDurable);
    KeepEverything(p.messages, IsDurable);
    assert p.messages + [] + [] == p.messages;
  }

  // Both readers show the same messages under the same ids, each id once, and the durable ones in the
  // same order.
  ghost predicate Same(shown: seq<Message>, reduced: seq<Message>) {
    && UniqueIds(shown) && UniqueIds(reduced)
    && (forall m :: m in shown <==> m in reduced)
    && Keep(shown, IsDurable) == Keep(reduced, IsDurable)
  }

  lemma RelatedMeansSame(p: Projection, reduced: seq<Message>)
    requires Shape(p) && Related(p, reduced)
    ensures Same(Shown(p), reduced)
  {
    ShownParts(p);
    KeepIn(reduced, IsDurable);
    forall m ensures m in Shown(p) <==> m in reduced {
      match m.id
      case DurableId(_) => assert m in p.messages <==> m in Keep(reduced, IsDurable);
      case SubagentId(_) =>
      case ProgressId(_) =>
    }
  }

  lemma {:induction false} ShapeOfWellFormed(log: seq<Event>)
    requires WellFormed(log)
    ensures Shape(Project(log))
  {
    if log == [] {
    } else {
      FrontIsWellFormed(log);
      ShapeOfWellFormed(log[..|log| - 1]);
      LastEventIsAccepted(log);
      ShapeKept(Project(log[..|log| - 1]), log[|log| - 1]);
    }
  }

  lemma SameMeansRelated(p: Projection, messages: seq<Message>)
    requires Shape(p) && Same(Shown(p), messages)
    ensures Related(p, messages)
  {
    ShownParts(p);
  }

  // After `prefix` and `rest`, a client that started with `start` after `prefix` shows what the projection
  // shows.
  ghost predicate Agree(start: Snapshot, prefix: seq<Event>, rest: seq<Event>) {
    Same(Shown(Project(prefix + rest)), ReduceAll(start, rest).value.messages)
  }

  lemma {:induction false} FrontsAreWellFormed(log: seq<Event>, n: nat)
    requires WellFormed(log) && n <= |log|
    ensures WellFormed(log[..n])
    decreases |log|
  {
    if n == |log| {
      assert log[..n] == log;
    } else {
      FrontIsWellFormed(log);
      FrontsAreWellFormed(log[..|log| - 1], n);
      assert log[..|log| - 1][..n] == log[..n];
    }
  }

  // From anything that shows what the projection shows, reducer and projection stay related.
  lemma {:induction false} FoldsRelated(start: Snapshot, prefix: seq<Event>, rest: seq<Event>)
    requires WellFormed(prefix + rest) && Same(Shown(Project(prefix)), start.messages)
    ensures Shape(Project(prefix + rest)) && Related(Project(prefix + rest), ReduceAll(start, rest).value.messages)
    decreases |rest|
  {
    ShapeOfWellFormed(prefix + rest);
    if rest == [] {
      assert prefix + rest == prefix;
      SameMeansRelated(Project(prefix), start.messages);
    } else {
      var log, front := prefix + rest, rest[..|rest| - 1];
      assert log[..|log| - 1] == prefix + front && log[|log| - 1] == rest[|rest| - 1];
      FrontIsWellFormed(log);
      FoldsRelated(start, prefix, front);
      LastEventIsAccepted(log);
      EventKeepsRelated(Project(prefix + front), ReduceAll(start, front).value, rest[|rest| - 1]);
    }
  }

  /** On a well-formed log the client that starts anywhere in it with what the projection shows goes on
      showing what the projection shows. */
  lemma ReadersAgree(start: Snapshot, prefix: seq<Event>, rest: seq<Event>)
    requires WellFormed(prefix + rest) && Same(Shown(Project(prefix)), start.messages)
    ensures Agree(start, prefix, rest)
  {
    FoldsRelated(start, prefix, rest);
    RelatedMeansSame(Project(prefix + rest), ReduceAll(start, rest).value.messages);
  }

  // A message under an id that is already shown doubles the id.
  lemma SameIdDiffers(p: Projection, e: Event, m: Message, reduced: seq<Message>)
    requires e.payload.MessageCreated? && m in p.messages && m.id == IdOf(e)
    ensures !Same(Shown(ProjectEvent(p, e)), reduced)
  {
    var shown, i := Shown(ProjectEvent(p, e)), |p.messages|;
    var k :| 0 <= k < i && p.messages[k] == m;
    assert shown[k] == m && shown[i] == DurableMessage(e);
  }

  // A second stored block of an agent takes the first one's message out of the reducer's list.
  lemma SameAgentDiffers(p: Projection, s: Snapshot, e: Event, m: Message)
    requires e.payload.MessageCreated? && m in p.messages && m.id != IdOf(e)
      && !(Agents(m.blocks) !! Agents(BlocksOf(e)))
    ensures !Same(Shown(ProjectEvent(p, e)), Reduce(Some(s), e).value.messages)
  {
    var f := NotReplacedBy(IdOf(e), Agents(BlocksOf(e)));
    var agent :| agent in Agents(m.blocks) && agent in Agents(BlocksOf(e));
    KeepIn(s.messages, f);
    assert ReplacedSubagent(m, Agents(BlocksOf(e))) && !f(m);
    assert m !in Reduce(Some(s), e).value.messages;
    assert m in Shown(ProjectEvent(p, e));
  }

  lemma LateSubagentDiffers(p: Projection, s: Snapshot, e: Event)
    requires Shape(p) && e.payload.SubagentUpdated? && SubagentBlockFrom(e).agentId in p.durable
    ensures !Same(Shown(ProjectEvent(p, e)), Reduce(Some(s), e).value.messages)
  {
    var block := SubagentBlockFrom(e);
    var next := BotMessage(e, SubagentId(block.agentId), block);
    ShownParts(p);
    assert next in Reduce(Some(s), e).value.messages;
    assert next !in Shown(p);
  }

  lemma OpenBubbleDiffers(p: Projection, s: Snapshot, e: Event)
    requires Shape(p) && Related(p, s.messages) && e.payload.RunEnded? && p.streaming.Some?
    ensures !Same(Shown(ProjectEvent(p, e)), Reduce(Some(s), e).value.messages)
  {
    var bubble := p.streaming.value;
    ShownParts(ProjectEvent(p, e));
    assert bubble in s.messages;
    assert bubble !in Shown(ProjectEvent(p, e));
  }

  lemma AgentHasMessage(log: seq<Event>, agent: string) returns (m: Message)
    requires agent in Project(log).durable
    ensures m in Project(log).messages && agent in Agents(m.blocks)
  {
    ProjectedMessages(log);
    MessagesAreProjected(log);
    var i :| 0 <= i < |log| && log[i].payload.MessageCreated? && agent in Agents(BlocksOf(log[i]));
    m := DurableMessage(log[i]);
  }

  lemma RefusedMessageDiffers(log: seq<Event>, s: Snapshot, e: Event)
    requires e.payload.MessageCreated? && !Accepts(Project(log), e)
    ensures !Same(Shown(ProjectEvent(Project(log), e)), Reduce(Some(s), e).value.messages)
  {
    var p := Project(log);
    if m :| m in p.messages && m.id == IdOf(e) {
      SameIdDiffers(p, e, m, Reduce(Some(s), e).value.messages);
    } else {
      var agent :| agent in Agents(BlocksOf(e)) && agent in p.durable;
      var m := AgentHasMessage(log, agent);
      SameAgentDiffers(p, s, e, m);
    }
  }

  // The first event that is not accepted is seen at once.
  lemma RefusedDiffers(log: seq<Event>, s: Snapshot, e: Event)
    requires Shape(Project(log)) && Related(Project(log), s.messages) && !Accepts(Project(log), e)
    ensures !Same(Shown(ProjectEvent(Project(log), e)), Reduce(Some(s), e).value.messages)
  {
    match e.payload
    case MessageCreated(_, _, _) => RefusedMessageDiffers(log, s, e);
    case SubagentUpdated(_, _, _, _, _, _) => LateSubagentDiffers(Project(log), s, e);
    case RunEnded => OpenBubbleDiffers(Project(log), s, e);
    case _ =>
  }

  lemma OneMoreIsAccepted(start: Snapshot, prefix: seq<Event>, front: seq<Event>, e: Event)
    requires WellFormed(prefix + front) && Same(Shown(Project(prefix)), start.messages)
    requires Agree(start, prefix, front + [e])
    ensures Accepts(Project(prefix + front), e)
  {
    var log, rest := prefix + front + [e], front + [e];
    assert prefix + rest == log && log[..|log| - 1] == prefix + front && rest[..|rest| - 1] == front;
    FoldsRelated(start, prefix, front);
    var s := ReduceAll(start, front).value;
    assert Project(log) == ProjectEvent(Project(prefix + front), e);
    assert ReduceAll(start, rest) == Reduce(Some(s), e);
    if !Accepts(Project(prefix + front), e) {
      RefusedDiffers(prefix + front, s, e);
    }
  }

  lemma OneMoreIsWellFormed(start: Snapshot, prefix: seq<Event>, front: seq<Event>, e: Event)
    requires WellFormed(prefix + front) && Same(Shown(Project(prefix)), start.messages)
    requires Agree(start, prefix, front + [e])
    ensures WellFormed(prefix + (front + [e]))
  {
    OneMoreIsAccepted(start, prefix, front, e);
    AcceptedKeepsWellFormed(prefix + front, e);
    assert prefix + front + [e] == prefix + (front + [e]);
  }

  // After every event of `rest`, and before the first.
  ghost predicate AgreeThroughout(start: Snapshot, prefix: seq<Event>, rest: seq<Event>) {
    forall n | 0 <= n <= |rest| :: Agree(start, prefix, rest[..n])
  }

  lemma FrontAgrees(start: Snapshot, prefix: seq<Event>, front: seq<Event>, e: Event)
    requires AgreeThroughout(start, prefix, front + [e])
    ensures AgreeThroughout(start, prefix, front) && Agree(start, prefix, front + [e])
  {
    var rest := front + [e];
    assert rest[..|rest|] == rest;
    forall n | 0 <= n <= |front|
      ensures Agree(start, prefix, front[..n])
    {
      assert front[..n] == rest[..n];
    }
  }

  lemma {:induction false} AgreeingMeansWellFormed(start: Snapshot, prefix: seq<Event>, rest: seq<Event>)
    requires WellFormed(prefix) && Same(Shown(Project(prefix)), start.messages) && AgreeThroughout(start, prefix, rest)
    ensures WellFormed(prefix + rest)
    decreases |rest|
  {
    if rest == [] {
      assert prefix + rest == prefix;
    } else {
      var front, e := rest[..|rest| - 1], rest[|rest| - 1];
      assert rest == front + [e];
      FrontAgrees(start, prefix, front, e);
      AgreeingMeansWellFormed(start, prefix, front);
      OneMoreIsWellFormed(start, prefix, front, e);
    }
  }

  lemma AgreesAt(start: Snapshot, prefix: seq<Event>, rest: seq<Event>, n: nat)
    requires WellFormed(prefix + rest) && Same(Shown(Project(prefix)), start.messages) && n <= |rest|
    ensures Agree(start, prefix, rest[..n])
  {
    FrontsAreWellFormed(prefix + rest, |prefix| + n);
    assert (prefix + rest)[..|prefix| + n] == prefix + rest[..n];
    ReadersAgree(start, prefix, rest[..n]);
  }

  lemma AgreeAtFirst(start: Snapshot, prefix: seq<Event>, rest: seq<Event>)
    requires AgreeThroughout(start, prefix, rest)
    ensures Same(Shown(Project(prefix)), start.messages)
  {
    assert rest[..0] == [] && prefix + [] == prefix;
    assert Agree(start, prefix, rest[..0]);
  }

  /** Exactly when: a client agrees with the projection from the start and after every further event if and
      only if it starts with what the projection shows and the whole log is well-formed. */
  lemma AgreeThroughoutIff(start: Snapshot, prefix: seq<Event>, rest: seq<Event>)
    requires WellFormed(prefix)
    ensures AgreeThroughout(start, prefix, rest)
       <==> Same(Shown(Project(prefix)), start.messages) && WellFormed(prefix + rest)
  {
    if AgreeThroughout(start, prefix, rest) {
      AgreeAtFirst(start, prefix, rest);
      AgreeingMeansWellFormed(start, prefix, rest);
    } else if Same(Shown(Project(prefix)), start.messages) && WellFormed(prefix + rest) {
      forall n | 0 <= n <= |rest|
        ensures Agree(start, prefix, rest[..n])
      {
        AgreesAt(start, prefix, rest, n);
      }
    }
  }

  // The readers of a log that start with nothing.
  ghost predicate AgreeFromNothing(cursor: int, log: seq<Event>) {
    Same(Shown(Project(log)), ReduceAll(Snapshot(cursor, []), log).value.messages)
  }

  lemma NothingInFront(cursor: int, log: seq<Event>)
    ensures Agree(Snapshot(cursor, []), [], log) <==> AgreeFromNothing(cursor, log)
  {
    assert [] + log == log;
  }

  /** From an empty client over the whole log. */
  lemma AgreeFromTheStartIff(cursor: int, log: seq<Event>)
    ensures (forall n | 0 <= n <= |log| :: AgreeFromNothing(cursor, log[..n])) <==> WellFormed(log)
  {
    AgreeThroughoutIff(Snapshot(cursor, []), [], log);
    assert [] + log == log && Shown(Project([])) == [];
    forall n | 0 <= n <= |log|
      ensures Agree(Snapshot(cursor, []), [], log[..n]) <==> AgreeFromNothing(cursor, log[..n])
    {
      NothingInFront(cursor, log[..n]);
    }
  }

  /** Why runs must end quietly: the reducer keeps an open bubble past the end of its run. */
  lemma OpenBubbleOutlivesItsRun(cursor: int, progress: Event, end: Event)
    requires progress.payload.ProgressMade? && end.payload.RunEnded?
    ensures !WellFormed([progress, end])
    ensures Shown(Project([progress, end])) == []
    ensures |ReduceAll(Snapshot(cursor, []), [progress, end]).value.messages| == 1
  {
    var log := [progress, end];
    assert log[..1] == [progress] && [progress][..0] == [];
    assert BubbleOpen(log[..1]) by {
      assert OpenSince([progress], 0);
    }
    assert Project([progress]) == ProjectEvent(Project([]), progress);
    assert ReduceAll(Snapshot(cursor, []), [progress]) == Reduce(ReduceAll(Snapshot(cursor, []), []), progress);
  }

  /** Why no subagent event may follow its block: the projection ignores it, the reducer shows it. */
  lemma LateSubagentIsShownAgain(cursor: int, created: Event, late: Event)
    requires created.payload.MessageCreated? && late.payload.SubagentUpdated?
    requires SubagentBlockFrom(late).agentId in Agents(BlocksOf(created))
    ensures !WellFormed([created, late])
    ensures |Shown(Project([created, late]))| == 1
    ensures |ReduceAll(Snapshot(cursor, []), [created, late]).value.messages| == 2
  {
    var log := [created, late];
    assert log[..1] == [created] && [created][..0] == [];
    assert log[0].payload.MessageCreated? && log[1].payload.SubagentUpdated?;
    assert Project([created]) == ProjectEvent(Project([]), created);
    var first := ReduceAll(Snapshot(cursor, []), [created]);
    assert first == Reduce(ReduceAll(Snapshot(cursor, []), []), created);
    assert first.value.messages == [DurableMessage(created)];
    var shown, f := [DurableMessage(created)], NotProgressNor(SubagentId(SubagentBlockFrom(late).agentId));
    assert shown[1..] == [] && f(shown[0]);
    assert Keep(shown, f) == shown && Keep(shown, IsProgress) == [];
  }
}
