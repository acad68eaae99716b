/**
 Clients that start from the server's snapshot. A stored message has a number and a time of its own, which
 differ from those of the event that tells of it, so messages are compared without the two.
 */
module SnapshotClients {
  import opened Wrappers
  import opened ThreadView
  import opened ThreadViewAgrees
  import opened ThreadSnapshots

  // ----- messages without number and time of storage ----------------------------------------------------

  function Look(m: Message): Message {
    if m.id.DurableId? then m.(seqNo := 0, createdAt := "") else m
  }

  function Looks(messages: seq<Message>): seq<Message> {
    if messages == [] then [] else [Look(messages[0])] + Looks(messages[1..])
  }

  function LookOfEvent(e: Event): Event {
    if e.payload.MessageCreated? then e.(seqNo := 0, createdAt := "") else e
  }

  function LooksOfLog(log: seq<Event>): (looks: seq<Event>)
    ensures |looks| == |log| && forall i | 0 <= i < |log| :: looks[i] == LookOfEvent(log[i])
  {
    seq(|log|, i requires 0 <= i < |log| => LookOfEvent(log[i]))
  }

  function LooksOf(p: Projection): Projection {
    var bubble := if p.streaming.Some? then Some(Look(p.streaming.value)) else None;
    Projection(Looks(p.messages), bubble, Looks(p.live), p.durable)
  }

  lemma LogsAppend(a: seq<Event>, b: seq<Event>)
    ensures LooksOfLog(a + b) == LooksOfLog(a) + LooksOfLog(b)
  {
  }

  lemma {:induction false} LooksAppend(a: seq<Message>, b: seq<Message>)
    ensures Looks(a + b) == Looks(a) + Looks(b)
  {
    if a == [] {
      assert a + b == b;
    } else {
      assert (a + b)[1..] == a[1..] + b && (a + b)[0] == a[0];
      LooksAppend(a[1..], b);
    }
  }

  lemma {:induction false} LooksAt(messages: seq<Message>)
    ensures |Looks(messages)| == |messages|
    ensures forall i | 0 <= i < |messages| :: Looks(messages)[i] == Look(messages[i])
  {
    if messages == [] {
    } else {
      LooksAt(messages[1..]);
    }
  }

  ghost predicate BlindTo(f: Message -> bool) {
    forall m: Message :: f(Look(m)) <==> f(m)
  }

  lemma {:induction false} KeepLooks(messages: seq<Message>, f: Message -> bool)
    requires BlindTo(f)
    ensures Keep(Looks(messages), f) == Looks(Keep(messages, f))
  {
    if messages == [] {
    } else {
      var rest := messages[1..];
      KeepLooks(rest, f);
      assert Looks(messages)[1..] == Looks(rest);
      assert f(Look(messages[0])) <==> f(messages[0]);
      assert ([messages[0]] + Keep(rest, f))[1..] == Keep(rest, f);
    }
  }

  lemma {:induction false} FindLooks(messages: seq<Message>, id: MessageId)
    ensures PreviousText(Find(Looks(messages), id)) == PreviousText(Find(messages, id))
  {
    if messages == [] {
    } else {
      FindLooks(messages[1..], id);
      assert Looks(messages)[1..] == Looks(messages[1..]);
    }
  }

  lemma {:induction false} SetLiveLooks(live: seq<Message>, m: Message)
    ensures SetLive(Looks(live), Look(m)) == Looks(SetLive(live, m))
  {
    if live == [] {
    } else {
      SetLiveLooks(live[1..], m);
      assert Looks(live)[1..] == Looks(live[1..]);
      assert ([m] + live[1..])[1..] == live[1..];
      assert ([live[0]] + SetLive(live[1..], m))[1..] == SetLive(live[1..], m);
    }
  }

  lemma {:induction false} DeleteLiveLooks(live: seq<Message>, agents: set<string>)
    ensures DeleteLive(Looks(live), agents) == Looks(DeleteLive(live, agents))
  {
    if live == [] {
    } else {
      DeleteLiveLooks(live[1..], agents);
      assert Looks(live)[1..] == Looks(live[1..]);
      assert ([live[0]] + DeleteLive(live[1..], agents))[1..] == DeleteLive(live[1..], agents);
    }
  }

  // ----- both readers look through it --------------------------------------------------------------------

  lemma ProjectEventLooks(p: Projection, e: Event)
    ensures ProjectEvent(LooksOf(p), LookOfEvent(e)) == LooksOf(ProjectEvent(p, e))
  {
    match e.payload
    case MessageCreated(_, _, _) =>
      LooksAppend(p.messages, [DurableMessage(e)]);
      assert Looks([DurableMessage(e)]) == [DurableMessage(LookOfEvent(e))];
      DeleteLiveLooks(p.live, Agents(BlocksOf(e)));
    case SubagentUpdated(_, _, _, _, _, _) =>
      var block := SubagentBlockFrom(e);
      SetLiveLooks(p.live, BotMessage(e, SubagentId(block.agentId), block));
    case _ =>
  }

  lemma {:induction false} ProjectLooks(log: seq<Event>)
    ensures Project(LooksOfLog(log)) == LooksOf(Project(log))
  {
    if log == [] {
    } else {
      var front, e := log[..|log| - 1], log[|log| - 1];
      ProjectLooks(front);
      assert LooksOfLog(log)[..|log| - 1] == LooksOfLog(front);
      ProjectEventLooks(Project(front), e);
    }
  }

  lemma ShownLooks(p: Projection)
    ensures Shown(LooksOf(p)) == Looks(Shown(p))
  {
    var bubble := if p.streaming.Some? then [p.streaming.value] else [];
    LooksAppend(p.messages, p.live);
    LooksAppend(p.messages + p.live, bubble);
    assert Looks(bubble) == if p.streaming.Some? then [Look(p.streaming.value)] else [];
  }

  // What Reduce makes of the messages alone.
  function Reduced(messages: seq<Message>, e: Event): seq<Message> {
    Reduce(Some(Snapshot(0, messages)), e).value.messages
  }

  lemma ProgressLooks(messages: seq<Message>, e: Event)
    requires e.payload.ProgressMade?
    ensures Reduced(Looks(messages), e) == Looks(Reduced(messages, e))
  {
    var id := ProgressMessageId(e);
    var text := ProgressMessageText(e.payload.delta, e.payload.text, PreviousText(Find(messages, id)));
    FindLooks(messages, id);
    KeepLooks(messages, NotProgress);
    LooksAppend(Keep(messages, NotProgress), [BotMessage(e, id, ProgressBlock(text))]);
  }

  lemma ThreeLook(front: seq<Message>, m: Message, back: seq<Message>)
    ensures Looks(front + [m] + back) == Looks(front) + [Look(m)] + Looks(back)
  {
    LooksAppend(front, [m]);
    LooksAppend(front + [m], back);
  }

  lemma SubagentLooks(messages: seq<Message>, e: Event)
    requires e.payload.SubagentUpdated?
    ensures Reduced(Looks(messages), e) == Looks(Reduced(messages, e))
  {
    var block := SubagentBlockFrom(e);
    var next := BotMessage(e, SubagentId(block.agentId), block);
    KeepLooks(messages, NotProgressNor(next.id));
    KeepLooks(messages, IsProgress);
    ThreeLook(Keep(messages, NotProgressNor(next.id)), next, Keep(messages, IsProgress));
  }

  lemma CreatedLooks(messages: seq<Message>, e: Event)
    requires e.payload.MessageCreated?
    ensures Reduced(Looks(messages), LookOfEvent(e)) == Looks(Reduced(messages, e))
  {
    var f := NotReplacedBy(IdOf(e), Agents(BlocksOf(e)));
    KeepLooks(messages, f);
    LooksAppend(Keep(messages, f), [DurableMessage(e)]);
  }

  lemma ReduceLooks(messages: seq<Message>, e: Event)
    ensures Reduced(Looks(messages), LookOfEvent(e)) == Looks(Reduced(messages, e))
  {
    match e.payload
    case ProgressMade(_, _) => ProgressLooks(messages, e);
    case SubagentUpdated(_, _, _, _, _, _) => SubagentLooks(messages, e);
    case MessageCreated(_, _, _) => CreatedLooks(messages, e);
    case _ =>
  }

  // The cursor plays no part in what is shown.
  lemma CursorIsNotShown(s: Snapshot, e: Event)
    ensures Reduce(Some(s), e).value.messages == Reduced(s.messages, e)
  {
  }

  lemma {:induction false} ReduceAllLooks(start: Snapshot, log: seq<Event>)
    ensures ReduceAll(start.(messages := Looks(start.messages)), LooksOfLog(log)).value.messages
         == Looks(ReduceAll(start, log).value.messages)
  {
    if log == [] {
    } else {
      var front, e := log[..|log| - 1], log[|log| - 1];
      var blind := start.(messages := Looks(start.messages));
      ReduceAllLooks(start, front);
      assert LooksOfLog(log)[..|log| - 1] == LooksOfLog(front);
      var s, t := ReduceAll(start, front).value, ReduceAll(blind, LooksOfLog(front)).value;
      CursorIsNotShown(s, e);
      CursorIsNotShown(t, LookOfEvent(e));
      ReduceLooks(s.messages, e);
    }
  }

  lemma OpenLooks(log: seq<Event>)
    ensures BubbleOpen(LooksOfLog(log)) <==> BubbleOpen(log)
  {
    var looks := LooksOfLog(log);
    forall i: nat | i < |log|
      ensures OpenSince(looks, i) <==> OpenSince(log, i)
    {
      assert forall j | 0 <= j < |log| :: Closes(looks[j]) <==> Closes(log[j]);
    }
    if BubbleOpen(looks) {
      var i: nat :| i < |looks| && OpenSince(looks, i);
      assert OpenSince(log, i);
    }
    if BubbleOpen(log) {
      var i: nat :| i < |log| && OpenSince(log, i);
      assert OpenSince(looks, i);
    }
  }

  lemma QuietLooks(log: seq<Event>)
    ensures RunsEndQuietly(LooksOfLog(log)) <==> RunsEndQuietly(log)
  {
    var looks := LooksOfLog(log);
    forall j | 0 <= j < |log|
      ensures BubbleOpen(looks[..j]) <==> BubbleOpen(log[..j])
      ensures looks[j].payload == log[j].payload
    {
      assert looks[..j] == LooksOfLog(log[..j]);
      OpenLooks(log[..j]);
    }
  }

  lemma PayloadsLook(log: seq<Event>)
    ensures forall i | 0 <= i < |log| ::
      LooksOfLog(log)[i].payload == log[i].payload && LooksOfLog(log)[i].id == log[i].id
  {
  }

  lemma IdsLook(log: seq<Event>)
    ensures DistinctMessageIds(LooksOfLog(log)) <==> DistinctMessageIds(log)
  {
    PayloadsLook(log);
  }

  lemma BlocksLook(log: seq<Event>)
    ensures OneDurableBlockPerAgent(LooksOfLog(log)) <==> OneDurableBlockPerAgent(log)
    ensures NoSubagentAfterItsBlock(LooksOfLog(log)) <==> NoSubagentAfterItsBlock(log)
  {
    PayloadsLook(log);
  }

  lemma WellFormedLooks(log: seq<Event>)
    ensures WellFormed(LooksOfLog(log)) <==> WellFormed(log)
  {
    QuietLooks(log);
    IdsLook(log);
    BlocksLook(log);
  }

  // ----- the snapshot looks through it, too ------------------------------------------------------------------

  lemma {:induction false} LiveEventsLook(log: seq<Event>, active: Option<string>)
    ensures LiveEvents(LooksOfLog(log), active) == LiveEvents(log, active)
  {
    if log == [] {
    } else {
      LiveEventsLook(log[..|log| - 1], active);
      assert LooksOfLog(log)[..|log| - 1] == LooksOfLog(log[..|log| - 1]);
    }
  }

  lemma {:induction false} LiveLooksItself(messages: seq<Message>)
    requires forall m | m in messages :: !m.id.DurableId?
    ensures Looks(messages) == messages
  {
    if messages == [] {
    } else {
      assert messages[0] in messages;
      LiveLooksItself(messages[1..]);
    }
  }

  lemma {:induction false} KeepAlike(messages: seq<Message>, f: Message -> bool, g: Message -> bool)
    requires forall m | m in messages :: f(m) <==> g(m)
    ensures Keep(messages, f) == Keep(messages, g)
  {
    if messages == [] {
    } else {
      assert messages[0] in messages;
      KeepAlike(messages[1..], f, g);
    }
  }

  lemma StoredAtIff(page: seq<Message>, m: Message)
    ensures StoredIn(page, m) <==> exists i :: 0 <= i < |page| && HoldsBlockOf(page[i], m)
  {
    if i :| 0 <= i < |page| && HoldsBlockOf(page[i], m) {
      assert page[i] in page;
    }
  }

  lemma StoredInLooks(page: seq<Message>, m: Message)
    ensures StoredIn(Looks(page), m) <==> StoredIn(page, m)
  {
    LooksAt(page);
    forall i | 0 <= i < |page|
      ensures HoldsBlockOf(Looks(page)[i], m) <==> HoldsBlockOf(page[i], m)
    {
      assert Looks(page)[i].blocks == page[i].blocks;
    }
    StoredAtIff(page, m);
    StoredAtIff(Looks(page), m);
  }

  lemma LastPageLooks(stored: seq<Message>, pageSize: nat)
    ensures LastPage(Looks(stored), pageSize) == Looks(LastPage(stored, pageSize))
  {
    LooksAt(stored);
    LooksAt(LastPage(stored, pageSize));
  }

  lemma ServerLooks(stored: seq<Message>, log: seq<Event>, active: Option<string>, pageSize: nat)
    ensures ServerMessages(Looks(stored), LooksOfLog(log), active, pageSize)
         == Looks(ServerMessages(stored, log, active, pageSize))
  {
    var page, q := LastPage(stored, pageSize), Alone(log, active);
    var live := Keep(Shown(q), LiveBehind(page));
    LastPageLooks(stored, pageSize);
    LiveEventsLook(log, active);
    AloneIs(log, active);
    ShownParts(q);
    KeepIn(Shown(q), LiveBehind(page));
    forall m | m in Shown(q)
      ensures LiveBehind(page)(m) <==> LiveBehind(Looks(page))(m)
    {
      StoredInLooks(page, m);
    }
    KeepAlike(Shown(q), LiveBehind(page), LiveBehind(Looks(page)));
    LooksAppend(page, live);
    LiveLooksItself(live);
  }

  lemma {:induction false} CarriedLooks(log: seq<Event>, run: string)
    ensures Carried(LooksOfLog(log), run) == Carried(log, run)
  {
    if log == [] {
    } else {
      var front := log[..|log| - 1];
      CarriedLooks(front, run);
      ProjectLooks(front);
      LiveEventsLook(front, Some(run));
      assert LooksOfLog(log)[..|log| - 1] == LooksOfLog(front);
    }
  }

  lemma BubbleFitsLooks(log: seq<Event>, active: Option<string>)
    ensures BubbleFits(LooksOfLog(log), active) <==> BubbleFits(log, active)
  {
    ProjectLooks(log);
    LiveEventsLook(log, active);
    if active.Some? {
      CarriedLooks(log, active.value);
    }
  }

  lemma SubagentsFitLooks(p: Projection, active: Option<string>)
    ensures SubagentsFit(LooksOf(p), active) <==> SubagentsFit(p, active)
  {
    LooksAt(p.live);
    forall i | 0 <= i < |p.live|
      ensures Looks(p.live)[i] in Looks(p.live) && p.live[i] in p.live && Looks(p.live)[i].runId == p.live[i].runId
    {
    }
  }

  lemma SnapshotFitsLooks(log: seq<Event>, active: Option<string>, pageSize: nat)
    ensures SnapshotFits(LooksOfLog(log), active, pageSize) <==> SnapshotFits(log, active, pageSize)
  {
    ProjectLooks(log);
    LooksAt(Project(log).messages);
    SubagentsFitLooks(Project(log), active);
    BubbleFitsLooks(log, active);
  }

  // ----- main results --------------------------------------------------------------------------------------------

  // Both show the same messages, stored ones up to number and time of storage.
  ghost predicate ShowSame(shown: seq<Message>, reduced: seq<Message>) {
    Same(Looks(shown), Looks(reduced))
  }

  // The stored rows are those the log tells of, in its order.
  predicate StoredFor(stored: seq<Message>, log: seq<Event>) {
    Looks(stored) == Looks(Project(log).messages)
  }

  // No progress event without a run has the active run's id for its own.
  predicate ActiveIsNamed(log: seq<Event>, active: Option<string>) {
    active.Some? ==> RunIdIsNoEventId(log, active.value)
  }

  lemma NamedLooks(log: seq<Event>, active: Option<string>)
    requires ActiveIsNamed(log, active)
    ensures ActiveIsNamed(LooksOfLog(log), active)
  {
    forall e | e in LooksOfLog(log) && e.payload.ProgressMade?
      ensures e in log
    {
      var i :| 0 <= i < |log| && LooksOfLog(log)[i] == e;
      assert log[i] == e;
    }
  }

  /** The snapshot shows what the projection shows if and only if the page holds all stored messages, every
      live subagent was last heard of from the active run, and the open bubble holds all that run has
      streamed. */
  lemma SnapshotShowsIff(stored: seq<Message>, log: seq<Event>, active: Option<string>, pageSize: nat)
    requires WellFormed(log) && StoredFor(stored, log) && ActiveIsNamed(log, active)
    ensures ShowSame(Shown(Project(log)), ServerMessages(stored, log, active, pageSize))
      <==> SnapshotFits(log, active, pageSize)
  {
    var looks := LooksOfLog(log);
    WellFormedLooks(log);
    NamedLooks(log, active);
    ExactSnapshotIff(looks, active, pageSize);
    SnapshotFitsLooks(log, active, pageSize);
    ServerLooks(stored, log, active, pageSize);
    ProjectLooks(log);
    ShownLooks(Project(log));
  }

  ghost predicate ClientAgrees(start: Snapshot, prefix: seq<Event>, rest: seq<Event>) {
    ShowSame(Shown(Project(prefix + rest)), ReduceAll(start, rest).value.messages)
  }

  lemma StartLooks(prefix: seq<Event>, messages: seq<Message>)
    ensures ShowSame(Shown(Project(prefix)), messages) <==> Same(Shown(Project(LooksOfLog(prefix))), Looks(messages))
  {
    ProjectLooks(prefix);
    ShownLooks(Project(prefix));
  }

  lemma ClientAgreesLooks(start: Snapshot, prefix: seq<Event>, rest: seq<Event>)
    ensures ClientAgrees(start, prefix, rest)
       <==> Agree(start.(messages := Looks(start.messages)), LooksOfLog(prefix), LooksOfLog(rest))
  {
    ReduceAllLooks(start, rest);
    LogsAppend(prefix, rest);
    StartLooks(prefix + rest, ReduceAll(start, rest).value.messages);
  }

  ghost predicate ClientAgreesThroughout(start: Snapshot, prefix: seq<Event>, rest: seq<Event>) {
    forall n | 0 <= n <= |rest| :: ClientAgrees(start, prefix, rest[..n])
  }

  lemma ThroughoutLooks(start: Snapshot, prefix: seq<Event>, rest: seq<Event>)
    ensures ClientAgreesThroughout(start, prefix, rest)
       <==> AgreeThroughout(start.(messages := Looks(start.messages)), LooksOfLog(prefix), LooksOfLog(rest))
  {
    var blind := start.(messages := Looks(start.messages));
    forall n | 0 <= n <= |rest|
      ensures ClientAgrees(start, prefix, rest[..n]) <==> Agree(blind, LooksOfLog(prefix), LooksOfLog(rest)[..n])
    {
      ClientAgreesLooks(start, prefix, rest[..n]);
      assert LooksOfLog(rest[..n]) == LooksOfLog(rest)[..n];
    }
  }

  lemma WholeLogLooks(prefix: seq<Event>, rest: seq<Event>)
    ensures WellFormed(LooksOfLog(prefix) + LooksOfLog(rest)) <==> WellFormed(prefix + rest)
  {
    WellFormedLooks(prefix + rest);
    LogsAppend(prefix, rest);
  }

  // A client that starts from anything after a well-formed prefix.
  lemma StartedClientAgreesIff(start: Snapshot, prefix: seq<Event>, rest: seq<Event>)
    requires WellFormed(prefix)
    ensures ClientAgreesThroughout(start, prefix, rest)
       <==> ShowSame(Shown(Project(prefix)), start.messages) && WellFormed(prefix + rest)
  {
    ThroughoutLooks(start, prefix, rest);
    WellFormedLooks(prefix);
    WholeLogLooks(prefix, rest);
    StartLooks(prefix, start.messages);
    AgreeThroughoutIff(start.(messages := Looks(start.messages)), LooksOfLog(prefix), LooksOfLog(rest));
  }

  /** A client that took a snapshot after `prefix` agrees with the projection from then on, after every
      event, if and only if the snapshot fits and the whole log is well-formed. */
  lemma SnapshotClientAgreesIff(cursor: int, stored: seq<Message>, prefix: seq<Event>, rest: seq<Event>,
                                active: Option<string>, pageSize: nat)
    requires WellFormed(prefix) && StoredFor(stored, prefix) && ActiveIsNamed(prefix, active)
    ensures ClientAgreesThroughout(Snapshot(cursor, ServerMessages(stored, prefix, active, pageSize)), prefix, rest)
       <==> SnapshotFits(prefix, active, pageSize) && WellFormed(prefix + rest)
  {
    StartedClientAgreesIff(Snapshot(cursor, ServerMessages(stored, prefix, active, pageSize)), prefix, rest);
    SnapshotShowsIff(stored, prefix, active, pageSize);
  }

  lemma AloneWithMessage(progress: Event, created: Event, active: Option<string>)
    requires active.Some? && IsLiveEvent(progress, active.value) && created.payload.MessageCreated?
    ensures LiveEvents([progress, created], active) == [progress]
  {
    var log := [progress, created];
    assert log[..1] == [progress] && [progress][..0] == [];
    assert LiveEvents([progress], active) == LiveEvents([], active) + [progress];
  }

  lemma BubbleStaysBehind(page: seq<Message>, bubble: Message)
    requires HasProgress(bubble)
    ensures Keep([bubble], LiveBehind(page)) == [bubble]
  {
    assert [bubble][1..] == [] && LiveBehind(page)(bubble);
  }

  lemma OneProgress(progress: Event)
    requires progress.payload.ProgressMade?
    ensures Project([progress]) == ProjectEvent(EMPTY, progress)
    ensures HasProgress(Project([progress]).streaming.value)
    ensures Shown(Project([progress])) == [Project([progress]).streaming.value]
  {
    assert [progress][..0] == [];
    var bubble := ProjectEvent(EMPTY, progress).streaming.value;
    assert bubble.blocks[0] in bubble.blocks;
  }

  /** Why the bubble matters: a message published in mid-run closes the bubble for the projection, and the
      snapshot, which does not look at messages, brings it back. */
  lemma ClosedBubbleComesBack(progress: Event, created: Event, run: string, pageSize: nat)
    requires progress.payload.ProgressMade? && progress.runId == Some(run) && created.payload.MessageCreated?
    requires pageSize >= 1
    ensures var log := [progress, created];
      && WellFormed(log) && |Shown(Project(log))| == 1
      && |ServerMessages(Project(log).messages, log, Some(run), pageSize)| == 2
  {
    var log := [progress, created];
    assert log[..1] == [progress];
    OneProgress(progress);
    AloneWithMessage(progress, created, Some(run));
    assert Project(log).messages == [DurableMessage(created)];
    BubbleStaysBehind(Project(log).messages, Project([progress]).streaming.value);
  }
}
