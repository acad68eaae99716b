/**
 The snapshot a client starts from (apps/api/src/router.ts): the last page of stored messages, and behind
 it what the events of the newest active run alone project to. When it shows what the projection of the
 whole log shows.
 */
module ThreadSnapshots {
  import opened Wrappers
  import opened ThreadView
  import opened ThreadViewAgrees

  // ----- the snapshot -----------------------------------------------------------------------------------

  predicate IsLiveEvent(e: Event, run: string) {
    e.runId == Some(run) && (e.payload.ProgressMade? || e.payload.SubagentUpdated?)
  }

  function LiveEvents(log: seq<Event>, active: Option<string>): seq<Event> {
    if log == [] || active.None? then []
    else
      var e := log[|log| - 1];
      LiveEvents(log[..|log| - 1], active) + (if IsLiveEvent(e, active.value) then [e] else [])
  }

  function LastPage(stored: seq<Message>, pageSize: nat): seq<Message> {
    if |stored| <= pageSize then stored else stored[|stored| - pageSize..]
  }

  predicate HasProgress(m: Message) {
    exists b | b in m.blocks :: b.ProgressBlock?
  }

  // The row holds the block of the subagent whose message this is.
  predicate HoldsBlockOf(row: Message, m: Message) {
    exists b | b in row.blocks :: b.SubagentBlock? && m.id == SubagentId(b.agentId)
  }

  predicate StoredIn(page: seq<Message>, m: Message) {
    exists row | row in page :: HoldsBlockOf(row, m)
  }

  function LiveBehind(page: seq<Message>): Message -> bool {
    (m: Message) => HasProgress(m) || (m.id.SubagentId? && !StoredIn(page, m))
  }

  function ServerMessages(stored: seq<Message>, log: seq<Event>, active: Option<string>, pageSize: nat): seq<Message> {
    var page := LastPage(stored, pageSize);
    page + Keep(Shown(Project(LiveEvents(log, active))), LiveBehind(page))
  }

  // ----- what the active run alone projects to -------------------------------------------------------------

  function Alone(log: seq<Event>, active: Option<string>): Projection {
    Project(LiveEvents(log, active))
  }

  lemma AloneStep(log: seq<Event>, active: Option<string>)
    requires log != []
    ensures
      var front, e := log[..|log| - 1], log[|log| - 1];
      Alone(log, active) ==
      if active.Some? && IsLiveEvent(e, active.value) then ProjectEvent(Alone(front, active), e)
      else Alone(front, active)
  {
    var front, e := log[..|log| - 1], log[|log| - 1];
    var before := LiveEvents(front, active);
    if active.Some? && IsLiveEvent(e, active.value) {
      assert LiveEvents(log, active) == before + [e];
      assert (before + [e])[..|before|] == before;
    } else {
      assert before + [] == before && LiveEvents(log, active) == before;
    }
  }

  lemma {:induction false} AloneIs(log: seq<Event>, active: Option<string>)
    ensures Shape(Alone(log, active)) && Alone(log, active).messages == [] && Alone(log, active).durable == {}
    ensures forall m | m in Alone(log, active).live :: m.runId.Some? && m.runId == active
    ensures Alone(log, active).streaming.Some? ==> active.Some? && Alone(log, active).streaming.value.runId == active
  {
    if log == [] || active.None? {
      assert LiveEvents(log, active) == [] && Alone(log, active) == EMPTY;
    } else {
      var front, e := log[..|log| - 1], log[|log| - 1];
      AloneIs(front, active);
      AloneStep(log, active);
      if active.Some? && IsLiveEvent(e, active.value) {
        ShapeKept(Alone(front, active), e);
        if e.payload.SubagentUpdated? {
          var block := SubagentBlockFrom(e);
          SetLiveIs(Alone(front, active).live, BotMessage(e, SubagentId(block.agentId), block));
        }
      }
    }
  }

  // ----- live subagents ---------------------------------------------------------------------------------------

  // Every live subagent was last heard of from the active run.
  predicate SubagentsFit(p: Projection, active: Option<string>) {
    forall m | m in p.live :: m.runId.Some? && m.runId == active
  }

  // How the live subagents of the whole log and of the active run alone belong together.
  ghost predicate OwnLiveKnown(p: Projection, q: Projection, active: Option<string>) {
    forall m | m in p.live && m.runId.Some? && m.runId == active :: m in q.live
  }

  ghost predicate NamesakesLive(p: Projection, q: Projection) {
    forall m | m in q.live && m.id.SubagentId? && m.id.agentId !in p.durable :: Find(p.live, m.id).Some?
  }

  ghost predicate LiveRelated(p: Projection, q: Projection, active: Option<string>) {
    OwnLiveKnown(p, q, active) && NamesakesLive(p, q)
  }

  lemma SubagentKeepsLiveRelated(p: Projection, q: Projection, e: Event, active: Option<string>)
    requires Shape(p) && Shape(q) && LiveRelated(p, q, active) && q.durable == {}
    requires e.payload.SubagentUpdated? && Accepts(p, e)
    ensures LiveRelated(ProjectEvent(p, e),
                        if active.Some? && IsLiveEvent(e, active.value) then ProjectEvent(q, e) else q, active)
  {
    var block := SubagentBlockFrom(e);
    var next := BotMessage(e, SubagentId(block.agentId), block);
    SetLiveIs(p.live, next);
    SetLiveIs(q.live, next);
    var p' := ProjectEvent(p, e);
    assert next in p'.live;
    forall m | m in q.live && m.id.agentId !in p.durable
      ensures Find(p'.live, m.id).Some?
    {
      FindIs(p.live, m.id);
      FindIs(p'.live, m.id);
      if m.id != next.id {
        assert Find(p.live, m.id).value in p'.live;
      }
    }
    FindIs(p'.live, next.id);
  }

  lemma CreatedKeepsLiveRelated(p: Projection, q: Projection, e: Event, active: Option<string>)
    requires Shape(p) && Shape(q) && LiveRelated(p, q, active) && e.payload.MessageCreated?
    ensures LiveRelated(ProjectEvent(p, e), q, active)
  {
    DeleteLiveIs(p.live, Agents(BlocksOf(e)));
    var p' := ProjectEvent(p, e);
    forall m | m in q.live && m.id.agentId !in p'.durable
      ensures Find(p'.live, m.id).Some?
    {
      FindIs(p.live, m.id);
      FindIs(p'.live, m.id);
      assert Find(p.live, m.id).value in p'.live;
    }
  }

  lemma {:induction false} LiveStaysRelated(log: seq<Event>, active: Option<string>)
    requires WellFormed(log)
    ensures LiveRelated(Project(log), Alone(log, active), active)
  {
    if log == [] {
    } else {
      var front, e := log[..|log| - 1], log[|log| - 1];
      FrontIsWellFormed(log);
      ShapeOfWellFormed(front);
      LastEventIsAccepted(log);
      LiveStaysRelated(front, active);
      AloneIs(front, active);
      AloneStep(log, active);
      match e.payload
      case SubagentUpdated(_, _, _, _, _, _) =>
        SubagentKeepsLiveRelated(Project(front), Alone(front, active), e, active);
      case MessageCreated(_, _, _) => CreatedKeepsLiveRelated(Project(front), Alone(front, active), e, active);
      case _ =>
    }
  }

  ghost predicate SameLive(p: Projection, q: Projection) {
    forall m: Message | m.id.SubagentId? :: m in p.live <==> m in q.live && m.id.agentId !in p.durable
  }

  lemma SameIdSame(messages: seq<Message>, m: Message, n: Message)
    requires UniqueIds(messages) && m in messages && n in messages && m.id == n.id
    ensures m == n
  {
  }

  lemma FittingIsKnown(p: Projection, q: Projection, active: Option<string>)
    requires OwnLiveKnown(p, q, active) && SubagentsFit(p, active)
    ensures forall m | m in p.live :: m in q.live
  {
  }

  lemma FittingIsSame(p: Projection, q: Projection)
    requires Shape(p) && Shape(q) && NamesakesLive(p, q) && forall m | m in p.live :: m in q.live
    ensures SameLive(p, q)
  {
    forall m: Message | m.id.SubagentId? && m in q.live && m.id.agentId !in p.durable
      ensures m in p.live
    {
      FindIs(p.live, m.id);
      SameIdSame(q.live, m, Find(p.live, m.id).value);
    }
  }

  lemma SameLiveIff(p: Projection, q: Projection, active: Option<string>)
    requires Shape(p) && Shape(q) && LiveRelated(p, q, active)
    requires forall m | m in q.live :: m.runId.Some? && m.runId == active
    ensures SameLive(p, q) <==> SubagentsFit(p, active)
  {
    if SubagentsFit(p, active) {
      FittingIsKnown(p, q, active);
      FittingIsSame(p, q);
    } else {
      var m :| m in p.live && !(m.runId.Some? && m.runId == active);
      assert m.id.SubagentId? && m !in q.live;
    }
  }

  // ----- the bubble --------------------------------------------------------------------------------------------

  predicate BubbleOf(p: Projection, run: string) {
    p.streaming.Some? && p.streaming.value.runId == Some(run)
  }

  // What the active run had streamed before its bubble was last begun, unless a whole text came since.
  function Carried(log: seq<Event>, run: string): string {
    if log == [] then ""
    else
      var front, e := log[..|log| - 1], log[|log| - 1];
      if !(e.payload.ProgressMade? && e.runId == Some(run)) then Carried(front, run)
      else if e.payload.delta.None? then ""
      else if BubbleOf(Project(front), run) then Carried(front, run)
      else StreamedText(Alone(front, Some(run)).streaming, ProgressId(run))
  }

  // The bubble that is open in the log is the active run's and holds all the run has streamed; with none
  // open, the run has streamed nothing that is still in the log.
  predicate BubbleFits(log: seq<Event>, active: Option<string>) {
    if Project(log).streaming.None? then Alone(log, active).streaming.None?
    else active.Some? && BubbleOf(Project(log), active.value) && Carried(log, active.value) == ""
  }

  // No progress event without a run has the run's id for its own.
  predicate RunIdIsNoEventId(log: seq<Event>, run: string) {
    forall e | e in log && e.payload.ProgressMade? && e.runId.None? :: e.id != run
  }

  function TextOf(m: Message): string {
    if m.blocks != [] && m.blocks[0].ProgressBlock? then m.blocks[0].text else ""
  }

  // The run's own bubble is the open one, with what was carried in front of its text.
  ghost predicate BubbleRelated(log: seq<Event>, run: string) {
    BubbleOf(Project(log), run) ==>
      var shown, alone := Project(log).streaming.value, Alone(log, Some(run)).streaming;
      && shown.id == ProgressId(run) && |shown.blocks| == 1 && shown.blocks[0].ProgressBlock?
      && alone == Some(shown.(blocks := [ProgressBlock(Carried(log, run) + TextOf(shown))]))
  }

  // A bubble that has the run's id is the run's.
  ghost predicate BubblesNamed(log: seq<Event>, run: string) {
    Project(log).streaming.Some? && Project(log).streaming.value.id == ProgressId(run) ==> BubbleOf(Project(log), run)
  }

  lemma {:induction false} BubblesStayNamed(log: seq<Event>, run: string)
    requires RunIdIsNoEventId(log, run)
    ensures BubblesNamed(log, run)
  {
    if log == [] {
    } else {
      assert log[|log| - 1] in log;
      BubblesStayNamed(log[..|log| - 1], run);
    }
  }

  lemma RunProgressKeepsBubbleRelated(log: seq<Event>, run: string)
    requires log != []
    requires var e := log[|log| - 1]; e.payload.ProgressMade? && e.runId == Some(run)
    requires BubbleRelated(log[..|log| - 1], run) && BubblesNamed(log[..|log| - 1], run)
    ensures BubbleRelated(log, run)
  {
    var front, e := log[..|log| - 1], log[|log| - 1];
    var p, alone := Project(front), Alone(front, Some(run));
    AloneStep(log, Some(run));
    AloneIs(front, Some(run));
    var shown := StreamedText(p.streaming, ProgressId(run));
    var whole := StreamedText(alone.streaming, ProgressId(run));
    if e.payload.delta.Some? {
      var delta := e.payload.delta.value;
      if BubbleOf(p, run) {
        assert shown == TextOf(p.streaming.value);
        assert whole == Carried(front, run) + shown;
        assert whole + delta == Carried(front, run) + (shown + delta);
        assert Carried(log, run) == Carried(front, run);
      } else {
        assert shown == "" && shown + delta == delta;
        assert Carried(log, run) == whole;
      }
    } else {
      assert Carried(log, run) == "" && "" + GetOr(e.payload.text, "") == GetOr(e.payload.text, "");
    }
  }

  lemma {:induction false} BubbleStaysRelated(log: seq<Event>, run: string)
    requires RunIdIsNoEventId(log, run)
    ensures BubbleRelated(log, run)
  {
    if log == [] {
    } else {
      var front, e := log[..|log| - 1], log[|log| - 1];
      BubbleStaysRelated(front, run);
      BubblesStayNamed(front, run);
      if e.payload.ProgressMade? && e.runId == Some(run) {
        RunProgressKeepsBubbleRelated(log, run);
      } else {
        AloneStep(log, Some(run));
      }
    }
  }

  lemma SameBubbleIff(log: seq<Event>, active: Option<string>)
    requires active.Some? ==> RunIdIsNoEventId(log, active.value)
    ensures Project(log).streaming == Alone(log, active).streaming <==> BubbleFits(log, active)
  {
    AloneIs(log, active);
    if active.Some? && BubbleOf(Project(log), active.value) {
      BubbleStaysRelated(log, active.value);
      var shown := Project(log).streaming.value;
      var text := TextOf(shown);
      assert shown.blocks == [ProgressBlock(text)];
      assert |Carried(log, active.value) + text| == |Carried(log, active.value)| + |text|;
      assert "" + text == text;
    }
  }

  // ----- when the snapshot shows what the projection shows -----------------------------------------------------

  lemma NoProgressInLive(q: Projection, m: Message)
    requires Shape(q) && m in q.live
    ensures !HasProgress(m)
  {
  }

  lemma BubbleHasProgress(q: Projection)
    requires Shape(q) && q.streaming.Some?
    ensures HasProgress(q.streaming.value)
  {
    assert q.streaming.value.blocks[0] in q.streaming.value.blocks;
  }

  // With the page and the active run's events in hand, what the snapshot holds.
  lemma SnapshotParts(page: seq<Message>, q: Projection)
    requires UniqueIds(page) && forall m | m in page :: m.id.DurableId?
    requires Shape(q) && q.messages == []
    ensures var shown := page + Keep(Shown(q), LiveBehind(page));
      && UniqueIds(shown) && Keep(shown, IsDurable) == page
      && forall m :: m in shown <==>
           m in page || (m in q.live && !StoredIn(page, m)) || q.streaming == Some(m)
  {
    var f := LiveBehind(page);
    var live := Keep(Shown(q), f);
    ShownParts(q);
    KeepIn(Shown(q), f);
    KeepUnique(Shown(q), f);
    forall m | m in Shown(q)
      ensures f(m) <==> q.streaming == Some(m) || !StoredIn(page, m)
    {
      if m in q.live {
        NoProgressInLive(q, m);
      } else {
        BubbleHasProgress(q);
      }
    }
    UniqueAppend(page, live);
    KeepAppend(page, live, IsDurable);
    KeepEverything(page, IsDurable);
    KeepNothing(live, IsDurable);
    assert page + [] == page;
  }

  lemma StoredIffDurable(log: seq<Event>, m: Message)
    requires Shape(Project(log)) && m.id.SubagentId?
    ensures StoredIn(Project(log).messages, m) <==> m.id.agentId in Project(log).durable
  {
    var p := Project(log);
    if m.id.agentId in p.durable {
      var row := AgentHasMessage(log, m.id.agentId);
      var b :| b in row.blocks && b.SubagentBlock? && b.agentId == m.id.agentId;
      assert row in p.messages && HoldsBlockOf(row, m);
    }
    if StoredIn(p.messages, m) {
      var row :| row in p.messages && HoldsBlockOf(row, m);
      var b :| b in row.blocks && b.SubagentBlock? && m.id == SubagentId(b.agentId);
      assert b.agentId in Agents(row.blocks);
    }
  }

  // With the page holding all stored messages: the rest is a matter of live messages and bubble.
  lemma WholePageIff(log: seq<Event>, q: Projection)
    requires Shape(Project(log)) && Shape(q) && q.messages == []
    ensures var p := Project(log);
      Same(Shown(p), p.messages + Keep(Shown(q), LiveBehind(p.messages)))
      <==> SameLive(p, q) && p.streaming == q.streaming
  {
    var p := Project(log);
    var page := p.messages;
    var shown := page + Keep(Shown(q), LiveBehind(page));
    ShownParts(p);
    SnapshotParts(page, q);
    forall m: Message | m.id.SubagentId?
      ensures StoredIn(page, m) <==> m.id.agentId in p.durable
      ensures m in Shown(p) <==> m in p.live
      ensures m in shown <==> m in q.live && m.id.agentId !in p.durable
    {
      StoredIffDurable(log, m);
    }
    forall m: Message | m.id.ProgressId?
      ensures m in Shown(p) <==> p.streaming == Some(m)
      ensures m in shown <==> q.streaming == Some(m)
    {
    }
    if Same(Shown(p), shown) {
      assert p.streaming.Some? ==> p.streaming.value in shown;
      assert q.streaming.Some? ==> q.streaming.value in Shown(p);
    }
  }

  predicate PageHoldsAll(log: seq<Event>, pageSize: nat) {
    |Project(log).messages| <= pageSize
  }

  predicate SnapshotFits(log: seq<Event>, active: Option<string>, pageSize: nat) {
    PageHoldsAll(log, pageSize) && SubagentsFit(Project(log), active) && BubbleFits(log, active)
  }

  lemma EndIsUnique(stored: seq<Message>, pageSize: nat)
    requires UniqueIds(stored) && (forall m | m in stored :: m.id.DurableId?) && pageSize < |stored|
    ensures var page := LastPage(stored, pageSize);
      UniqueIds(page) && (forall m | m in page :: m.id.DurableId?) && |page| < |stored|
  {
    var page := LastPage(stored, pageSize);
    assert forall i | 0 <= i < |page| :: page[i] == stored[|stored| - pageSize + i];
  }

  lemma ShortPageDiffers(log: seq<Event>, active: Option<string>, pageSize: nat)
    requires Shape(Project(log)) && !PageHoldsAll(log, pageSize)
    ensures !Same(Shown(Project(log)), ServerMessages(Project(log).messages, log, active, pageSize))
  {
    var stored := Project(log).messages;
    var page := LastPage(stored, pageSize);
    AloneIs(log, active);
    EndIsUnique(stored, pageSize);
    SnapshotParts(page, Alone(log, active));
    ShownParts(Project(log));
  }

  // With the stored rows equal to what the events say.
  lemma ExactSnapshotIff(log: seq<Event>, active: Option<string>, pageSize: nat)
    requires WellFormed(log) && (active.Some? ==> RunIdIsNoEventId(log, active.value))
    ensures Same(Shown(Project(log)), ServerMessages(Project(log).messages, log, active, pageSize))
       <==> SnapshotFits(log, active, pageSize)
  {
    ShapeOfWellFormed(log);
    if PageHoldsAll(log, pageSize) {
      var p, q := Project(log), Alone(log, active);
      AloneIs(log, active);
      WholePageIff(log, q);
      LiveStaysRelated(log, active);
      SameLiveIff(p, q, active);
      SameBubbleIff(log, active);
    } else {
      ShortPageDiffers(log, active, pageSize);
    }
  }
}
