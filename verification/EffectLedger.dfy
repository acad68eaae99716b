/**
 At-most-once tool effects: the lookup-then-create of `recordEffect`, the body of the tool and
 `completeEffect`, run by any number of callers over any attempts and workers, with crashes and
 lost acknowledgements between any two database calls.
 */
module EffectLedger {
  import opened Wrappers

  type Key = string

  datatype ToolResult = PlainResult(value: Option<string>) | AgentToolResult(details: Option<string>)

  const DUPLICATE := "duplicate"

  // What completeEffect writes: the details of an agent tool result, any other result as it is.
  function Stored(result: ToolResult): Option<string> {
    match result
    case PlainResult(value) => value
    case AgentToolResult(details) => details
  }

  // What a repeated call is given for a completed effect.
  function Replayed(stored: Option<string>): string {
    if stored.Some? then stored.value else DUPLICATE
  }

  datatype Effect = Intended | Completed(result: Option<string>)

  datatype Phase =
    | Looking                       // about to look the key up
    | Missing                       // found nothing, about to create the row
    | MayRun                        // created the row, body not started
    | BodyRunning
    | BodyDone                      // body returned, row not yet completed
    | Replay(value: string)         // duplicate call answered from the ledger
    | Returned                      // first call answered from its own body
    | Failed

  // `owns`: this caller's create succeeded. `produced`: what its body returned.
  datatype Caller = Caller(key: Key, phase: Phase, owns: bool, produced: Option<ToolResult>)

  // `starts` is history: the callers whose bodies started, in order.
  datatype Ledger = Ledger(effects: map<Key, Effect>, callers: seq<Caller>, starts: seq<nat>)

  datatype Action =
    | Call(key: Key)
    | Find(i: nat)
    | Create(i: nat, acked: bool)
    | StartBody(i: nat)
    | EndBody(i: nat, result: ToolResult)
    | Complete(i: nat, acked: bool)
    | Fail(i: nat)                  // a throw or a crash at any point

  predicate At(s: Ledger, i: nat, phase: Phase) {
    i < |s.callers| && s.callers[i].phase == phase
  }

  predicate Enabled(s: Ledger, a: Action) {
    match a
    case Call(_) => true
    case Find(i) => At(s, i, Looking)
    case Create(i, _) => At(s, i, Missing)
    case StartBody(i) => At(s, i, MayRun)
    case EndBody(i, _) => At(s, i, BodyRunning)
    case Complete(i, _) => At(s, i, BodyDone) && s.callers[i].produced.Some?
    case Fail(i) => i < |s.callers| && !s.callers[i].phase.Returned? && !s.callers[i].phase.Replay?
  }

  function Moved(s: Ledger, i: nat, phase: Phase): Ledger
    requires i < |s.callers|
  {
    s.(callers := s.callers[i := s.callers[i].(phase := phase)])
  }

  function StepFind(s: Ledger, i: nat): Ledger
    requires i < |s.callers|
  {
    var key := s.callers[i].key;
    if key !in s.effects then Moved(s, i, Missing)
    else match s.effects[key]
      case Intended => Moved(s, i, Failed)
      case Completed(stored) => Moved(s, i, Replay(Replayed(stored)))
  }

  function StepCreate(s: Ledger, i: nat, acked: bool): Ledger
    requires i < |s.callers|
  {
    var me := s.callers[i];
    if me.key in s.effects then Moved(s, i, Failed)
    else s.(effects := s.effects[me.key := Intended],
            callers := s.callers[i := me.(owns := true, phase := if acked then MayRun else Failed)])
  }

  function Step(s: Ledger, a: Action): Ledger
    requires Enabled(s, a)
  {
    match a
    case Call(key) => s.(callers := s.callers + [Caller(key, Looking, false, None)])
    case Find(i) => StepFind(s, i)
    case Create(i, acked) => StepCreate(s, i, acked)
    case StartBody(i) => Moved(s.(starts := s.starts + [i]), i, BodyRunning)
    case EndBody(i, result) =>
      s.(callers := s.callers[i := s.callers[i].(phase := BodyDone, produced := Some(result))])
    case Complete(i, acked) =>
      var me := s.callers[i];
      Moved(s.(effects := s.effects[me.key := Completed(Stored(me.produced.value))]), i,
            if acked then Returned else Failed)
    case Fail(i) => Moved(s, i, Failed)
  }

  // What applyTool gives its caller.
  datatype Answer = FromBody(result: ToolResult) | FromLedger(value: string) | Uncertain

  /** The external effect table changed in place, with the calls around it; `idempotencyKey` is unique.
      Each database call is one step of the machine above. */
  class EffectTable {
    var effects: map<Key, Effect>
    var callers: seq<Caller>
    var starts: seq<nat>

    function Contents(): Ledger
      reads this
    {
      Ledger(effects, callers, starts)
    }

    constructor ()
      ensures Contents() == Ledger(map[], [], [])
    {
      effects, callers, starts := map[], [], [];
    }

    method BeginCall(key: Key) returns (i: nat)
      modifies this`callers
      ensures i == |old(callers)| && Contents() == Step(old(Contents()), Call(key))
    {
      i := |callers|;
      callers := callers + [Caller(key, Looking, false, None)];
    }

    /** The lookup of recordEffect, and what applyTool makes of a row it finds. */
    method FindUnique(i: nat) returns (found: Option<Effect>)
      requires Enabled(Contents(), Find(i))
      modifies this`callers
      ensures Contents() == Step(old(Contents()), Find(i))
      ensures found.Some? <==> old(callers)[i].key in effects
      ensures found.Some? ==> found.value == effects[old(callers)[i].key]
    {
      var me := callers[i];
      found := None;
      var phase := Missing;
      if me.key in effects {
        found := Some(effects[me.key]);
        if found.value.Completed? {
          var stored := found.value.result;
          phase := Replay(if stored.Some? then stored.value else DUPLICATE);
        } else {
          phase := Failed;
        }
      }
      callers := callers[i := me.(phase := phase)];
    }

    /** The insert of recordEffect: it throws when another caller was faster. */
    method CreateIntended(i: nat, acked: bool) returns (created: bool)
      requires Enabled(Contents(), Create(i, acked))
      modifies this`effects, this`callers
      ensures created <==> old(callers)[i].key !in old(effects)
      ensures Contents() == Step(old(Contents()), Create(i, acked))
    {
      var me := callers[i];
      created := me.key !in effects;
      if created {
        effects := effects[me.key := Intended];
        callers := callers[i := me.(owns := true, phase := if acked then MayRun else Failed)];
      } else {
        callers := callers[i := me.(phase := Failed)];
      }
    }

    method RunBody(i: nat, result: ToolResult)
      requires Enabled(Contents(), StartBody(i))
      modifies this`callers, this`starts
      ensures Contents() == Step(Step(old(Contents()), StartBody(i)), EndBody(i, result))
    {
      starts := starts + [i];
      callers := callers[i := callers[i].(phase := BodyRunning)];
      callers := callers[i := callers[i].(phase := BodyDone, produced := Some(result))];
    }

    method CompleteEffect(i: nat, acked: bool)
      requires Enabled(Contents(), Complete(i, acked))
      modifies this`effects, this`callers
      ensures Contents() == Step(old(Contents()), Complete(i, acked))
    {
      var me := callers[i];
      var result := me.produced.value;
      var stored := if result.AgentToolResult? then result.details else result.value;
      effects := effects[me.key := Completed(stored)];
      callers := callers[i := me.(phase := if acked then Returned else Failed)];
    }

    /** One whole call that nothing comes in between of, with a body that would produce `result`: the
        stored result is replayed, an uncertain outcome is refused, and only a new key runs the body. */
    method ApplyTool(key: Key, result: ToolResult) returns (answer: Answer)
      modifies this
      ensures answer.FromLedger? ==>
        && key in old(effects) && old(effects)[key].Completed? && answer.value == Replayed(old(effects)[key].result)
        && effects == old(effects) && starts == old(starts)
      ensures answer.Uncertain? ==>
        key in old(effects) && old(effects)[key].Intended? && effects == old(effects) && starts == old(starts)
      ensures answer.FromBody? ==>
        && key !in old(effects) && answer.result == result
        && effects == old(effects)[key := Completed(Stored(result))] && starts == old(starts) + [|old(callers)|]
    {
      var i := BeginCall(key);
      var found := FindUnique(i);
      if found.Some? {
        answer := if found.value.Completed? then FromLedger(callers[i].phase.value) else Uncertain;
        return;
      }
      var created := CreateIntended(i, true);
      RunBody(i, result);
      CompleteEffect(i, true);
      answer := FromBody(result);
    }

    /** The same execution id twice: the second call gets what the first one's body produced, in its stored
        form, and starts nothing. */
    method ApplyTwice(key: Key, first: ToolResult, second: ToolResult) returns (a: Answer, b: Answer)
      modifies this
      ensures a.FromBody? ==> b == FromLedger(Replayed(Stored(first)))
      ensures !a.FromBody? ==> b == a
      ensures !b.FromBody? && |starts| <= |old(starts)| + 1
    {
      a := ApplyTool(key, first);
      b := ApplyTool(key, second);
    }
  }

  predicate Init(s: Ledger) {
    s == Ledger(map[], [], [])
  }

  ghost predicate Behaviour(ss: seq<Ledger>, acts: seq<Action>) {
    && |ss| == |acts| + 1
    && Init(ss[0])
    && (forall k | 0 <= k < |acts| :: Enabled(ss[k], acts[k]) && ss[k + 1] == Step(ss[k], acts[k]))
  }

  // ----- invariant ------------------------------------------------------------------------

  predicate HoldsTicket(phase: Phase) {
    phase.MayRun? || phase.BodyRunning? || phase.BodyDone? || phase.Returned?
  }

  ghost predicate OwnersOk(s: Ledger) {
    && (forall i | 0 <= i < |s.callers| && s.callers[i].owns :: s.callers[i].key in s.effects)
    && (forall i, j | 0 <= i < j < |s.callers| && s.callers[i].owns && s.callers[j].owns ::
          s.callers[i].key != s.callers[j].key)
    && (forall i | 0 <= i < |s.callers| && (HoldsTicket(s.callers[i].phase) || s.callers[i].produced.Some?) ::
          s.callers[i].owns)
    && (forall i | 0 <= i < |s.callers| && (s.callers[i].phase.BodyDone? || s.callers[i].phase.Returned?) ::
          s.callers[i].produced.Some?)
    && (forall i | 0 <= i < |s.callers| && (s.callers[i].phase.Looking? || s.callers[i].phase.Missing?) ::
          !s.callers[i].owns)
  }

  ghost predicate StartsOk(s: Ledger) {
    && (forall p | 0 <= p < |s.starts| :: s.starts[p] < |s.callers| && s.callers[s.starts[p]].owns
                                          && !s.callers[s.starts[p]].phase.MayRun?)
    && (forall p, q | 0 <= p < q < |s.starts| :: s.starts[p] != s.starts[q])
  }

  predicate ProducedFor(s: Ledger, i: nat, key: Key)
    requires i < |s.callers|
  {
    s.callers[i].key == key && s.callers[i].owns && s.callers[i].produced.Some?
  }

  // A completed row was written by the owner of its key from what its body produced.
  ghost predicate CompletedRowsOk(s: Ledger) {
    forall k | k in s.effects && s.effects[k].Completed? ::
      exists i :: 0 <= i < |s.callers| && ProducedFor(s, i, k)
          && s.effects[k].result == Stored(s.callers[i].produced.value)
  }

  // Every replayed answer came from a completed row; an owner that has not answered yet still
  // finds its row intended.
  predicate AnswerOk(s: Ledger, i: nat)
    requires i < |s.callers|
  {
    var me := s.callers[i];
    match me.phase
    case Replay(value) => me.key in s.effects && s.effects[me.key].Completed?
        && value == Replayed(s.effects[me.key].result)
    case Returned => me.key in s.effects && s.effects[me.key].Completed?
    case MayRun => me.key in s.effects && s.effects[me.key] == Intended
    case BodyRunning => me.key in s.effects && s.effects[me.key] == Intended
    case BodyDone => me.key in s.effects && s.effects[me.key] == Intended
    case _ => true
  }

  ghost predicate AnswersOk(s: Ledger) {
    forall i | 0 <= i < |s.callers| :: AnswerOk(s, i)
  }

  ghost predicate Inv(s: Ledger) {
    OwnersOk(s) && StartsOk(s) && CompletedRowsOk(s) && AnswersOk(s)
  }

  // One caller changes; it owns a key only if it owned it before or has just created it.
  lemma MoveKeepsOwners(s: Ledger, t: Ledger, i: nat)
    requires OwnersOk(s) && i < |s.callers| == |t.callers|
    requires t.callers == s.callers[i := t.callers[i]] && t.callers[i].key == s.callers[i].key
    requires s.effects.Keys <= t.effects.Keys
    requires t.callers[i].owns ==>
      s.callers[i].owns || (s.callers[i].key !in s.effects && s.callers[i].key in t.effects)
    requires HoldsTicket(t.callers[i].phase) || t.callers[i].produced.Some? ==> t.callers[i].owns
    requires t.callers[i].phase.BodyDone? || t.callers[i].phase.Returned? ==> t.callers[i].produced.Some?
    requires t.callers[i].phase.Looking? || t.callers[i].phase.Missing? ==> !t.callers[i].owns
    ensures OwnersOk(t)
  {
  }

  lemma StepKeepsOwners(s: Ledger, a: Action)
    requires OwnersOk(s) && Enabled(s, a)
    ensures OwnersOk(Step(s, a))
  {
    if !a.Call? {
      MoveKeepsOwners(s, Step(s, a), a.i);
    }
  }

  lemma StepKeepsStarts(s: Ledger, a: Action)
    requires OwnersOk(s) && StartsOk(s) && Enabled(s, a)
    ensures StartsOk(Step(s, a))
  {
  }

  lemma StepKeepsCompletedRows(s: Ledger, a: Action)
    requires Inv(s) && Enabled(s, a)
    ensures CompletedRowsOk(Step(s, a))
  {
    var t := Step(s, a);
    forall k | k in t.effects && t.effects[k].Completed?
      ensures exists i ::
        0 <= i < |t.callers| && ProducedFor(t, i, k) && t.effects[k].result == Stored(t.callers[i].produced.value)
    {
      if a.Complete? && s.callers[a.i].key == k {
        assert ProducedFor(t, a.i, k);
      } else {
        if a.EndBody? {
          assert AnswerOk(s, a.i);
        }
        var i :| 0 <= i < |s.callers| && ProducedFor(s, i, k)
            && s.effects[k].result == Stored(s.callers[i].produced.value);
        assert ProducedFor(t, i, k);
      }
    }
  }

  lemma StepKeepsAnswers(s: Ledger, a: Action)
    requires Inv(s) && Enabled(s, a)
    ensures AnswersOk(Step(s, a))
  {
    var t := Step(s, a);
    forall j | 0 <= j < |t.callers|
      ensures AnswerOk(t, j)
    {
      if j < |s.callers| {
        assert AnswerOk(s, j);
        if a.Complete? && a.i != j && s.callers[j].key == s.callers[a.i].key {
          assert !s.callers[j].owns;
        }
      }
    }
  }

  lemma {:induction false} AlwaysInv(ss: seq<Ledger>, acts: seq<Action>, k: nat)
    requires Behaviour(ss, acts) && k < |ss|
    ensures Inv(ss[k])
  {
    if k == 0 {
    } else {
      AlwaysInv(ss, acts, k - 1);
      StepKeepsOwners(ss[k - 1], acts[k - 1]);
      StepKeepsStarts(ss[k - 1], acts[k - 1]);
      StepKeepsCompletedRows(ss[k - 1], acts[k - 1]);
      StepKeepsAnswers(ss[k - 1], acts[k - 1]);
    }
  }

  // ----- main results -----------------------------------------------------------------------

  /** Over all callers, the body behind an execution id starts at most once. */
  lemma BodyStartsAtMostOnce(ss: seq<Ledger>, acts: seq<Action>, k: nat, p: nat, q: nat)
    requires Behaviour(ss, acts) && k < |ss|
    requires p < q < |ss[k].starts|
    ensures ss[k].starts[p] < |ss[k].callers| && ss[k].starts[q] < |ss[k].callers|
    ensures ss[k].callers[ss[k].starts[p]].key != ss[k].callers[ss[k].starts[q]].key
  {
    AlwaysInv(ss, acts, k);
    var i, j := ss[k].starts[p], ss[k].starts[q];
    if i < j {
      assert ss[k].callers[i].key != ss[k].callers[j].key;
    } else {
      assert ss[k].callers[j].key != ss[k].callers[i].key;
    }
  }

  // A row stays, and once it is completed it stays as it is.
  predicate RowKept(s: Ledger, t: Ledger, key: Key) {
    key in s.effects ==> key in t.effects && (s.effects[key].Completed? ==> t.effects[key] == s.effects[key])
  }

  lemma StepKeepsRow(s: Ledger, a: Action, key: Key)
    requires AnswersOk(s) && Enabled(s, a)
    ensures RowKept(s, Step(s, a), key)
  {
    if a.Complete? {
      assert AnswerOk(s, a.i);
    }
  }

  lemma {:induction false} RowKeptAlong(ss: seq<Ledger>, j: nat, k: nat, key: Key)
    requires j <= k < |ss| && forall i | j <= i < k :: RowKept(ss[i], ss[i + 1], key)
    ensures RowKept(ss[j], ss[k], key)
    decreases k
  {
    if j == k {
    } else {
      RowKeptAlong(ss, j, k - 1, key);
      assert RowKept(ss[k - 1], ss[k - 1 + 1], key);
    }
  }

  // A completed row is never changed again, and no row disappears.
  lemma CompletedForever(ss: seq<Ledger>, acts: seq<Action>, j: nat, k: nat, key: Key)
    requires Behaviour(ss, acts) && j <= k < |ss| && key in ss[j].effects
    ensures key in ss[k].effects
    ensures ss[j].effects[key].Completed? ==> ss[k].effects[key] == ss[j].effects[key]
  {
    forall i | j <= i < k
      ensures RowKept(ss[i], ss[i + 1], key)
    {
      AlwaysInv(ss, acts, i);
      assert ss[i + 1] == Step(ss[i], acts[i]);
      StepKeepsRow(ss[i], acts[i], key);
    }
    RowKeptAlong(ss, j, k, key);
  }

  lemma {:induction false} OwnershipForever(ss: seq<Ledger>, acts: seq<Action>, j: nat, k: nat, i: nat)
    requires Behaviour(ss, acts) && j <= k < |ss| && i < |ss[j].callers|
    ensures i < |ss[k].callers| && ss[k].callers[i].key == ss[j].callers[i].key
    ensures ss[j].callers[i].owns ==> ss[k].callers[i].owns
  {
    if j == k {
    } else {
      OwnershipForever(ss, acts, j, k - 1, i);
      assert ss[k] == Step(ss[k - 1], acts[k - 1]);
    }
  }

  /** Once any body has started for an execution id, every later lookup of that id either replays
      the one stored result, which is what that body produced, or fails. */
  lemma RepeatedCallReplaysOrFails(ss: seq<Ledger>, acts: seq<Action>, j: nat, k: nat, p: nat, i: nat)
    requires Behaviour(ss, acts) && j <= k < |acts|
    requires p < |ss[j].starts| && ss[j].starts[p] < |ss[j].callers|
    requires acts[k] == Find(i) && i < |ss[k].callers|
    requires ss[k].callers[i].key == ss[j].callers[ss[j].starts[p]].key
    ensures var owner := ss[j].starts[p];
            owner < |ss[k].callers| && i < |ss[k + 1].callers| &&
            match ss[k + 1].callers[i].phase
            case Replay(value) => ss[k].callers[owner].produced.Some?
                                  && value == Replayed(Stored(ss[k].callers[owner].produced.value))
            case Failed => !ss[k].effects[ss[k].callers[i].key].Completed?
            case _ => false
  {
    AlwaysInv(ss, acts, j);
    AlwaysInv(ss, acts, k);
    var owner := ss[j].starts[p];
    var key := ss[j].callers[owner].key;
    CompletedForever(ss, acts, j, k, key);
    OwnershipForever(ss, acts, j, k, owner);
    assert ss[k + 1] == Step(ss[k], acts[k]);
    if ss[k].effects[key].Completed? {
      var x :| 0 <= x < |ss[k].callers| && ProducedFor(ss[k], x, key)
               && ss[k].effects[key].result == Stored(ss[k].callers[x].produced.value);
      assert x == owner;
    }
  }
}
