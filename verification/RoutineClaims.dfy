/**
 Routine wake-ups: several workers may be woken for the same instant of a routine, and users edit the
 routine meanwhile. The claim is a compare-and-set on `nextRunAt` and creates the run
 (packages/adapters/src/executor.ts); an update handler reads the row and writes it back later
 (apps/api/src/router.ts).
 */
module RoutineClaims {
  import opened Wrappers
  import opened CronText
  import opened Cron

  const EARLY_MS: nat := 1_000

  datatype Routine = Routine(active: bool, cron: string, nextRunAt: Option<nat>)

  // A worker past its checks, with the row it read.
  datatype Waking = Waking(instant: nat, cron: string, readAt: nat)

  // A handler past its read, with the values it is going to write; a column it was not given stays.
  datatype Editing = Editing(active: Option<bool>, cron: Option<string>, nextRunAt: Option<nat>)

  datatype World = World(row: Routine, now: nat, waking: map<nat, Waking>, editing: map<nat, Editing>, claims: seq<nat>)

  datatype Action =
    | Tick(to: nat)
    | Wake(worker: nat, scheduledFor: nat)
    | Claim(worker: nat, at: nat)
    | BeginEdit(handler: nat, active: Option<bool>, cron: Option<string>, newZone: bool)
    | WriteEdit(handler: nat)

  ghost predicate Enabled(w: World, a: Action) {
    match a
    case Tick(to) => w.now <= to
    case Wake(_, _) => true
    case Claim(worker, at) => worker in w.waking && w.waking[worker].readAt <= at <= w.now
    case BeginEdit(_, _, _, _) => true
    case WriteEdit(handler) => handler in w.editing
  }

  // wakeRoutine up to the transaction: a wake-up for another instant, or one that is still more than
  // a second away, goes no further.
  ghost function WakeStep(w: World, worker: nat, scheduledFor: nat): World {
    if !w.row.active || w.row.nextRunAt != Some(scheduledFor) || scheduledFor > w.now + EARLY_MS then w
    else w.(waking := w.waking[worker := Waking(scheduledFor, w.row.cron, w.now)])
  }

  function Later(a: nat, b: nat): nat {
    if a < b then b else a
  }

  ghost function ClaimStep(w: World, worker: nat, at: nat, number: Reading): World
    requires worker in w.waking
  {
    var claim := w.waking[worker];
    var rest := w.(waking := w.waking - {worker});
    if !w.row.active || w.row.nextRunAt != Some(claim.instant) then rest
    else rest.(row := w.row.(nextRunAt := Some(NextAfter(claim.cron, Later(at, claim.instant), number))),
               claims := w.claims + [claim.instant])
  }

  // The update handler up to its write; `newZone` says that it was given another time zone.
  ghost function BeginEditStep(w: World, handler: nat, active: Option<bool>, cron: Option<string>, newZone: bool,
                               number: Reading): World {
    var on := if active.Some? then active.value else w.row.active;
    var expr := if cron.Some? then cron.value else w.row.cron;
    var scheduleChanged := (!w.row.active && on) || expr != w.row.cron || newZone;
    var next := if !on then None
                else if scheduleChanged || w.row.nextRunAt.None? then Some(NextAfter(expr, w.now, number))
                else w.row.nextRunAt;
    w.(editing := w.editing[handler := Editing(active, cron, next)])
  }

  ghost function Step(w: World, a: Action, number: Reading): World
    requires Enabled(w, a)
  {
    match a
    case Tick(to) => w.(now := to)
    case Wake(worker, scheduledFor) => WakeStep(w, worker, scheduledFor)
    case Claim(worker, at) => ClaimStep(w, worker, at, number)
    case BeginEdit(handler, active, cron, newZone) => BeginEditStep(w, handler, active, cron, newZone, number)
    case WriteEdit(handler) =>
      var edit := w.editing[handler];
      w.(row := Routine(if edit.active.Some? then edit.active.value else w.row.active,
                        if edit.cron.Some? then edit.cron.value else w.row.cron, edit.nextRunAt),
         editing := w.editing - {handler})
  }

  // The same two steps as the executor takes them when nothing comes in between.
  class RoutineTable {
    var row: Routine
    var claims: seq<nat>

    constructor (row: Routine)
      ensures this.row == row && claims == []
    {
      this.row := row;
      claims := [];
    }

    // The transaction: an update of the row that names the expected instant, and the new run.
    method ClaimRoutine(instant: nat, next: nat) returns (claimed: bool)
      modifies this
      ensures claimed == (old(row).active && old(row).nextRunAt == Some(instant))
      ensures row == if claimed then old(row).(nextRunAt := Some(next)) else old(row)
      ensures claims == if claimed then old(claims) + [instant] else old(claims)
    {
      claimed := row.active && row.nextRunAt == Some(instant);
      if claimed {
        row := row.(nextRunAt := Some(next));
        claims := claims + [instant];
      }
    }

    method WakeRoutine(scheduledFor: nat, now: nat, number: Reading) returns (claimed: bool, deferred: bool)
      modifies this
      ensures
        var w := World(old(row), now, map[], map[], old(claims));
        var woken := WakeStep(w, 0, scheduledFor);
        && (claimed <==> 0 in woken.waking)
        && row == (if claimed then ClaimStep(woken, 0, now, number).row else old(row))
        && claims == (if claimed then ClaimStep(woken, 0, now, number).claims else old(claims))
      ensures deferred <==> old(row).active && old(row).nextRunAt == Some(scheduledFor) && scheduledFor > now + EARLY_MS
    {
      claimed, deferred := false, false;
      if !row.active || row.nextRunAt != Some(scheduledFor) {
        return;
      }
      if scheduledFor > now + EARLY_MS {
        deferred := true;
        return;
      }
      var next := NextCronDate(row.cron, Later(now, scheduledFor), number);
      NextCronDateIsUnique(row.cron, Later(now, scheduledFor), next,
          NextAfter(row.cron, Later(now, scheduledFor), number), number);
      claimed := ClaimRoutine(scheduledFor, next);
    }
  }

  ghost predicate Ascending(claims: seq<nat>) {
    forall i, j :: 0 <= i < j < |claims| ==> claims[i] < claims[j]
  }

  // What is due next lies after everything that was claimed.
  ghost predicate DueLater(w: World) {
    Ascending(w.claims) && (w.row.nextRunAt.Some? ==> forall i :: 0 <= i < |w.claims| ==>
        w.claims[i] < w.row.nextRunAt.value)
  }

  // Nothing is claimed more than a second early.
  ghost predicate NeverEarly(w: World) {
    && (forall i :: 0 <= i < |w.claims| ==> w.claims[i] <= w.now + EARLY_MS)
    && (forall k | k in w.waking :: w.waking[k].instant <= w.waking[k].readAt + EARLY_MS && w.waking[k].readAt <= w.now)
  }

  // The value an update is about to write lies after everything that was claimed.
  ghost predicate Timely(w: World, a: Action) {
    a.WriteEdit? && a.handler in w.editing && w.editing[a.handler].nextRunAt.Some? ==>
      forall i :: 0 <= i < |w.claims| ==> w.claims[i] < w.editing[a.handler].nextRunAt.value
  }

  // Claims keep the order whatever else is under way; only the write of an update can break it, and
  // it does exactly when it puts an instant back that is not after the claimed ones.
  lemma StepKeepsDueLaterIff(w: World, a: Action, number: Reading)
    requires DueLater(w) && Enabled(w, a)
    ensures DueLater(Step(w, a, number)) <==> Timely(w, a)
  {
  }

  lemma StepKeepsNeverEarly(w: World, a: Action, number: Reading)
    requires NeverEarly(w) && Enabled(w, a)
    ensures NeverEarly(Step(w, a, number))
  {
  }

  // An update that takes no time is timely if it leaves the schedule alone, or if every claimed
  // instant is in the past: the claims of the last second, which may be early, are what matters.
  lemma ImmediateEditIsTimely(w: World, handler: nat, active: Option<bool>, cron: Option<string>, newZone: bool,
                              number: Reading)
    requires DueLater(w)
    requires || (active.None? && cron.None? && !newZone && w.row.nextRunAt.Some?)
             || forall i :: 0 <= i < |w.claims| ==> w.claims[i] <= w.now
    ensures Timely(BeginEditStep(w, handler, active, cron, newZone, number), WriteEdit(handler))
  {}

  // Any number of steps, from any state.
  ghost predicate Path(states: seq<World>, actions: seq<Action>, number: Reading) {
    && |states| == |actions| + 1
    && forall i :: 0 <= i < |actions| ==>
      Enabled(states[i], actions[i]) && states[i + 1] == Step(states[i], actions[i], number)
  }

  ghost predicate Run(states: seq<World>, actions: seq<Action>, number: Reading) {
    && Path(states, actions, number)
    && states[0].claims == [] && states[0].waking == map[] && states[0].editing == map[]
  }

  lemma TimelyStep(states: seq<World>, actions: seq<Action>, number: Reading, i: nat)
    requires Path(states, actions, number) && i < |actions| && Timely(states[i], actions[i])
    ensures DueLater(states[i]) ==> DueLater(states[i + 1])
  {
    assert states[i + 1] == Step(states[i], actions[i], number);
    if DueLater(states[i]) {
      StepKeepsDueLaterIff(states[i], actions[i], number);
    }
  }

  lemma {:induction false} DueLaterAlong(states: seq<World>, from: nat, n: nat)
    requires from <= n < |states| && DueLater(states[from])
    requires forall i :: from <= i < n && DueLater(states[i]) ==> DueLater(states[i + 1])
    ensures DueLater(states[n])
    decreases n
  {
    if n == from {
    } else {
      DueLaterAlong(states, from, n - 1);
      assert DueLater(states[n - 1 + 1]);
    }
  }

  lemma TimelyPathKeepsDueLater(states: seq<World>, actions: seq<Action>, number: Reading, from: nat, n: nat)
    requires Path(states, actions, number) && from <= n < |states| && DueLater(states[from])
    requires forall i :: from <= i < n ==> Timely(states[i], actions[i])
    ensures DueLater(states[n])
  {
    forall i | from <= i < n && DueLater(states[i])
      ensures DueLater(states[i + 1])
    {
      TimelyStep(states, actions, number, i);
    }
    DueLaterAlong(states, from, n);
  }

  // As long as updates are timely, every instant creates at most one run and the instants ascend.
  lemma ClaimsAscend(states: seq<World>, actions: seq<Action>, number: Reading, n: nat)
    requires Run(states, actions, number) && n < |states|
    requires forall i :: 0 <= i < n ==> Timely(states[i], actions[i])
    ensures DueLater(states[n])
  {
    TimelyPathKeepsDueLater(states, actions, number, 0, n);
  }

  // ----- between two updates ---------------------------------------------------------------------------------

  // The claims since there were `base` of them ascend, and what is due next lies after them.
  ghost predicate AscendingSince(w: World, base: nat) {
    && base <= |w.claims| && Ascending(w.claims[base..])
    && (w.row.nextRunAt.Some? ==> forall i :: base <= i < |w.claims| ==> w.claims[i] < w.row.nextRunAt.value)
  }

  lemma StepKeepsAscendingSince(w: World, a: Action, number: Reading, base: nat)
    requires AscendingSince(w, base) && Enabled(w, a) && !a.WriteEdit?
    ensures AscendingSince(Step(w, a, number), base) && w.claims <= Step(w, a, number).claims
  {
    if a.Claim? {
      var claim, after := w.waking[a.worker], ClaimStep(w, a.worker, a.at, number);
      if w.row.active && w.row.nextRunAt == Some(claim.instant) {
        assert after.claims[base..] == w.claims[base..] + [claim.instant];
        assert forall i :: 0 <= i < |w.claims| - base ==> w.claims[base..][i] == w.claims[base + i];
      }
    }
  }

  lemma {:induction false} AscendingAlong(states: seq<World>, base: nat, from: nat, n: nat)
    requires from <= n < |states| && AscendingSince(states[from], base)
    requires forall i :: from <= i < n && AscendingSince(states[i], base) ==>
      AscendingSince(states[i + 1], base) && states[i].claims <= states[i + 1].claims
    ensures AscendingSince(states[n], base) && states[from].claims <= states[n].claims
    decreases n
  {
    if n == from {
    } else {
      AscendingAlong(states, base, from, n - 1);
      assert AscendingSince(states[n - 1], base) && states[n - 1].claims <= states[n - 1 + 1].claims;
    }
  }

  // From any state whatever, as long as no update is written: the instants claimed from then on strictly
  // ascend and lie before what is due next, so each of them creates one run.
  lemma ClaimsAscendBetweenEdits(states: seq<World>, actions: seq<Action>, number: Reading, from: nat, n: nat)
    requires Path(states, actions, number) && from <= n < |states|
    requires forall i :: from <= i < n ==> !actions[i].WriteEdit?
    ensures states[from].claims <= states[n].claims
    ensures Ascending(states[n].claims[|states[from].claims|..])
    ensures states[n].row.nextRunAt.Some? ==>
      forall i :: |states[from].claims| <= i < |states[n].claims| ==>
          states[n].claims[i] < states[n].row.nextRunAt.value
  {
    var base := |states[from].claims|;
    forall i | from <= i < n && AscendingSince(states[i], base)
      ensures AscendingSince(states[i + 1], base) && states[i].claims <= states[i + 1].claims
    {
      assert states[i + 1] == Step(states[i], actions[i], number);
      StepKeepsAscendingSince(states[i], actions[i], number, base);
    }
    AscendingAlong(states, base, from, n);
  }

  // ----- what the order is for ---------------------------------------------------------------------------------

  // Without any further update, an instant can be claimed that is not after all earlier ones.
  ghost predicate CanFireAgain(w: World, number: Reading) {
    exists states: seq<World>, actions: seq<Action> ::
      && Path(states, actions, number) && states[0] == w
      && (forall i :: 0 <= i < |actions| ==> !actions[i].WriteEdit?)
      && !Ascending(states[|actions|].claims)
  }

  // Wait for the instant that is due, wake and claim.
  lemma ClaimWhatIsDue(w: World, number: Reading) returns (states: seq<World>, actions: seq<Action>)
    requires w.row.active && w.row.nextRunAt.Some?
    ensures Path(states, actions, number) && states[0] == w
    ensures forall i :: 0 <= i < |actions| ==> !actions[i].WriteEdit?
    ensures states[|actions|].claims == w.claims + [w.row.nextRunAt.value]
  {
    var due := w.row.nextRunAt.value;
    var late := Later(w.now, due);
    var later := w.(now := late);
    var woken := WakeStep(later, 0, due);
    states := [w, later, woken, ClaimStep(woken, 0, late, number)];
    actions := [Tick(late), Wake(0, due), Claim(0, late)];
  }

  // For an active routine whose claims so far ascend, what is due next lies after them if and only if no
  // instant can fire out of order without a further update.
  lemma DueLaterIff(w: World, number: Reading)
    requires w.row.active && Ascending(w.claims)
    ensures DueLater(w) <==> !CanFireAgain(w, number)
  {
    if DueLater(w) && CanFireAgain(w, number) {
      var states: seq<World>, actions: seq<Action> :|
        && Path(states, actions, number) && states[0] == w
        && (forall i :: 0 <= i < |actions| ==> !actions[i].WriteEdit?)
        && !Ascending(states[|actions|].claims);
      TimelyPathKeepsDueLater(states, actions, number, 0, |actions|);
    }
    if !DueLater(w) {
      var states, actions := ClaimWhatIsDue(w, number);
      var i :| 0 <= i < |w.claims| && w.claims[i] >= w.row.nextRunAt.value;
      var claims := states[|actions|].claims;
      assert claims[i] >= claims[|w.claims|];
      assert CanFireAgain(w, number);
    }
  }

  // ----- early claims and updates --------------------------------------------------------------------------------

  lemma {:induction false} NothingFiresEarly(states: seq<World>, actions: seq<Action>, number: Reading, n: nat)
    requires Run(states, actions, number) && n < |states|
    ensures NeverEarly(states[n])
  {
    if n == 0 {
    } else {
      NothingFiresEarly(states, actions, number, n - 1);
      assert states[n] == Step(states[n - 1], actions[n - 1], number);
      StepKeepsNeverEarly(states[n - 1], actions[n - 1], number);
    }
  }

  // Since a handler read the row: either the instant it read is still due, or it has been claimed.
  ghost predicate StillDueOrClaimed(w: World, instant: nat) {
    w.row.nextRunAt.Some? && (w.row.nextRunAt.value == instant || instant in w.claims)
  }

  lemma StepKeepsStillDue(w: World, a: Action, number: Reading, instant: nat)
    requires StillDueOrClaimed(w, instant) && Enabled(w, a) && !a.WriteEdit?
    ensures StillDueOrClaimed(Step(w, a, number), instant)
  {
    if a.Claim? {
      var after := ClaimStep(w, a.worker, a.at, number);
      assert after.claims == w.claims || after.claims == w.claims + [w.waking[a.worker].instant];
    }
  }

  lemma {:induction false} StillDueSince(states: seq<World>, actions: seq<Action>, number: Reading, j: nat, k: nat,
                                         instant: nat)
    requires Run(states, actions, number) && j <= k < |states| && StillDueOrClaimed(states[j], instant)
    requires forall i :: j <= i < k ==> !actions[i].WriteEdit?
    ensures StillDueOrClaimed(states[k], instant)
    decreases k
  {
    if j == k {
    } else {
      StillDueSince(states, actions, number, j, k - 1, instant);
      assert states[k] == Step(states[k - 1], actions[k - 1], number);
      StepKeepsStillDue(states[k - 1], actions[k - 1], number, instant);
    }
  }

  // An update that keeps the schedule writes back the instant it read. With no other update written
  // in between, that is harmless if and only if the instant is still the one due when it writes: the
  // comparison that the claim makes and the update does not.
  lemma KeptScheduleIff(states: seq<World>, actions: seq<Action>, number: Reading, j: nat, k: nat, handler: nat)
    requires Run(states, actions, number) && j <= k < |actions| && DueLater(states[j])
    requires forall i :: j <= i < k ==> !actions[i].WriteEdit?
    requires actions[k] == WriteEdit(handler) && handler in states[k].editing
    requires states[j].row.nextRunAt.Some? && states[k].editing[handler].nextRunAt == states[j].row.nextRunAt
    ensures DueLater(states[k + 1]) <==> states[k].row.nextRunAt == states[j].row.nextRunAt
  {
    var instant := states[j].row.nextRunAt.value;
    TimelyPathKeepsDueLater(states, actions, number, j, k);
    StillDueSince(states, actions, number, j, k, instant);
    StepKeepsDueLaterIff(states[k], actions[k], number);
    if instant in states[k].claims {
      var i :| 0 <= i < |states[k].claims| && states[k].claims[i] == instant;
      assert states[k].claims[i] < states[k].row.nextRunAt.value;
    }
  }

  predicate RenamesOnly(a: Action) {
    a.BeginEdit? && a.active.None? && a.cron.None? && !a.newZone
  }

  ghost predicate StepAt(states: seq<World>, actions: seq<Action>, number: Reading, i: nat)
    requires i < |actions| && |states| == |actions| + 1
  {
    Enabled(states[i], actions[i]) && states[i + 1] == Step(states[i], actions[i], number)
  }

  lemma SixSteps(states: seq<World>, actions: seq<Action>, number: Reading)
    requires |actions| == 6 && |states| == 7
    requires StepAt(states, actions, number, 0) && StepAt(states, actions, number, 1)
    requires StepAt(states, actions, number, 2) && StepAt(states, actions, number, 3)
    requires StepAt(states, actions, number, 4) && StepAt(states, actions, number, 5)
    ensures Path(states, actions, number)
  {
    forall i | 0 <= i < |actions|
      ensures Enabled(states[i], actions[i]) && states[i + 1] == Step(states[i], actions[i], number)
    {
      assert StepAt(states, actions, number, i);
    }
  }

  // An update that only renames the routine writes `nextRunAt` back as it read it. When a claim came
  // in between, the claimed instant is due again and a second run is created for it.
  lemma RenameFiresAgain(cron: string, instant: nat, number: Reading) returns (states: seq<World>, actions: seq<Action>)
    ensures Run(states, actions, number)
    ensures forall i :: 0 <= i < |actions| && actions[i].BeginEdit? ==> RenamesOnly(actions[i])
    ensures states[|states| - 1].claims == [instant, instant]
  {
    var s0 := World(Routine(true, cron, Some(instant)), instant, map[], map[], []);
    var waiting := map[0 := Waking(instant, cron, instant)];
    var edit := map[1 := Editing(None, None, Some(instant))];
    var s1 := s0.(editing := edit);
    var s2 := s1.(waking := waiting);
    var s3 := Step(s2, Claim(0, instant), number);
    assert waiting - {0} == map[];
    var s4 := Step(s3, WriteEdit(1), number);
    assert edit - {1} == map[];
    var s5 := s4.(waking := waiting);
    var s6 := Step(s5, Claim(0, instant), number);
    assert s6.claims == [instant] + [instant];
    states := [s0, s1, s2, s3, s4, s5, s6];
    actions := [BeginEdit(1, None, None, false), Wake(0, instant), Claim(0, instant), WriteEdit(1), Wake(0, instant),
                Claim(0, instant)];
    SixSteps(states, actions, number);
  }

  // One undisturbed wake-up and claim of what is due.
  lemma WakesAndClaims(w: World, at: nat, number: Reading) returns (woken: World, claimed: World)
    requires w.row.active && w.row.nextRunAt == Some(at) && at <= w.now + EARLY_MS && w.waking == map[]
    ensures woken == Step(w, Wake(0, at), number)
    ensures Enabled(woken, Claim(0, w.now)) && claimed == Step(woken, Claim(0, w.now), number)
    ensures claimed.claims == w.claims + [at] && claimed.row.active && claimed.row.cron == w.row.cron
    ensures claimed.now == w.now && claimed.waking == map[] && claimed.editing == w.editing
  {
    woken := Step(w, Wake(0, at), number);
    claimed := Step(woken, Claim(0, w.now), number);
    assert woken.waking == map[0 := Waking(at, w.row.cron, w.now)];
    assert woken.waking - {0} == map[];
  }

  // One update of the schedule that nothing comes in between of.
  lemma EditsAtOnce(w: World, cron': string, number: Reading) returns (begun: World, written: World)
    requires w.row.active && w.row.cron != cron' && w.editing == map[]
    ensures begun == Step(w, BeginEdit(1, None, Some(cron'), false), number)
    ensures Enabled(begun, WriteEdit(1)) && written == Step(begun, WriteEdit(1), number)
    ensures written == w.(row := Routine(true, cron', Some(NextAfter(cron', w.now, number))))
  {
    begun := Step(w, BeginEdit(1, None, Some(cron'), false), number);
    written := Step(begun, WriteEdit(1), number);
    assert begun.editing - {1} == map[];
  }

  lemma NextIsMinuteOne(cron: string, number: Reading)
    requires |Words(cron)| >= 5 && MatchesMinute(Words(cron), 1, number)
    ensures NextAfter(cron, MINUTE_MS - EARLY_MS, number) == MINUTE_MS
  {
  }

  // Even an update that takes no time can do it: a claim may come up to a second early, and a new
  // schedule that is set within that second can name the claimed instant again.
  lemma NewScheduleFiresAgain(cron: string, cron': string, number: Reading)
      returns (states: seq<World>, actions: seq<Action>)
    requires cron != cron' && |Words(cron')| >= 5 && MatchesMinute(Words(cron'), 1, number)
    ensures Run(states, actions, number)
    ensures |actions| == 6 && actions[2] == BeginEdit(1, None, Some(cron'), false) && actions[3] == WriteEdit(1)
    ensures states[6].claims == [MINUTE_MS, MINUTE_MS]
  {
    var early := MINUTE_MS - EARLY_MS;
    NextIsMinuteOne(cron', number);
    var s0 := World(Routine(true, cron, Some(MINUTE_MS)), early, map[], map[], []);
    var s1, s2 := WakesAndClaims(s0, MINUTE_MS, number);
    var s3, s4 := EditsAtOnce(s2, cron', number);
    var s5, s6 := WakesAndClaims(s4, MINUTE_MS, number);
    states := [s0, s1, s2, s3, s4, s5, s6];
    actions := [Wake(0, MINUTE_MS), Claim(0, early), BeginEdit(1, None, Some(cron'), false), WriteEdit(1),
                Wake(0, MINUTE_MS), Claim(0, early)];
    SixSteps(states, actions, number);
  }
}
