/**
 Fencing: which sessions can still write through their lease. A claim computes its fence from an earlier
 read and does not compare it, so what matters is whether it lands beside a twin, an earlier holder of the
 same worker with the same fence.
 */
module RunFencing {
  import opened Wrappers
  import opened RunState
  import opened RunRows
  import opened RunProtocol
  import opened RunInvariants
  import opened RunTheorems

  // ----- every state --------------------------------------------------------------------------------

  ghost predicate Granted(s: Sys, i: nat) {
    exists p :: 0 <= p < |s.grants| && s.grants[p].session == i
  }

  // A session claims once, and then is past its claim for good.
  ghost predicate GrantsOnce(s: Sys) {
    && (forall p, q | 0 <= p < q < |s.grants| :: s.grants[p].session != s.grants[q].session)
    && (forall p | 0 <= p < |s.grants| ::
          s.grants[p].session < |s.sessions|
          && !s.sessions[s.grants[p].session].phase.Fresh? && !s.sessions[s.grants[p].session].phase.HasRead?)
  }

  ghost predicate HoldersGranted(s: Sys) {
    forall i | 0 <= i < |s.sessions| && HasLease(s.sessions[i].phase) :: Grant(i, s.sessions[i].fence) in s.grants
  }

  ghost predicate Tracked(s: Sys) {
    GrantsOnce(s) && HoldersGranted(s)
  }

  // What a session may do to itself in one step other than a landed claim.
  predicate SessionFrame(before: Session, after: Session, leaseFence: nat) {
    && after.worker == before.worker
    && (after.phase.Fresh? ==> before.phase.Fresh?)
    && (after.phase.HasRead? ==> (before.phase.Fresh? && after.fence == NextFence(leaseFence)) || after == before)
    && (HasLease(after.phase) ==> HasLease(before.phase) && after.fence == before.fence)
  }

  ghost predicate SessionsFrame(s: Sys, t: Sys) {
    && |s.sessions| <= |t.sessions|
    && (forall j | 0 <= j < |s.sessions| :: SessionFrame(s.sessions[j], t.sessions[j], s.rows.run.leaseFence))
    && (forall j | |s.sessions| <= j < |t.sessions| :: t.sessions[j].phase.Fresh?)
  }

  lemma OneSessionFrame(s: Sys, t: Sys, i: nat)
    requires i < |s.sessions| == |t.sessions|
    requires forall j | 0 <= j < |s.sessions| && j != i :: t.sessions[j] == s.sessions[j]
    requires SessionFrame(s.sessions[i], t.sessions[i], s.rows.run.leaseFence)
    ensures SessionsFrame(s, t)
  {
  }

  lemma OwnSessionFrame(s: Sys, a: Action)
    requires Enabled(s, a) && BySession(a) && (a.ClaimRun? ==> !ClaimLands(s, a.i))
    ensures SessionFrame(s.sessions[a.i], Step(s, a).sessions[a.i], s.rows.run.leaseFence)
    ensures |Step(s, a).sessions| == |s.sessions|
    ensures forall j | 0 <= j < |s.sessions| && j != a.i :: Step(s, a).sessions[j] == s.sessions[j]
  {
  }

  lemma StepKeepsFence(s: Sys, a: Action)
    requires Enabled(s, a)
    requires a.ClaimRun? ==> !ClaimLands(s, a.i)
    ensures Step(s, a).grants == s.grants
    ensures Step(s, a).rows.run.leaseFence == s.rows.run.leaseFence
  {
  }

  lemma StepFrames(s: Sys, a: Action)
    requires Enabled(s, a)
    requires a.ClaimRun? ==> !ClaimLands(s, a.i)
    ensures Step(s, a).grants == s.grants
    ensures Step(s, a).rows.run.leaseFence == s.rows.run.leaseFence
    ensures SessionsFrame(s, Step(s, a))
  {
    StepKeepsFence(s, a);
    if BySession(a) {
      OwnSessionFrame(s, a);
      OneSessionFrame(s, Step(s, a), a.i);
    }
  }

  lemma FrameKeepsTracked(s: Sys, t: Sys)
    requires Tracked(s) && t.grants == s.grants && SessionsFrame(s, t)
    ensures Tracked(t)
  {
  }

  lemma ClaimKeepsGrantsOnce(s: Sys, i: nat, acked: bool)
    requires Tracked(s) && Enabled(s, ClaimRun(i, acked)) && ClaimLands(s, i)
    ensures GrantsOnce(StepClaim(s, i, acked))
  {
    var t, n := StepClaim(s, i, acked), |s.grants|;
    assert t.grants[n].session == i;
    forall p | 0 <= p < n
      ensures t.grants[p] == s.grants[p] && s.grants[p].session != i
      ensures t.sessions[s.grants[p].session] == s.sessions[s.grants[p].session]
    {
    }
  }

  lemma ClaimKeepsHoldersGranted(s: Sys, i: nat, acked: bool)
    requires Tracked(s) && Enabled(s, ClaimRun(i, acked)) && ClaimLands(s, i)
    ensures HoldersGranted(StepClaim(s, i, acked))
  {
    var t := StepClaim(s, i, acked);
    forall j | 0 <= j < |t.sessions| && HasLease(t.sessions[j].phase)
      ensures Grant(j, t.sessions[j].fence) in t.grants
    {
      if j == i {
        assert t.grants[|s.grants|] == Grant(i, t.sessions[i].fence);
      } else {
        assert t.sessions[j] == s.sessions[j];
      }
    }
  }

  predicate Lands(s: Sys, a: Action) {
    a.ClaimRun? && HasSession(s, a.i) && ClaimLands(s, a.i)
  }

  lemma StepKeepsTracked(s: Sys, a: Action)
    requires Tracked(s) && Enabled(s, a)
    ensures Tracked(Step(s, a)) && s.grants <= Step(s, a).grants
  {
    if Lands(s, a) {
      ClaimKeepsGrantsOnce(s, a.i, a.acked);
      ClaimKeepsHoldersGranted(s, a.i, a.acked);
    } else {
      StepFrames(s, a);
      FrameKeepsTracked(s, Step(s, a));
    }
  }

  // Some way for the protocol to go on from `ss[0]`.
  ghost predicate Path(ss: seq<Sys>, acts: seq<Action>) {
    && |ss| == |acts| + 1
    && (forall k | 0 <= k < |acts| :: Enabled(ss[k], acts[k]) && ss[k + 1] == Step(ss[k], acts[k]))
  }

  lemma {:induction false} TrackedAlong(ss: seq<Sys>, acts: seq<Action>, j: nat, k: nat)
    requires Path(ss, acts) && j <= k < |ss| && Tracked(ss[j])
    ensures Tracked(ss[k]) && ss[j].grants <= ss[k].grants
  {
    if j == k {
    } else {
      TrackedAlong(ss, acts, j, k - 1);
      StepKeepsTracked(ss[k - 1], acts[k - 1]);
      assert ss[k] == Step(ss[k - 1], acts[k - 1]);
    }
  }

  lemma AlwaysTracked(ss: seq<Sys>, acts: seq<Action>, k: nat)
    requires Behaviour(ss, acts) && k < |ss|
    ensures Tracked(ss[k])
  {
    TrackedAlong(ss, acts, 0, k);
  }

  // ----- claims whose reads are current ---------------------------------------------------------------

  ghost predicate FencesAscend(s: Sys) {
    && (forall p, q | 0 <= p < q < |s.grants| :: s.grants[p].fence < s.grants[q].fence)
    && s.rows.run.leaseFence == (if s.grants == [] then 0 else s.grants[|s.grants| - 1].fence)
  }

  ghost predicate ReadsOk(s: Sys) {
    forall i | 0 <= i < |s.sessions| && s.sessions[i].phase.HasRead? ::
      s.sessions[i].fence <= NextFence(s.rows.run.leaseFence)
  }

  predicate Live(run: RunRow) { run.status in {Leased, Running} }

  ghost predicate OwnerOk(s: Sys) {
    Live(s.rows.run) ==>
      && s.grants != []
      && s.grants[|s.grants| - 1].session < |s.sessions|
      && s.rows.run.leaseOwner == Some(s.sessions[s.grants[|s.grants| - 1].session].worker)
  }

  ghost predicate Fenced(s: Sys) {
    Tracked(s) && FencesAscend(s) && ReadsOk(s) && OwnerOk(s)
  }

  lemma ClaimKeepsFences(s: Sys, i: nat, acked: bool)
    requires FencesAscend(s) && ReadsOk(s) && Enabled(s, ClaimRun(i, acked)) && ClaimLands(s, i)
    requires FreshClaim(s, ClaimRun(i, acked))
    ensures FencesAscend(StepClaim(s, i, acked)) && ReadsOk(StepClaim(s, i, acked))
  {
    var t, n := StepClaim(s, i, acked), |s.grants|;
    forall p | 0 <= p < n
      ensures s.grants[p].fence < t.grants[n].fence
    {
      if p < n - 1 {
        assert s.grants[p].fence < s.grants[n - 1].fence;
      }
    }
  }

  lemma StepKeepsFences(s: Sys, a: Action)
    requires FencesAscend(s) && ReadsOk(s) && Enabled(s, a) && FreshClaim(s, a)
    ensures FencesAscend(Step(s, a)) && ReadsOk(Step(s, a))
  {
    if Lands(s, a) {
      ClaimKeepsFences(s, a.i, a.acked);
    } else {
      StepFrames(s, a);
    }
  }

  // Nothing but a claim makes a run live or gives it another owner.
  lemma OwnerIsKept(s: Sys, a: Action)
    requires Enabled(s, a) && (a.ClaimRun? ==> !ClaimLands(s, a.i))
    ensures Live(Step(s, a).rows.run) ==> Live(s.rows.run) && Step(s, a).rows.run.leaseOwner == s.rows.run.leaseOwner
  {
  }

  lemma StepKeepsOwnerOk(s: Sys, a: Action)
    requires OwnerOk(s) && Enabled(s, a)
    ensures OwnerOk(Step(s, a))
  {
    if Lands(s, a) {
    } else {
      StepFrames(s, a);
      OwnerIsKept(s, a);
      if Live(Step(s, a).rows.run) {
        var j := s.grants[|s.grants| - 1].session;
        assert SessionFrame(s.sessions[j], Step(s, a).sessions[j], s.rows.run.leaseFence);
      }
    }
  }

  lemma StepKeepsFenced(s: Sys, a: Action)
    requires Fenced(s) && Enabled(s, a) && FreshClaim(s, a)
    ensures Fenced(Step(s, a))
  {
    StepKeepsTracked(s, a);
    StepKeepsFences(s, a);
    StepKeepsOwnerOk(s, a);
  }

  /** With current reads the fences of landed claims strictly ascend and the row carries the latest one. */
  lemma {:induction false} AlwaysFenced(ss: seq<Sys>, acts: seq<Action>, k: nat)
    requires Behaviour(ss, acts) && ClaimsFresh(ss, acts) && k < |ss|
    ensures Fenced(ss[k])
  {
    if k == 0 {
    } else {
      AlwaysFenced(ss, acts, k - 1);
      assert FreshClaim(ss[k - 1], acts[k - 1]) && Enabled(ss[k - 1], acts[k - 1]);
      StepKeepsFenced(ss[k - 1], acts[k - 1]);
      assert ss[k] == Step(ss[k - 1], acts[k - 1]);
    }
  }

  // Fences are unique among the sessions that ever held the lease.
  lemma FencesDiffer(s: Sys, i: nat, j: nat)
    requires Fenced(s) && i != j && HasSession(s, i) && HasSession(s, j)
    requires HasLease(s.sessions[i].phase) && HasLease(s.sessions[j].phase)
    ensures s.sessions[i].fence != s.sessions[j].fence
    ensures s.sessions[i].fence <= s.rows.run.leaseFence
  {
  }

  lemma HolderIsLatest(s: Sys, i: nat)
    requires Fenced(s) && HasSession(s, i) && HasLease(s.sessions[i].phase)
    ensures s.sessions[i].fence <= s.rows.run.leaseFence
    ensures s.sessions[i].fence == s.rows.run.leaseFence <==> s.grants != [] && s.grants[|s.grants| - 1].session == i
  {
  }

  /** A landing claim gets a fence above every earlier one exactly when its read is still current. */
  lemma ClaimOutranksIff(ss: seq<Sys>, acts: seq<Action>, i: nat)
    requires Behaviour(ss, acts) && ClaimsFresh(ss, acts)
    requires var s := ss[|acts|]; Enabled(s, ClaimRun(i, true)) && ClaimLands(s, i)
    ensures var s := ss[|acts|];
            FreshClaim(s, ClaimRun(i, true)) <==>
            s.sessions[i].fence > 0 && forall p | 0 <= p < |s.grants| :: s.grants[p].fence < s.sessions[i].fence
  {
    AlwaysFenced(ss, acts, |acts|);
    var s := ss[|acts|];
    if s.grants != [] {
      var n := |s.grants|;
      assert forall p | 0 <= p < n :: s.grants[p].fence <= s.grants[n - 1].fence;
    }
  }

  // ----- claims that land beside no twin ---------------------------------------------------------------

  // The session's guards fit the live row.
  predicate Fits(run: RunRow, me: Session) {
    Live(run) && run.leaseOwner == Some(me.worker) && run.leaseFence == me.fence
  }

  // An earlier holder of the same worker with the same fence.
  predicate IsTwin(s: Sys, i: nat, j: nat)
    requires HasSession(s, i)
  {
    HasSession(s, j) && j != i && HasLease(s.sessions[j].phase)
    && s.sessions[j].worker == s.sessions[i].worker && s.sessions[j].fence == s.sessions[i].fence
  }

  ghost predicate Twin(s: Sys, i: nat)
    requires HasSession(s, i)
  {
    exists j: nat :: IsTwin(s, i, j)
  }

  ghost predicate LandsAlone(s: Sys, a: Action) {
    Lands(s, a) ==> !Twin(s, a.i)
  }

  ghost predicate TwinFree(ss: seq<Sys>, acts: seq<Action>)
    requires |ss| == |acts| + 1
  {
    forall k | 0 <= k < |acts| :: LandsAlone(ss[k], acts[k])
  }

  // Of the sessions that held the lease, only the last claimant fits the live row.
  ghost predicate OnlyLastFits(s: Sys) {
    forall j | 0 <= j < |s.sessions| && HasLease(s.sessions[j].phase) && Fits(s.rows.run, s.sessions[j]) ::
      s.grants != [] && s.grants[|s.grants| - 1].session == j
  }

  // Whatever was before, the claim sees to it.
  lemma ClaimMakesOnlyLastFit(s: Sys, a: Action)
    requires Enabled(s, a) && Lands(s, a) && !Twin(s, a.i)
    ensures OnlyLastFits(Step(s, a))
  {
    var t := Step(s, a);
    assert t.grants[|s.grants|].session == a.i;
    forall j | 0 <= j < |t.sessions| && j != a.i && HasLease(t.sessions[j].phase)
      ensures !Fits(t.rows.run, t.sessions[j])
    {
      assert t.sessions[j] == s.sessions[j] && !IsTwin(s, a.i, j);
    }
  }

  lemma FrameKeepsOnlyLastFits(s: Sys, t: Sys)
    requires OnlyLastFits(s) && t.grants == s.grants && SessionsFrame(s, t)
    requires Live(t.rows.run) ==> Live(s.rows.run) && t.rows.run.leaseOwner == s.rows.run.leaseOwner
    requires t.rows.run.leaseFence == s.rows.run.leaseFence
    ensures OnlyLastFits(t)
  {
    forall j | 0 <= j < |t.sessions| && HasLease(t.sessions[j].phase) && Fits(t.rows.run, t.sessions[j])
      ensures s.grants != [] && s.grants[|s.grants| - 1].session == j
    {
      assert j < |s.sessions| && SessionFrame(s.sessions[j], t.sessions[j], s.rows.run.leaseFence);
    }
  }

  lemma StepKeepsOnlyLastFits(s: Sys, a: Action)
    requires OnlyLastFits(s) && Enabled(s, a) && LandsAlone(s, a)
    ensures OnlyLastFits(Step(s, a))
  {
    if Lands(s, a) {
      ClaimMakesOnlyLastFit(s, a);
    } else {
      StepFrames(s, a);
      OwnerIsKept(s, a);
      FrameKeepsOnlyLastFits(s, Step(s, a));
    }
  }

  lemma {:induction false} OnlyLastFitsAlong(ss: seq<Sys>, acts: seq<Action>, j: nat, k: nat)
    requires Path(ss, acts) && j <= k < |ss| && OnlyLastFits(ss[j])
    requires forall m | j <= m < k :: LandsAlone(ss[m], acts[m])
    ensures OnlyLastFits(ss[k])
  {
    if j == k {
    } else {
      OnlyLastFitsAlong(ss, acts, j, k - 1);
      StepKeepsOnlyLastFits(ss[k - 1], acts[k - 1]);
      assert ss[k] == Step(ss[k - 1], acts[k - 1]);
    }
  }

  // The updates of the run row whose `where` names the lease.
  predicate LeaseWrite(a: Action) {
    a.StartRun? || a.RenewLease? || a.PauseRun? || a.FinalizeRun? || a.ReleaseRun?
  }

  // A session that does not own the latest grant changes nothing through its lease.
  lemma OnlyLatestWrites(s: Sys, a: Action)
    requires OnlyLastFits(s) && Enabled(s, a) && LeaseWrite(a)
    requires s.grants == [] || s.grants[|s.grants| - 1].session != a.i
    ensures Step(s, a).rows == s.rows
  {
    assert HasLease(s.sessions[a.i].phase);
  }

  // An earlier claimant is not the latest once another claim has landed.
  lemma EarlierIsNotLatest(s: Sys, t: Sys, i: nat, claimant: nat)
    requires GrantsOnce(t) && Granted(s, i) && claimant != i
    requires |s.grants| < |t.grants| && s.grants <= t.grants && t.grants[|s.grants|].session == claimant
    ensures t.grants[|t.grants| - 1].session != i
  {
    var p :| 0 <= p < |s.grants| && s.grants[p].session == i;
    assert t.grants[p].session == i;
  }

  lemma LandedIsNew(s: Sys, a: Action, i: nat)
    requires Tracked(s) && Enabled(s, a) && Lands(s, a) && Granted(s, i)
    ensures a.i != i && Step(s, a).grants == s.grants + [Grant(a.i, s.sessions[a.i].fence)]
  {
  }

  lemma LostAlong(ss: seq<Sys>, acts: seq<Action>, j: nat, k: nat, i: nat)
    requires Path(ss, acts) && j < k < |acts| && Tracked(ss[j]) && Lands(ss[j], acts[j]) && Granted(ss[j], i)
    requires forall m | j <= m < k :: LandsAlone(ss[m], acts[m])
    requires LeaseWrite(acts[k]) && acts[k].i == i
    ensures acts[j].i != i && ss[k + 1].rows == ss[k].rows
  {
    assert ss[j + 1] == Step(ss[j], acts[j]) && LandsAlone(ss[j], acts[j]);
    LandedIsNew(ss[j], acts[j], i);
    ClaimMakesOnlyLastFit(ss[j], acts[j]);
    OnlyLastFitsAlong(ss, acts, j + 1, k);
    StepKeepsTracked(ss[j], acts[j]);
    TrackedAlong(ss, acts, j + 1, k);
    assert |ss[j].grants| < |ss[j + 1].grants| && ss[j + 1].grants <= ss[k].grants;
    assert ss[k].grants[|ss[j].grants|] == ss[j + 1].grants[|ss[j].grants|];
    EarlierIsNotLatest(ss[j], ss[k], i, acts[j].i);
    OnlyLatestWrites(ss[k], acts[k]);
    assert ss[k + 1] == Step(ss[k], acts[k]);
  }

  /** Fencing: once another session's claim has landed beside no twin, and as long as no later claim lands
      beside one, a session that held the lease before can never again start, renew, pause, finalize or
      release the run, even under the same worker id. */
  lemma LostLeaseStaysLost(ss: seq<Sys>, acts: seq<Action>, j: nat, k: nat, i: nat)
    requires Behaviour(ss, acts) && j < k < |acts| && Lands(ss[j], acts[j]) && Granted(ss[j], i)
    requires forall m | j <= m < k :: LandsAlone(ss[m], acts[m])
    requires LeaseWrite(acts[k]) && acts[k].i == i
    ensures acts[j].i != i && ss[k + 1].rows == ss[k].rows
  {
    AlwaysTracked(ss, acts, j);
    LostAlong(ss, acts, j, k, i);
  }

  // ----- that a twin is what it takes -------------------------------------------------------------------

  // Going on from one state to another with every claim landing alone.
  ghost predicate Reaches(t: Sys, u: Sys) {
    exists ss: seq<Sys>, acts: seq<Action> ::
      Path(ss, acts) && TwinFree(ss, acts) && ss[0] == t && ss[|acts|] == u
  }

  lemma ReachesItself(t: Sys)
    ensures Reaches(t, t)
  {
    var ss, acts: seq<Action> := [t], [];
    assert Path(ss, acts) && TwinFree(ss, acts) && ss[|acts|] == t;
  }

  lemma PathGoesOn(ss: seq<Sys>, acts: seq<Action>, a: Action)
    requires Path(ss, acts) && Enabled(ss[|acts|], a)
    ensures Path(ss + [Step(ss[|acts|], a)], acts + [a])
    ensures forall k | 0 <= k < |acts| :: (acts + [a])[k] == acts[k] && (ss + [Step(ss[|acts|], a)])[k] == ss[k]
  {
    var tt, more := ss + [Step(ss[|acts|], a)], acts + [a];
    forall k | 0 <= k < |more|
      ensures Enabled(tt[k], more[k]) && tt[k + 1] == Step(tt[k], more[k])
    {
      if k < |acts| {
        assert tt[k] == ss[k] && tt[k + 1] == ss[k + 1] && more[k] == acts[k];
      }
    }
  }

  lemma ReachesOn(t: Sys, u: Sys, a: Action)
    requires Reaches(t, u) && Enabled(u, a) && !a.ClaimRun?
    ensures Reaches(t, Step(u, a))
  {
    var ss: seq<Sys>, acts: seq<Action> :| Path(ss, acts) && TwinFree(ss, acts) && ss[0] == t && ss[|acts|] == u;
    var tt, more := ss + [Step(u, a)], acts + [a];
    PathGoesOn(ss, acts, a);
    forall k | 0 <= k < |more|
      ensures LandsAlone(tt[k], more[k])
    {
      if k < |acts| {
        assert LandsAlone(ss[k], acts[k]);
      }
    }
    assert tt[0] == t && tt[|more|] == Step(u, a);
  }

  // A write through the lease, by a session that held it in `s` and is not the claimant, changes a row.
  predicate WritesAsHolder(s: Sys, i: nat, u: Sys, a: Action) {
    && Enabled(u, a) && LeaseWrite(a) && Step(u, a).rows != u.rows
    && a.i != i && HasSession(s, a.i) && HasLease(s.sessions[a.i].phase)
  }

  ghost predicate EarlierHolderWrites(s: Sys, i: nat)
    requires Enabled(s, ClaimRun(i, true))
  {
    exists u: Sys, a: Action :: Reaches(Step(s, ClaimRun(i, true)), u) && WritesAsHolder(s, i, u, a)
  }

  lemma TwinStarts(s: Sys, i: nat, j: nat)
    requires Enabled(s, ClaimRun(i, true)) && ClaimLands(s, i) && IsTwin(s, i, j) && s.sessions[j].phase.Claimed?
    ensures EarlierHolderWrites(s, i)
  {
    var t := Step(s, ClaimRun(i, true));
    ReachesItself(t);
    assert WritesAsHolder(s, i, t, StartRun(j, true));
  }

  predicate CanRenew(s: Sys, j: nat) {
    HasSession(s, j) && Holds(s.rows.run, Running, s.sessions[j].worker, s.sessions[j].fence)
    && s.rows.run.leaseExpiresAt == Some(s.now + LEASE_MS - 1)
  }

  lemma RenewChanges(s: Sys, j: nat)
    requires CanRenew(s, j) && HasAttempt(s.sessions[j].phase)
    ensures Step(s, RenewLease(j)).rows != s.rows
  {
    assert Step(s, RenewLease(j)).rows.run.leaseExpiresAt == Some(s.now + LEASE_MS);
  }

  lemma ClaimedRowRuns(s: Sys, i: nat, j: nat, t: Sys)
    requires Enabled(s, ClaimRun(i, true)) && ClaimLands(s, i) && IsTwin(s, i, j) && t == Step(s, ClaimRun(i, true))
    ensures Enabled(t, StartRun(i, true)) && CanRenew(Step(Step(t, StartRun(i, true)), Tick(1)), j)
    ensures Step(Step(t, StartRun(i, true)), Tick(1)).sessions[j] == s.sessions[j]
  {
  }

  // The claimant starts, and time passes: the twin can prolong the claimant's lease.
  lemma TwinFitsRunning(s: Sys, i: nat, j: nat) returns (u: Sys)
    requires Enabled(s, ClaimRun(i, true)) && ClaimLands(s, i) && IsTwin(s, i, j)
    ensures Reaches(Step(s, ClaimRun(i, true)), u) && CanRenew(u, j) && u.sessions[j] == s.sessions[j]
  {
    var t := Step(s, ClaimRun(i, true));
    ClaimedRowRuns(s, i, j, t);
    ReachesItself(t);
    ReachesOn(t, t, StartRun(i, true));
    ReachesOn(t, Step(t, StartRun(i, true)), Tick(1));
    u := Step(Step(t, StartRun(i, true)), Tick(1));
  }

  lemma TwinRenews(s: Sys, i: nat, j: nat)
    requires Enabled(s, ClaimRun(i, true)) && ClaimLands(s, i) && IsTwin(s, i, j) && HasAttempt(s.sessions[j].phase)
    ensures EarlierHolderWrites(s, i)
  {
    var u := TwinFitsRunning(s, i, j);
    RenewChanges(u, j);
    assert WritesAsHolder(s, i, u, RenewLease(j));
  }

  lemma AddingKeepsRenewal(s: Sys, j: nat)
    requires CanRenew(s, j) && s.sessions[j].phase.Started?
    ensures CanRenew(Step(s, AddAttempt(j, true)), j)
    ensures HasAttempt(Step(s, AddAttempt(j, true)).sessions[j].phase)
  {
  }

  lemma TwinAddsAndRenews(s: Sys, i: nat, j: nat)
    requires Enabled(s, ClaimRun(i, true)) && ClaimLands(s, i) && IsTwin(s, i, j) && s.sessions[j].phase.Started?
    ensures EarlierHolderWrites(s, i)
  {
    var u := TwinFitsRunning(s, i, j);
    var v := Step(u, AddAttempt(j, true));
    AddingKeepsRenewal(u, j);
    ReachesOn(Step(s, ClaimRun(i, true)), u, AddAttempt(j, true));
    RenewChanges(v, j);
    assert WritesAsHolder(s, i, v, RenewLease(j));
  }

  lemma PathFromClaim(s: Sys, claim: Action, ss: seq<Sys>, acts: seq<Action>)
    requires Path(ss, acts) && Enabled(s, claim) && ss[0] == Step(s, claim)
    ensures Path([s] + ss, [claim] + acts)
  {
    var all, steps := [s] + ss, [claim] + acts;
    forall m | 0 <= m < |steps|
      ensures Enabled(all[m], steps[m]) && all[m + 1] == Step(all[m], steps[m])
    {
      if m > 0 {
        assert all[m] == ss[m - 1] && all[m + 1] == ss[m] && steps[m] == acts[m - 1];
      }
    }
  }

  // The last step of a path behind a claim that landed alone, taken by an earlier holder.
  lemma EarlierHolderStep(s: Sys, claim: Action, ss: seq<Sys>, acts: seq<Action>)
    requires Tracked(s) && Enabled(s, claim) && Lands(s, claim) && LandsAlone(s, claim)
    requires Path(ss, acts) && ss[0] == Step(s, claim) && acts != []
    requires forall k | 0 <= k < |acts| - 1 :: LandsAlone(ss[k], acts[k])
    requires var a := acts[|acts| - 1]; LeaseWrite(a) && HasSession(s, a.i) && HasLease(s.sessions[a.i].phase)
    ensures ss[|acts|].rows == ss[|acts| - 1].rows
  {
    var all, steps := [s] + ss, [claim] + acts;
    var me := acts[|acts| - 1].i;
    PathFromClaim(s, claim, ss, acts);
    forall m | 0 <= m < |acts|
      ensures LandsAlone(all[m], steps[m])
    {
      if m > 0 {
        assert all[m] == ss[m - 1] && steps[m] == acts[m - 1];
      }
    }
    assert Grant(me, s.sessions[me].fence) in s.grants;
    LostAlong(all, steps, 0, |acts|, me);
    assert all[|acts|] == ss[|acts| - 1] && all[|acts| + 1] == ss[|acts|];
  }

  lemma NobodyElseWrites(s: Sys, i: nat, u: Sys, a: Action)
    requires Tracked(s) && Enabled(s, ClaimRun(i, true)) && ClaimLands(s, i) && !Twin(s, i)
    requires Reaches(Step(s, ClaimRun(i, true)), u)
    ensures !WritesAsHolder(s, i, u, a)
  {
    if WritesAsHolder(s, i, u, a) {
      var ss: seq<Sys>, acts: seq<Action> :|
        Path(ss, acts) && TwinFree(ss, acts) && ss[0] == Step(s, ClaimRun(i, true)) && ss[|acts|] == u;
      PathGoesOn(ss, acts, a);
      var tt, more := ss + [Step(u, a)], acts + [a];
      assert more[|more| - 1] == a && tt[|more|] == Step(u, a) && tt[|more| - 1] == u && tt[0] == ss[0];
      EarlierHolderStep(s, ClaimRun(i, true), tt, more);
    }
  }

  /** In every reachable state: a landing claim leaves an earlier holder able to write if and only if it
      lands beside a twin. */
  lemma ClaimLeavesHolderIff(s: Sys, i: nat)
    requires Tracked(s) && Enabled(s, ClaimRun(i, true)) && ClaimLands(s, i)
    ensures EarlierHolderWrites(s, i) <==> Twin(s, i)
  {
    if Twin(s, i) {
      var j: nat :| IsTwin(s, i, j);
      if s.sessions[j].phase.Claimed? {
        TwinStarts(s, i, j);
      } else if s.sessions[j].phase.Started? {
        TwinAddsAndRenews(s, i, j);
      } else {
        TwinRenews(s, i, j);
      }
    } else if EarlierHolderWrites(s, i) {
      var u: Sys, a: Action :| Reaches(Step(s, ClaimRun(i, true)), u) && WritesAsHolder(s, i, u, a);
      NobodyElseWrites(s, i, u, a);
    }
  }

  // ----- where twins cannot be ----------------------------------------------------------------------------

  lemma FreshHasNoTwin(s: Sys, a: Action)
    requires Fenced(s) && Lands(s, a) && FreshClaim(s, a)
    ensures !Twin(s, a.i)
  {
    forall j: nat
      ensures !IsTwin(s, a.i, j)
    {
      if HasSession(s, j) && HasLease(s.sessions[j].phase) {
        HolderIsLatest(s, j);
      }
    }
  }

  /** Current reads make no twins. */
  lemma CurrentReadsAreTwinFree(ss: seq<Sys>, acts: seq<Action>)
    requires Behaviour(ss, acts) && ClaimsFresh(ss, acts)
    ensures TwinFree(ss, acts)
  {
    forall k | 0 <= k < |acts|
      ensures LandsAlone(ss[k], acts[k])
    {
      AlwaysFenced(ss, acts, k);
      assert FreshClaim(ss[k], acts[k]);
      if Lands(ss[k], acts[k]) {
        FreshHasNoTwin(ss[k], acts[k]);
      }
    }
  }

  predicate SameWorkers(s: Sys, t: Sys) {
    && |s.sessions| <= |t.sessions|
    && forall i | 0 <= i < |s.sessions| :: t.sessions[i].worker == s.sessions[i].worker
  }

  lemma WorkersStillSame(s: Sys, t: Sys, u: Sys)
    requires SameWorkers(s, t) && SameWorkers(t, u)
    ensures SameWorkers(s, u)
  {
  }

  lemma StepKeepsWorkers(s: Sys, a: Action)
    requires Enabled(s, a)
    ensures SameWorkers(s, Step(s, a))
  {
    if Lands(s, a) {
    } else {
      StepFrames(s, a);
    }
  }

  lemma OneStepKeepsWorkers(ss: seq<Sys>, acts: seq<Action>, k: nat)
    requires Path(ss, acts) && k < |acts|
    ensures SameWorkers(ss[k], ss[k + 1])
  {
    assert Enabled(ss[k], acts[k]) && ss[k + 1] == Step(ss[k], acts[k]);
    StepKeepsWorkers(ss[k], acts[k]);
  }

  lemma {:induction false} SameWorkersAlong(ss: seq<Sys>, j: nat, k: nat)
    requires j <= k < |ss| && forall i | j <= i < k :: SameWorkers(ss[i], ss[i + 1])
    ensures SameWorkers(ss[j], ss[k])
    decreases k
  {
    if j == k {
    } else {
      SameWorkersAlong(ss, j, k - 1);
      WorkersStillSame(ss[j], ss[k - 1], ss[k]);
    }
  }

  lemma WorkersStay(ss: seq<Sys>, acts: seq<Action>, j: nat, k: nat)
    requires Path(ss, acts) && j <= k < |ss|
    ensures SameWorkers(ss[j], ss[k])
  {
    forall i | j <= i < k
      ensures SameWorkers(ss[i], ss[i + 1])
    {
      OneStepKeepsWorkers(ss, acts, i);
    }
    SameWorkersAlong(ss, j, k);
  }

  ghost predicate OwnersDiffer(s: Sys) {
    forall i, j | 0 <= i < j < |s.sessions| :: s.sessions[i].worker != s.sessions[j].worker
  }

  /** Sessions under owner ids of their own have no twins, whatever they read. */
  lemma DistinctOwnersAreTwinFree(ss: seq<Sys>, acts: seq<Action>)
    requires Behaviour(ss, acts) && OwnersDiffer(ss[|acts|])
    ensures TwinFree(ss, acts)
  {
    forall k | 0 <= k < |acts|
      ensures LandsAlone(ss[k], acts[k])
    {
      WorkersStay(ss, acts, k, |acts|);
      assert OwnersDiffer(ss[k]);
    }
  }

  // ----- the attempt of a holder ----------------------------------------------------------------------------

  predicate HolderRuns(r: Rows, me: Session) {
    InTry(me.phase) && Fits(r.run, me) ==>
      && !me.phase.Paused? && !me.phase.PauseRecorded? && !me.phase.Released?
      && me.attempt < |r.attempts| && r.attempts[me.attempt].status == AttemptRunning
  }

  ghost predicate HoldersRun(s: Sys) {
    forall j | 0 <= j < |s.sessions| && InTry(s.sessions[j].phase) :: HolderRuns(s.rows, s.sessions[j])
  }

  // Without a claim a run never becomes live, and a step of one session leaves the others'
  // attempts and phases alone.
  lemma OthersKeepSession(s: Sys, a: Action, j: nat)
    requires Enabled(s, a) && HasSession(s, j) && !(BySession(a) && a.i == j)
    ensures Step(s, a).sessions[j] == s.sessions[j]
  {
  }

  // What a step can do to the attempts: add one, or change that of its own session.
  lemma StepChangesOwnAttempt(s: Sys, a: Action, k: nat)
    requires Enabled(s, a) && k < |s.rows.attempts|
    requires BySession(a) && HasAttempt(s.sessions[a.i].phase) ==> s.sessions[a.i].attempt != k
    ensures k < |Step(s, a).rows.attempts| && Step(s, a).rows.attempts[k] == s.rows.attempts[k]
  {
    if !BySession(a) {
      assert Step(s, a).rows.attempts == s.rows.attempts;
    }
  }

  lemma OthersKeepAttempt(s: Sys, a: Action, j: nat)
    requires AttemptsOk(s) && Enabled(s, a) && HasSession(s, j) && HasAttempt(s.sessions[j].phase)
    requires BySession(a) ==> a.i != j
    ensures s.sessions[j].attempt < |Step(s, a).rows.attempts|
    ensures Step(s, a).rows.attempts[s.sessions[j].attempt] == s.rows.attempts[s.sessions[j].attempt]
  {
    StepChangesOwnAttempt(s, a, s.sessions[j].attempt);
  }

  lemma OwnQuietStepKeeps(s: Sys, a: Action)
    requires AttemptsOk(s) && Enabled(s, a) && BySession(a) && HolderRuns(s.rows, s.sessions[a.i])
    requires !a.ClaimRun? && !a.AddAttempt? && !a.FinalizeRun? && (HasLease(s.sessions[a.i].phase) || a.ReadRun?)
    ensures HolderRuns(Step(s, a).rows, Step(s, a).sessions[a.i])
  {
  }

  lemma OwnAddKeeps(s: Sys, i: nat, acked: bool)
    requires Enabled(s, AddAttempt(i, acked))
    ensures HolderRuns(StepAddAttempt(s, i, acked).rows, StepAddAttempt(s, i, acked).sessions[i])
  {
  }

  lemma OwnFinalizeKeeps(s: Sys, i: nat, outcome: Outcome, acked: bool)
    requires Enabled(s, FinalizeRun(i, outcome, acked)) && HolderRuns(s.rows, s.sessions[i])
    ensures HolderRuns(StepFinalize(s, i, outcome, acked).rows, StepFinalize(s, i, outcome, acked).sessions[i])
  {
  }

  // The session that takes the step.
  lemma OwnStepKeeps(s: Sys, a: Action, i: nat)
    requires AttemptsOk(s) && Enabled(s, a) && HasSession(s, i) && HolderRuns(s.rows, s.sessions[i])
    requires BySession(a) && !a.ClaimRun? && a.i == i
    requires HasLease(s.sessions[i].phase) || a.ReadRun?
    ensures HolderRuns(Step(s, a).rows, Step(s, a).sessions[i])
  {
    match a
    case AddAttempt(_, acked) => OwnAddKeeps(s, i, acked);
    case FinalizeRun(_, outcome, acked) => OwnFinalizeKeeps(s, i, outcome, acked);
    case _ => OwnQuietStepKeeps(s, a);
  }

  lemma ClaimKeepsHoldersRun(s: Sys, a: Action)
    requires HoldersRun(s) && Enabled(s, a) && a.ClaimRun? && LandsAlone(s, a)
    ensures HoldersRun(Step(s, a))
  {
    var t := Step(s, a);
    forall j | 0 <= j < |t.sessions| && InTry(t.sessions[j].phase)
      ensures HolderRuns(t.rows, t.sessions[j])
    {
      assert j != a.i && t.sessions[j] == s.sessions[j];
      if Lands(s, a) {
        assert !IsTwin(s, a.i, j);
      } else {
        assert HolderRuns(s.rows, s.sessions[j]);
      }
    }
  }

  lemma StepKeepsHolder(s: Sys, a: Action, j: nat)
    requires AttemptsOk(s) && Enabled(s, a) && !a.ClaimRun? && HoldersRun(s)
    requires HasSession(Step(s, a), j) && InTry(Step(s, a).sessions[j].phase)
    ensures HolderRuns(Step(s, a).rows, Step(s, a).sessions[j])
  {
    var t := Step(s, a);
    StepFrames(s, a);
    assert j < |s.sessions|;
    assert SessionFrame(s.sessions[j], t.sessions[j], s.rows.run.leaseFence);
    if Live(t.rows.run) {
      OwnerIsKept(s, a);
      assert HolderRuns(s.rows, s.sessions[j]);
      if BySession(a) && a.i == j {
        OwnStepKeeps(s, a, j);
      } else {
        OthersKeepSession(s, a, j);
        OthersKeepAttempt(s, a, j);
      }
    }
  }

  lemma StepKeepsHoldersRun(s: Sys, a: Action)
    requires AttemptsOk(s) && HoldersRun(s) && Enabled(s, a) && LandsAlone(s, a)
    ensures HoldersRun(Step(s, a))
  {
    var t := Step(s, a);
    if a.ClaimRun? {
      ClaimKeepsHoldersRun(s, a);
    } else {
      forall j | 0 <= j < |t.sessions| && InTry(t.sessions[j].phase)
        ensures HolderRuns(t.rows, t.sessions[j])
      {
        StepKeepsHolder(s, a, j);
      }
    }
  }

  /** A session inside its try block that fits the live row has a running attempt. */
  lemma {:induction false} AlwaysHoldersRun(ss: seq<Sys>, acts: seq<Action>, k: nat)
    requires Behaviour(ss, acts) && AnswersGuarded(ss, acts) && TwinFree(ss, acts) && k < |ss|
    ensures HoldersRun(ss[k])
  {
    if k == 0 {
    } else {
      AlwaysHoldersRun(ss, acts, k - 1);
      AlwaysInv(ss, acts, k - 1);
      assert LandsAlone(ss[k - 1], acts[k - 1]) && Enabled(ss[k - 1], acts[k - 1]);
      StepKeepsHoldersRun(ss[k - 1], acts[k - 1]);
      assert ss[k] == Step(ss[k - 1], acts[k - 1]);
    }
  }

  /** The finalizing transaction never finds its attempt gone, so its throw is unreachable. */
  lemma AttemptIsAvailable(ss: seq<Sys>, acts: seq<Action>, k: nat)
    requires Behaviour(ss, acts) && AnswersGuarded(ss, acts) && TwinFree(ss, acts)
    requires k < |acts| && acts[k].FinalizeRun?
    ensures var me := ss[k].sessions[acts[k].i];
            FinalizeVerdict(ss[k].rows, me.worker, me.fence, me.attempt) != AttemptUnavailable
  {
    AlwaysInv(ss, acts, k);
    AlwaysHoldersRun(ss, acts, k);
  }
}
