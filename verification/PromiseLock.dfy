/**
 The promise-chain lock of `withBotWrite` (home.ts) and `withModelCredentialLock` (executor.ts),
 with `waitForBotWrite`. A map holds, per key, the promise of the last arrival; each arrival waits
 for the one it found there and puts its own in its place; the last one out takes its entry away.
 Arrivals, wake-ups, releases (the work done or thrown, the `finally` runs either way) and watchers
 interleave in any order.
 */
module PromiseLock {
  import opened Wrappers

  type Key = string

  datatype Phase = Waiting | Holding | Released

  // `previous` is the promise found in the map, None when there was none.
  datatype Ticket = Ticket(key: Key, previous: Option<nat>, phase: Phase)

  datatype Watcher = Watcher(key: Key, seen: Option<nat>, arrivedAt: nat, passed: bool)

  datatype Locks = Locks(tickets: seq<Ticket>, tails: map<Key, nat>, watchers: seq<Watcher>)

  datatype Action = Arrive(key: Key) | Acquire(i: nat) | Release(i: nat) | Watch(key: Key) | Pass(w: nat)

  function Tail(s: Locks, key: Key): Option<nat> {
    if key in s.tails then Some(s.tails[key]) else None
  }

  // The promise of ticket i is `previous.then(() => current)`: everything before it has resolved,
  // and its own holder has released.
  predicate Resolved(tickets: seq<Ticket>, i: nat) {
    i < |tickets| && tickets[i].phase == Released
    && (tickets[i].previous.None? || (tickets[i].previous.value < i && Resolved(tickets, tickets[i].previous.value)))
  }

  predicate Settled(tickets: seq<Ticket>, promise: Option<nat>) {
    promise.None? || Resolved(tickets, promise.value)
  }

  predicate Enabled(s: Locks, a: Action) {
    match a
    case Arrive(_) => true
    case Acquire(i) => i < |s.tickets| && s.tickets[i].phase == Waiting && Settled(s.tickets, s.tickets[i].previous)
    case Release(i) => i < |s.tickets| && s.tickets[i].phase == Holding
    case Watch(_) => true
    case Pass(w) => w < |s.watchers| && Settled(s.tickets, s.watchers[w].seen)
  }

  function Step(s: Locks, a: Action): Locks
    requires Enabled(s, a)
  {
    match a
    case Arrive(key) =>
      s.(tickets := s.tickets + [Ticket(key, Tail(s, key), Waiting)], tails := s.tails[key := |s.tickets|])
    case Acquire(i) => s.(tickets := s.tickets[i := s.tickets[i].(phase := Holding)])
    case Release(i) =>
      var key := s.tickets[i].key;
      s.(tickets := s.tickets[i := s.tickets[i].(phase := Released)],
         tails := if Tail(s, key) == Some(i) then s.tails - {key} else s.tails)
    case Watch(key) => s.(watchers := s.watchers + [Watcher(key, Tail(s, key), |s.tickets|, false)])
    case Pass(w) => s.(watchers := s.watchers[w := s.watchers[w].(passed := true)])
  }

  /** The lock table itself, changed in place. */
  class LockTable {
    var tickets: seq<Ticket>
    var tails: map<Key, nat>
    var watchers: seq<Watcher>

    function Contents(): Locks
      reads this
    {
      Locks(tickets, tails, watchers)
    }

    constructor ()
      ensures Contents() == Locks([], map[], [])
    {
      tickets, tails, watchers := [], map[], [];
    }

    method Enter(key: Key) returns (i: nat)
      modifies this
      ensures i == |old(tickets)| && Contents() == Step(old(Contents()), Arrive(key))
    {
      var previous := None;
      if key in tails {
        previous := Some(tails[key]);
      }
      i := |tickets|;
      tickets := tickets + [Ticket(key, previous, Waiting)];
      tails := tails[key := i];
    }

    method Leave(i: nat)
      requires Enabled(Contents(), Release(i))
      modifies this
      ensures Contents() == Step(old(Contents()), Release(i))
    {
      tickets := tickets[i := tickets[i].(phase := Released)];
      if tickets[i].key in tails && tails[tickets[i].key] == i {
        tails := tails - {tickets[i].key};
      }
    }
  }

  ghost predicate Behaviour(ss: seq<Locks>, acts: seq<Action>) {
    && |ss| == |acts| + 1
    && ss[0] == Locks([], map[], [])
    && (forall k | 0 <= k < |acts| :: Enabled(ss[k], acts[k]) && ss[k + 1] == Step(ss[k], acts[k]))
  }

  // ----- invariant ---------------------------------------------------------------------------------

  // Everybody for this key with a lower number has released.
  ghost predicate AllBefore(tickets: seq<Ticket>, key: Key, limit: nat) {
    forall m | 0 <= m < limit && m < |tickets| && tickets[m].key == key :: tickets[m].phase == Released
  }

  // A promise stands for the last arrival of its key before `limit`; no promise, for none that
  // has not released.
  ghost predicate PromiseOk(tickets: seq<Ticket>, key: Key, promise: Option<nat>, limit: nat) {
    match promise
    case None => AllBefore(tickets, key, limit)
    case Some(p) => p < limit && p < |tickets| && tickets[p].key == key
                    && forall m | p < m < limit && m < |tickets| :: tickets[m].key != key
  }

  ghost predicate ChainOk(s: Locks) {
    forall j | 0 <= j < |s.tickets| :: PromiseOk(s.tickets, s.tickets[j].key, s.tickets[j].previous, j)
  }

  ghost predicate TailsOk(s: Locks) {
    forall key :: PromiseOk(s.tickets, key, Tail(s, key), |s.tickets|)
  }

  ghost predicate OrderOk(s: Locks) {
    forall j | 0 <= j < |s.tickets| && s.tickets[j].phase != Waiting :: AllBefore(s.tickets, s.tickets[j].key, j)
  }

  ghost predicate WatchersOk(s: Locks) {
    forall w | 0 <= w < |s.watchers| ::
      && s.watchers[w].arrivedAt <= |s.tickets|
      && PromiseOk(s.tickets, s.watchers[w].key, s.watchers[w].seen, s.watchers[w].arrivedAt)
      && (s.watchers[w].passed ==> AllBefore(s.tickets, s.watchers[w].key, s.watchers[w].arrivedAt))
  }

  ghost predicate Inv(s: Locks) {
    ChainOk(s) && TailsOk(s) && OrderOk(s) && WatchersOk(s)
  }

  // A resolved promise means that everybody up to it is out.
  lemma {:induction false} ResolvedMeansOut(s: Locks, i: nat)
    requires ChainOk(s) && Resolved(s.tickets, i)
    ensures AllBefore(s.tickets, s.tickets[i].key, i + 1)
  {
    assert PromiseOk(s.tickets, s.tickets[i].key, s.tickets[i].previous, i);
    if s.tickets[i].previous.Some? {
      ResolvedMeansOut(s, s.tickets[i].previous.value);
    }
  }

  // Tickets keep their keys, and a released ticket stays released.
  ghost predicate Grows(before: seq<Ticket>, after: seq<Ticket>) {
    && |before| <= |after|
    && (forall m | 0 <= m < |before| :: after[m].key == before[m].key && after[m].previous == before[m].previous
          && (before[m].phase == Released ==> after[m].phase == Released))
  }

  lemma PromiseStaysOk(before: seq<Ticket>, after: seq<Ticket>, key: Key, promise: Option<nat>, limit: nat)
    requires Grows(before, after) && limit <= |before| && PromiseOk(before, key, promise, limit)
    ensures PromiseOk(after, key, promise, limit)
  {
  }

  lemma StepGrows(s: Locks, a: Action)
    requires Enabled(s, a)
    ensures Grows(s.tickets, Step(s, a).tickets)
  {
  }

  lemma StepKeepsChain(s: Locks, a: Action)
    requires Inv(s) && Enabled(s, a)
    ensures ChainOk(Step(s, a))
  {
  }

  lemma StepKeepsTails(s: Locks, a: Action)
    requires Inv(s) && Enabled(s, a)
    ensures TailsOk(Step(s, a))
  {
    var t := Step(s, a);
    StepGrows(s, a);
    forall key ensures PromiseOk(t.tickets, key, Tail(t, key), |t.tickets|) {
      PromiseStaysOk(s.tickets, t.tickets, key, Tail(s, key), |s.tickets|);
      if a.Release? && s.tickets[a.i].key == key && Tail(s, key) == Some(a.i) {
        assert AllBefore(s.tickets, key, a.i);
      }
    }
  }

  lemma StepKeepsOrder(s: Locks, a: Action)
    requires Inv(s) && Enabled(s, a)
    ensures OrderOk(Step(s, a))
  {
  }

  lemma StepKeepsWatchers(s: Locks, a: Action)
    requires Inv(s) && Enabled(s, a)
    ensures WatchersOk(Step(s, a))
  {
  }

  lemma {:induction false} AlwaysInv(ss: seq<Locks>, acts: seq<Action>, k: nat)
    requires Behaviour(ss, acts) && k < |ss|
    ensures Inv(ss[k])
  {
    if k == 0 {
    } else {
      AlwaysInv(ss, acts, k - 1);
      StepKeepsChain(ss[k - 1], acts[k - 1]);
      StepKeepsTails(ss[k - 1], acts[k - 1]);
      StepKeepsOrder(ss[k - 1], acts[k - 1]);
      StepKeepsWatchers(ss[k - 1], acts[k - 1]);
    }
  }

  // ----- main results ----------------------------------------------------------------------------------

  /** First come, first served, one at a time: whoever holds or has held the lock of a key, everybody
      who arrived before for that key is already out; so two tickets never hold the same key. */
  lemma OneHolderInOrder(ss: seq<Locks>, acts: seq<Action>, k: nat, i: nat, j: nat)
    requires Behaviour(ss, acts) && k < |ss| && i < j < |ss[k].tickets|
    requires ss[k].tickets[i].key == ss[k].tickets[j].key && ss[k].tickets[j].phase != Waiting
    ensures ss[k].tickets[i].phase == Released
  {
    AlwaysInv(ss, acts, k);
    assert AllBefore(ss[k].tickets, ss[k].tickets[j].key, j);
  }

  /** A reader that gets through `waitForBotWrite` has outwaited every writer that was there before it. */
  lemma WatcherOutwaits(ss: seq<Locks>, acts: seq<Action>, k: nat, w: nat, i: nat)
    requires Behaviour(ss, acts) && k < |ss| && w < |ss[k].watchers| && ss[k].watchers[w].passed
    requires i < ss[k].watchers[w].arrivedAt && i < |ss[k].tickets| && ss[k].tickets[i].key == ss[k].watchers[w].key
    ensures ss[k].tickets[i].phase == Released
  {
    AlwaysInv(ss, acts, k);
  }

  lemma {:induction false} FreeMeansSettled(s: Locks, key: Key, promise: Option<nat>, limit: nat)
    requires ChainOk(s) && limit <= |s.tickets|
    requires PromiseOk(s.tickets, key, promise, limit) && AllBefore(s.tickets, key, limit)
    ensures Settled(s.tickets, promise)
    decreases limit
  {
    if promise.None? {
    } else {
      var p := promise.value;
      assert PromiseOk(s.tickets, s.tickets[p].key, s.tickets[p].previous, p);
      FreeMeansSettled(s, key, s.tickets[p].previous, p);
    }
  }

  /** The lock is never stuck: whenever some ticket of a key has not released, one of them holds the
      key or may acquire it now. */
  lemma NeverStuck(ss: seq<Locks>, acts: seq<Action>, k: nat, i: nat) returns (first: nat)
    requires Behaviour(ss, acts) && k < |ss| && i < |ss[k].tickets| && ss[k].tickets[i].phase != Released
    ensures first <= i && ss[k].tickets[first].key == ss[k].tickets[i].key
    ensures Enabled(ss[k], Release(first)) || Enabled(ss[k], Acquire(first))
  {
    AlwaysInv(ss, acts, k);
    var s, key := ss[k], ss[k].tickets[i].key;
    first := 0;
    while !(s.tickets[first].key == key && s.tickets[first].phase != Released)
      invariant first <= i && AllBefore(s.tickets, key, first)
      decreases i - first
    {
      first := first + 1;
    }
    if s.tickets[first].phase == Waiting {
      FreeMeansSettled(s, key, s.tickets[first].previous, first);
    }
  }
}
