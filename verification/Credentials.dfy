/**
 The request-scoped credential store of packages/adapters/src/pi-credentials.ts. Every modify or
 delete chains itself behind the operation before it; a modify reads the credential, awaits its
 callback and then the publication of the result, and only then stores it. Calls arrive, start and
 finish in any interleaving that the chain allows.
 */
module Credentials {
  import opened Wrappers

  // `id` is the object's identity, which the store compares.
  datatype Credential = Credential(id: nat, oauth: bool)

  datatype Update = Throws | Returns(next: Option<Credential>)

  // An operation with the answers its environment will give it.
  datatype Operation =
    | Modify(update: Option<Credential> -> Update, abortedBefore: bool, abortedAfter: bool, publishFails: bool)
    | Delete(aborted: bool)

  datatype Phase = Pending | Running(current: Option<Credential>) | Settled(result: Option<Option<Credential>>)

  datatype Store = Store(credential: Option<Credential>, operations: seq<Operation>, phases: seq<Phase>,
                         published: seq<Credential>)

  datatype Action = Call(operation: Operation) | Begin(i: nat) | End(i: nat)

  predicate Publishes(current: Option<Credential>, next: Credential) {
    next.oauth && current != Some(next)
  }

  // What an operation does when nothing else runs. None as result: the promise rejects.
  function Effect(current: Option<Credential>, operation: Operation): (Option<Credential>, Option<Option<Credential>>) {
    match operation
    case Delete(aborted) => if aborted then (current, None) else (None, Some(None))
    case Modify(update, abortedBefore, abortedAfter, publishFails) =>
      if abortedBefore then (current, None)
      else match update(current)
        case Throws => (current, None)
        case Returns(next) =>
          if abortedAfter then (current, None)
          else if next.None? then (current, Some(current))
          else if Publishes(current, next.value) && publishFails then (current, None)
          else (next, Some(next))
  }

  function Fold(initial: Option<Credential>, operations: seq<Operation>): Option<Credential> {
    if operations == [] then initial
    else Effect(Fold(initial, operations[..|operations| - 1]), operations[|operations| - 1]).0
  }

  predicate PreviousSettled(s: Store, i: nat)
    requires i < |s.phases|
  {
    i == 0 || s.phases[i - 1].Settled?
  }

  predicate Enabled(s: Store, a: Action) {
    match a
    case Call(_) => true
    case Begin(i) => i < |s.phases| && i < |s.operations| && s.phases[i].Pending? && PreviousSettled(s, i)
    case End(i) => i < |s.phases| && i < |s.operations| && s.phases[i].Running? && s.operations[i].Modify?
  }

  function StepBegin(s: Store, i: nat): Store
    requires Enabled(s, Begin(i))
  {
    match s.operations[i]
    case Delete(aborted) =>
      if aborted then s.(phases := s.phases[i := Settled(None)])
      else s.(credential := None, phases := s.phases[i := Settled(Some(None))])
    case Modify(_, abortedBefore, _, _) =>
      s.(phases := s.phases[i := if abortedBefore then Settled(None) else Running(s.credential)])
  }

  // From the callback's answer to the return value; `this.credential` is read and written here.
  function StepEnd(s: Store, i: nat): Store
    requires Enabled(s, End(i))
  {
    var op, current := s.operations[i], s.phases[i].current;
    match op.update(current)
    case Throws => s.(phases := s.phases[i := Settled(None)])
    case Returns(next) =>
      if op.abortedAfter then s.(phases := s.phases[i := Settled(None)])
      else if next.None? then s.(phases := s.phases[i := Settled(Some(s.credential))])
      else if Publishes(current, next.value) && op.publishFails then s.(phases := s.phases[i := Settled(None)])
      else
        var published := if Publishes(current, next.value) then s.published + [next.value] else s.published;
        s.(credential := next, published := published, phases := s.phases[i := Settled(Some(next))])
  }

  function Step(s: Store, a: Action): Store
    requires Enabled(s, a)
  {
    match a
    case Call(operation) => s.(operations := s.operations + [operation], phases := s.phases + [Pending])
    case Begin(i) => StepBegin(s, i)
    case End(i) => StepEnd(s, i)
  }

  lemma FoldOneMore(initial: Option<Credential>, operations: seq<Operation>, i: nat)
    requires i < |operations|
    ensures Fold(initial, operations[..i + 1]) == Effect(Fold(initial, operations[..i]), operations[i]).0
  {
    assert operations[..i + 1][..i] == operations[..i];
  }

  /** The store's own field, with the two synchronous stretches of an operation as methods. */
  class PiRuntimeCredentialStore {
    var credential: Option<Credential>
    var published: seq<Credential>

    constructor (credential: Option<Credential>)
      ensures this.credential == credential && published == []
    {
      this.credential, published := credential, [];
    }

    // One delete, from its turn in the chain on.
    method Remove(aborted: bool) returns (result: Option<Option<Credential>>)
      modifies this`credential
      ensures (credential, result) == Effect(old(credential), Delete(aborted))
    {
      if aborted {
        return None;
      }
      credential := None;
      result := Some(None);
    }

    /** One modify from its callback's answer on; with the credential still the one it started
        from, this is the operation's whole effect. */
    method Apply(op: Operation, current: Option<Credential>) returns (result: Option<Option<Credential>>)
      requires op.Modify? && !op.abortedBefore && current == credential
      modifies this
      ensures (credential, result) == Effect(old(credential), op)
      ensures published == old(published) +
        (if credential.Some? && credential != current && credential.value.oauth then [credential.value] else [])
    {
      var update := op.update(current);
      if update.Throws? || op.abortedAfter {
        return None;
      }
      if update.next.Some? {
        var next := update.next.value;
        if next.oauth && current != Some(next) {
          if op.publishFails {
            return None;
          }
          published := published + [next];
        }
        credential := Some(next);
      }
      result := Some(credential);
    }

    /** Calls that never overlap: the credential ends as their fold, and each gets the value of its turn. */
    method RunInOrder(operations: seq<Operation>) returns (results: seq<Option<Option<Credential>>>)
      modifies this
      ensures credential == Fold(old(credential), operations) && |results| == |operations|
      ensures forall i | 0 <= i < |operations| ::
        results[i] == Effect(Fold(old(credential), operations[..i]), operations[i]).1
    {
      results := [];
      ghost var initial := credential;
      for i := 0 to |operations|
        invariant |results| == i && credential == Fold(initial, operations[..i])
        invariant forall k | 0 <= k < i :: results[k] == Effect(Fold(initial, operations[..k]), operations[k]).1
      {
        var result: Option<Option<Credential>> := None;
        FoldOneMore(initial, operations, i);
        if operations[i].Delete? {
          result := Remove(operations[i].aborted);
        } else if !operations[i].abortedBefore {
          result := Apply(operations[i], credential);
        }
        results := results + [result];
      }
      assert operations[..|operations|] == operations;
    }
  }

  ghost predicate Behaviour(initial: Option<Credential>, ss: seq<Store>, acts: seq<Action>) {
    && |ss| == |acts| + 1
    && ss[0] == Store(initial, [], [], [])
    && (forall k | 0 <= k < |acts| :: Enabled(ss[k], acts[k]) && ss[k + 1] == Step(ss[k], acts[k]))
  }

  predicate UnderWay(s: Store, i: nat)
    requires i < |s.phases| == |s.operations|
  {
    || s.phases[i].Pending?
    || (s.phases[i].Running? && s.phases[i].current == s.credential
        && s.operations[i].Modify? && !s.operations[i].abortedBefore)
  }

  // `done` operations have settled, the next one may be running on the credential they left, and
  // the rest are waiting.
  ghost predicate Progress(initial: Option<Credential>, s: Store, done: nat) {
    && |s.phases| == |s.operations| && done <= |s.phases|
    && s.credential == Fold(initial, s.operations[..done])
    && (forall i | 0 <= i < done :: s.phases[i] == Settled(Effect(Fold(initial, s.operations[..i]), s.operations[i]).1))
    && (forall i | done < i < |s.phases| :: s.phases[i].Pending?)
    && (done < |s.phases| ==> UnderWay(s, done))
  }

  lemma CallKeepsProgress(initial: Option<Credential>, s: Store, done: nat, operation: Operation)
    requires Progress(initial, s, done)
    ensures Progress(initial, Step(s, Call(operation)), done)
  {
    var t := Step(s, Call(operation));
    forall i | 0 <= i <= done ensures t.operations[..i] == s.operations[..i] {
    }
    if done < |s.phases| {
      assert t.phases[done] == s.phases[done] && t.operations[done] == s.operations[done];
    }
    forall i | 0 <= i < done
      ensures t.phases[i] == Settled(Effect(Fold(initial, t.operations[..i]), t.operations[i]).1)
    {
      assert t.phases[i] == s.phases[i] && t.operations[i] == s.operations[i];
    }
  }

  // What the running operation did is the fold's next step.
  lemma OneStepOfTheFold(s: Store, done: nat, a: Action)
    requires done < |s.phases| == |s.operations| && UnderWay(s, done)
    requires Enabled(s, a) && !a.Call? && a.i == done
    ensures var t := Step(s, a); var effect := Effect(s.credential, s.operations[done]);
            && t.operations == s.operations && |t.phases| == |s.phases|
            && (forall i | 0 <= i < |s.phases| && i != done :: t.phases[i] == s.phases[i])
            && (t.phases[done].Settled? ==> t.credential == effect.0 && t.phases[done].result == effect.1)
            && (!t.phases[done].Settled? ==> t.credential == s.credential && UnderWay(t, done))
  {
  }

  lemma OperationKeepsProgress(initial: Option<Credential>, s: Store, done: nat, a: Action) returns (next: nat)
    requires Progress(initial, s, done) && done < |s.phases| && Enabled(s, a) && !a.Call? && a.i == done
    ensures Progress(initial, Step(s, a), next) && done <= next
  {
    var t := Step(s, a);
    OneStepOfTheFold(s, done, a);
    FoldOneMore(initial, s.operations, done);
    next := if t.phases[done].Settled? then done + 1 else done;
  }

  lemma StepKeepsProgress(initial: Option<Credential>, s: Store, done: nat, a: Action) returns (next: nat)
    requires Progress(initial, s, done) && Enabled(s, a)
    ensures Progress(initial, Step(s, a), next) && done <= next
  {
    next := done;
    if a.Call? {
      CallKeepsProgress(initial, s, done, a.operation);
    } else {
      assert a.i == done;
      next := OperationKeepsProgress(initial, s, done, a);
    }
  }

  lemma {:induction false} AlwaysProgress(initial: Option<Credential>, ss: seq<Store>, acts: seq<Action>, k: nat)
      returns (done: nat)
    requires Behaviour(initial, ss, acts) && k < |ss|
    ensures Progress(initial, ss[k], done)
  {
    if k == 0 {
      done := 0;
    } else {
      done := AlwaysProgress(initial, ss, acts, k - 1);
      done := StepKeepsProgress(initial, ss[k - 1], done, acts[k - 1]);
    }
  }

  /** However the calls interleave, the settled operations are a prefix in call order, the stored
      credential is the fold of their effects, each promise got the value the fold gives it, and at
      most one operation is under way. */
  lemma EndsAsInOrderFold(initial: Option<Credential>, ss: seq<Store>, acts: seq<Action>, k: nat)
    requires Behaviour(initial, ss, acts) && k < |ss|
    ensures var s := ss[k];
            exists done: nat :: done <= |s.phases| && |s.phases| == |s.operations|
              && (forall i | 0 <= i < |s.phases| :: s.phases[i].Settled? <==> i < done)
              && s.credential == Fold(initial, s.operations[..done])
              && (forall i | 0 <= i < done ::
                s.phases[i].result == Effect(Fold(initial, s.operations[..i]), s.operations[i]).1)
              && (forall i | done < i < |s.phases| :: !s.phases[i].Running?)
  {
    var done := AlwaysProgress(initial, ss, acts, k);
    var s := ss[k];
    assert forall i | 0 <= i < |s.phases| :: s.phases[i].Settled? <==> i < done;
  }
}
