/**
 The crash-safe commit of a bot's home directory, packages/adapters/src/home.ts. A rename is one
 atomic step; copying and removing a tree touch one file per step. Before every step a script
 decides whether the step happens, fails, or the process dies there, so a commit can be stopped
 after any prefix of its file system steps.
 */
module HomeStore {
  import opened Wrappers

  type Tree = map<string, string>

  // `torn` is what a write leaves in its file when it does not complete.
  datatype Fault = Proceed | Fail(torn: string) | Die(torn: string)

  datatype StepResult = Done | Threw | Died

  datatype Outcome = Committed | CommitThrew | CommitDied

  ghost predicate NoneCommitted(outcomes: seq<Outcome>, from: nat) {
    forall j | from <= j < |outcomes| :: outcomes[j] != Committed
  }

  ghost predicate Survives(before: Option<Tree>, trees: seq<Tree>, outcomes: seq<Outcome>, home: Option<Tree>)
    requires |outcomes| == |trees|
  {
    || (home == before && NoneCommitted(outcomes, 0))
    || (exists i :: 0 <= i < |trees| && home == Some(trees[i]) && NoneCommitted(outcomes, i + 1))
  }

  lemma SurvivesOneMore(before: Option<Tree>, trees: seq<Tree>, outcomes: seq<Outcome>, was: Option<Tree>,
                        tree: Tree, outcome: Outcome, home: Option<Tree>)
    requires |outcomes| == |trees| && Survives(before, trees, outcomes, was)
    requires home == was || home == Some(tree)
    requires outcome == Committed ==> home == Some(tree)
    ensures Survives(before, trees + [tree], outcomes + [outcome], home)
  {
    var n, all, results := |trees|, trees + [tree], outcomes + [outcome];
    if home == Some(tree) {
      assert home == Some(all[n]) && NoneCommitted(results, n + 1);
    } else if was == before && NoneCommitted(outcomes, 0) {
    } else {
      var i :| 0 <= i < n && was == Some(trees[i]) && NoneCommitted(outcomes, i + 1);
      assert home == Some(all[i]) && NoneCommitted(results, i + 1);
    }
  }

  /** One bot's directories: the home, its `.previous` sibling and the staging copies. */
  class BotHome {
    var dest: Option<Tree>
    var previous: Option<Tree>
    var staging: map<nat, Tree>
    var nextStaging: nat
    var script: seq<Fault>

    constructor (dest: Option<Tree>, previous: Option<Tree>, script: seq<Fault>)
      ensures this.dest == dest && this.previous == previous && this.script == script
      ensures staging == map[] && nextStaging == 0
    {
      this.dest, this.previous, this.script := dest, previous, script;
      staging, nextStaging := map[], 0;
    }

    // What the home holds once recovery has run.
    function Home(): Option<Tree>
      reads this
    {
      if dest.Some? then dest else previous
    }

    // The next step of the process: an exhausted script lets everything through.
    method NextFault() returns (fault: Fault)
      modifies this`script
    {
      fault := Proceed;
      if script != [] {
        fault := script[0];
        script := script[1..];
      }
    }

    method RecoverInterruptedCommit() returns (r: StepResult)
      modifies this
      ensures Home() == old(Home()) && staging == old(staging) && nextStaging == old(nextStaging)
      ensures r == Done ==> dest == old(Home()) && (dest == None ==> previous == None)
    {
      r := Done;
      if dest == None && previous.Some? {
        var fault := NextFault();
        if fault != Proceed {
          return if fault.Fail? then Threw else Died;
        }
        dest, previous := previous, None;
      }
    }

    // rm(previous, recursive, force): file after file, then the directory itself.
    method RemovePrevious() returns (r: StepResult)
      requires dest == None ==> previous == None
      modifies this`previous, this`script
      ensures Home() == old(Home())
      ensures r == Done ==> previous == None
    {
      r := Done;
      while previous.Some?
        invariant Home() == old(Home())
        invariant dest == None ==> previous == None
        decreases if previous.Some? then |previous.value| + 1 else 0
      {
        var fault := NextFault();
        if fault != Proceed {
          return if fault.Fail? then Threw else Died;
        }
        if previous.value == map[] {
          previous := None;
        } else {
          var file :| file in previous.value;
          previous := Some(previous.value - {file});
        }
      }
    }

    method RemoveStaging(id: nat) returns (r: StepResult)
      modifies this`staging, this`script
      ensures r == Done ==> id !in staging
    {
      r := Done;
      while id in staging
        decreases if id in staging then |staging[id]| + 1 else 0
      {
        var fault := NextFault();
        if fault != Proceed {
          return if fault.Fail? then Threw else Died;
        }
        if staging[id] == map[] {
          staging := staging - {id};
        } else {
          var file :| file in staging[id];
          staging := staging[id := staging[id] - {file}];
        }
      }
    }

    // copyDir(src, staging): a step that does not complete leaves a torn file behind.
    method CopyToStaging(src: Tree, id: nat) returns (r: StepResult)
      requires id in staging && staging[id] == map[]
      modifies this`staging, this`script
      ensures id in staging && (r == Done ==> staging[id] == src)
    {
      r := Done;
      var remaining := src.Keys;
      while remaining != {}
        invariant remaining <= src.Keys && id in staging
        invariant staging[id] == map file | file in src && file !in remaining :: src[file]
        decreases |remaining|
      {
        var file :| file in remaining;
        var fault := NextFault();
        if fault != Proceed {
          staging := staging[id := staging[id][file := fault.torn]];
          return if fault.Fail? then Threw else Died;
        }
        staging := staging[id := staging[id][file := src[file]]];
        remaining := remaining - {file};
      }
    }

    // The two renames. When the second fails, the first is undone if it can be.
    method SwapIn(id: nat) returns (r: StepResult)
      requires id in staging && previous == None
      modifies this
      ensures r == Done ==> dest == Some(old(staging)[id]) && (previous == None || previous == old(dest))
      ensures r != Done ==> Home() == old(Home())
    {
      var fault: Fault;
      if dest.Some? {
        fault := NextFault();
        if fault != Proceed {
          return if fault.Fail? then Threw else Died;
        }
        dest, previous := None, dest;
      }
      fault := NextFault();
      if fault.Die? {
        return Died;
      }
      if fault.Fail? {
        if dest == None && previous.Some? {
          fault := NextFault();
          if fault.Die? {
            return Died;
          }
          if fault == Proceed {
            dest, previous := previous, None;
          }
        }
        return Threw;
      }
      dest, staging := Some(staging[id]), staging - {id};
      r := Done;
    }

    // The body of the try block, from the copy to the revision file.
    method Replace(src: Tree, id: nat) returns (r: StepResult)
      requires id in staging && staging[id] == map[]
      requires dest == None ==> previous == None
      modifies this
      ensures Home() == old(Home()) || Home() == Some(src)
      ensures r == Done ==> dest == Some(src) && previous == None
    {
      r := CopyToStaging(src, id);
      if r != Done { return; }
      r := RemovePrevious();
      if r != Done { return; }
      r := SwapIn(id);
      if r != Done { return; }
      r := RemovePrevious();
      if r != Done { return; }
      var fault := NextFault();
      if fault != Proceed {
        r := if fault.Fail? then Threw else Died;
      }
    }

    /** Wherever a commit stops, recovery finds the whole old tree or the whole new one. */
    method Commit(src: Tree) returns (outcome: Outcome)
      modifies this
      ensures Home() == old(Home()) || Home() == Some(src)
      ensures outcome == Committed ==> dest == Some(src) && previous == None
    {
      var r := RecoverInterruptedCommit();
      if r != Done {
        return if r == Threw then CommitThrew else CommitDied;
      }
      var fault := NextFault();
      if fault != Proceed {
        return if fault.Fail? then CommitThrew else CommitDied;
      }
      var id := nextStaging;
      nextStaging := nextStaging + 1;
      staging := staging[id := map[]];
      r := Replace(src, id);
      if r == Died {
        return CommitDied;
      }
      var cleaned := RemoveStaging(id);
      if cleaned == Died {
        return CommitDied;
      }
      outcome := if r == Done && cleaned == Done then Committed else CommitThrew;
    }

    /** Over any sequence of commits, each stopped anywhere: the home is the tree of one of them,
        or what it was before, and nothing committed after that tree was written. */
    method CommitAll(trees: seq<Tree>) returns (outcomes: seq<Outcome>)
      modifies this
      ensures |outcomes| == |trees|
      ensures Survives(old(Home()), trees, outcomes, Home())
    {
      outcomes := [];
      ghost var before := Home();
      assert Survives(before, trees[..0], outcomes, Home());
      for i := 0 to |trees|
        invariant |outcomes| == i
        invariant Survives(before, trees[..i], outcomes, Home())
      {
        ghost var was := Home();
        var outcome := Commit(trees[i]);
        SurvivesOneMore(before, trees[..i], outcomes, was, trees[i], outcome, Home());
        assert trees[..i + 1] == trees[..i] + [trees[i]];
        outcomes := outcomes + [outcome];
      }
      assert trees[..|trees|] == trees;
    }
  }
}
