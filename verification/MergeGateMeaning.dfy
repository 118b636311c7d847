/** What a pass, a block and a wait mean in terms of the listed runs and jobs themselves. */
module MergeGateMeaning {
  import opened Wrappers
  import opened MergeGate
  import opened MergeGateProperties
  import opened MergeGateLoop

  // ----- runs and jobs, field by field -----

  /** `a` comes after `b`: where they first differ it has the higher character, or `b` has ended. */
  ghost predicate After(a: string, b: string) {
    exists k :: 0 <= k < |a| && k <= |b| && a[..k] == b[..k] && (k == |b| || a[k] > b[k])
  }

  lemma {:induction false} BeforeIsAfter(a: string, b: string)
    ensures Before(b, a) <==> After(a, b)
    decreases |a|
  {
    if a != [] && b != [] && a[0] == b[0] {
      BeforeIsAfter(a[1..], b[1..]);
      if k :| 0 <= k < |a[1..]| && k <= |b[1..]| && a[1..][..k] == b[1..][..k] && (k == |b[1..]| || a[1..][k] > b[1..][k]) {
        assert a[..k + 1] == [a[0]] + a[1..][..k] && b[..k + 1] == [b[0]] + b[1..][..k];
        assert After(a, b);
      }
      if k :| 0 <= k < |a| && k <= |b| && a[..k] == b[..k] && (k == |b| || a[k] > b[k]) {
        assert k > 0;
        assert a[1..][..k - 1] == a[..k][1..] && b[1..][..k - 1] == b[..k][1..];
        assert After(a[1..], b[1..]);
      }
    } else if a != [] {
      assert a[..0] == b[..0];
    }
  }

  /** Created later, or at the same time with a higher number. */
  ghost predicate Later(a: Run, b: Run) {
    After(a.createdAt, b.createdAt) || (a.createdAt == b.createdAt && a.runId > b.runId)
  }

  ghost predicate Stopped(run: Run) {
    run.status == "completed" && run.conclusion == Some("cancelled")
  }

  /** The run lists the job at place `i`. */
  ghost predicate Lists(run: Run, name: string, i: int) {
    0 <= i < |run.jobs| && run.jobs[i].name == name
  }

  ghost predicate ListsOnce(run: Run, name: string, i: int) {
    Lists(run, name, i) && forall j | Lists(run, name, j) :: j == i
  }

  ghost predicate ListsTwice(run: Run, name: string) {
    exists i, j :: Lists(run, name, i) && Lists(run, name, j) && i != j
  }

  /** How many jobs of that name the run lists. */
  ghost function Listings(run: Run, name: string): set<int> {
    set i | 0 <= i < |run.jobs| && Lists(run, name, i)
  }

  /** The words a run's state is reported with. */
  ghost predicate Words(run: Run, name: string, said: Said) {
    match said
    case WasCancelled => Stopped(run)
    case HasNoJob => !Stopped(run) && run.status == "completed" && forall i :: !Lists(run, name, i)
    case NotPublished => !Stopped(run) && run.status != "completed" && forall i :: !Lists(run, name, i)
    case Repeated(count) => !Stopped(run) && count >= 2 && count == |Listings(run, name)|
    case JobSaid(status, conclusion) =>
      !Stopped(run) && exists i :: ListsOnce(run, name, i) && run.jobs[i].status == status && run.jobs[i].conclusion == conclusion
  }

  lemma {:induction false} NamedAreListings(run: Run, name: string, n: nat)
    requires n <= |run.jobs|
    ensures |Named(run.jobs[n..], name)| == |set i | n <= i < |run.jobs| && Lists(run, name, i)|
    decreases |run.jobs| - n
  {
    if n < |run.jobs| {
      NamedAreListings(run, name, n + 1);
      assert run.jobs[n..][1..] == run.jobs[n + 1..];
      var later := set i | n + 1 <= i < |run.jobs| && Lists(run, name, i);
      var all := set i | n <= i < |run.jobs| && Lists(run, name, i);
      if Lists(run, name, n) {
        assert all == later + {n};
      } else {
        assert all == later;
      }
    } else {
      assert (set i | n <= i < |run.jobs| && Lists(run, name, i)) == {};
    }
  }

  lemma RunStateWords(run: Run, name: string)
    ensures Words(run, name, RunState(run, name).1)
  {
    var jobs := Named(run.jobs, name);
    NamedAre(run.jobs, name);
    NamedAreListings(run, name, 0);
    assert run.jobs[0..] == run.jobs;
    assert Listings(run, name) == set i | 0 <= i < |run.jobs| && Lists(run, name, i);
    hide Named;
    if |jobs| == 1 {
      var i :| 0 <= i < |run.jobs| && run.jobs[i] == jobs[0] && run.jobs[i].name == name
        && forall j | 0 <= j < |run.jobs| && run.jobs[j].name == name :: j == i;
      assert ListsOnce(run, name, i);
    }
  }

  predicate Refused(conclusion: Option<string>) {
    conclusion.Some? && conclusion.value != "success" && conclusion.value != "cancelled"
  }

  /** What a run says about a job. */
  ghost predicate Says(run: Run, name: string, state: GateState) {
    match state
    case Cancelled =>
      Stopped(run) || exists i :: ListsOnce(run, name, i) && run.jobs[i].status == "completed" && run.jobs[i].conclusion == Some("cancelled")
    case Pass =>
      !Stopped(run) && exists i :: ListsOnce(run, name, i) && run.jobs[i].status == "completed" && run.jobs[i].conclusion == Some("success")
    case Fail =>
      !Stopped(run) && exists i :: ListsOnce(run, name, i) && run.jobs[i].status == "completed" && Refused(run.jobs[i].conclusion)
    case Missing => !Stopped(run) && run.status == "completed" && forall i :: !Lists(run, name, i)
    case Pending =>
      && !Stopped(run)
      && if forall i :: !Lists(run, name, i) then run.status != "completed"
         else exists i :: ListsOnce(run, name, i) && (run.jobs[i].status != "completed" || run.jobs[i].conclusion.None?)
    case ApiError => !Stopped(run) && ListsTwice(run, name)
  }

  lemma {:induction false} NamedAre(jobs: seq<Job>, name: string)
    ensures Named(jobs, name) == [] <==> forall i | 0 <= i < |jobs| :: jobs[i].name != name
    ensures |Named(jobs, name)| == 1 ==>
      exists i :: 0 <= i < |jobs| && jobs[i] == Named(jobs, name)[0] && jobs[i].name == name
        && forall j | 0 <= j < |jobs| && jobs[j].name == name :: j == i
    ensures |Named(jobs, name)| > 1 ==> exists i, j :: 0 <= i < j < |jobs| && jobs[i].name == name && jobs[j].name == name
    decreases |jobs|
  {
    if jobs != [] {
      var rest := jobs[1..];
      NamedAre(rest, name);
      if jobs[0].name == name {
        if Named(rest, name) != [] {
          var j :| 0 <= j < |rest| && rest[j].name == name;
          assert jobs[j + 1].name == name;
        } else {
          assert forall j | 0 < j < |jobs| :: jobs[j] == rest[j - 1];
        }
      } else if |Named(rest, name)| == 1 {
        var i :| 0 <= i < |rest| && rest[i] == Named(rest, name)[0] && rest[i].name == name
          && forall j | 0 <= j < |rest| && rest[j].name == name :: j == i;
        assert jobs[i + 1] == rest[i];
        assert forall j | 0 < j < |jobs| :: jobs[j] == rest[j - 1];
      } else if |Named(rest, name)| > 1 {
        var i, j :| 0 <= i < j < |rest| && rest[i].name == name && rest[j].name == name;
        assert jobs[i + 1] == rest[i] && jobs[j + 1] == rest[j];
      } else {
        assert forall j | 0 < j < |jobs| :: jobs[j] == rest[j - 1];
      }
    }
  }

  /** The state of a run, from its own fields. */
  lemma RunStateSays(run: Run, name: string, state: GateState)
    ensures RunState(run, name).0 == state <==> Says(run, name, state)
  {
    var jobs := Named(run.jobs, name);
    NamedAre(run.jobs, name);
    hide Named;
    if |jobs| == 1 {
      var i :| 0 <= i < |run.jobs| && run.jobs[i] == jobs[0] && run.jobs[i].name == name
        && forall j | 0 <= j < |run.jobs| && run.jobs[j].name == name :: j == i;
      assert ListsOnce(run, name, i);
      assert forall j :: ListsOnce(run, name, j) ==> j == i;
      assert !ListsTwice(run, name);
    } else if |jobs| > 1 {
      var i, j :| 0 <= i < j < |run.jobs| && run.jobs[i].name == name && run.jobs[j].name == name;
      assert Lists(run, name, i) && Lists(run, name, j);
      assert forall k :: !ListsOnce(run, name, k);
    } else {
      assert forall i :: !Lists(run, name, i);
    }
  }

  /** A run that stands in the way: it was stopped, lists the job twice, or lists it as completed without success. */
  ghost predicate Bad(run: Run, name: string) {
    || Stopped(run) || ListsTwice(run, name)
    || exists i :: Lists(run, name, i) && run.jobs[i].status == "completed" && run.jobs[i].conclusion.Some?
                   && run.jobs[i].conclusion.value != "success"
  }

  lemma BlocksIsBad(run: Run, name: string)
    ensures Blocks(RunState(run, name).0) <==> Bad(run, name)
  {
    RunStateSays(run, name, RunState(run, name).0);
    hide RunState;
    var state := RunState(run, name).0;
    if Stopped(run) {
    } else if ListsTwice(run, name) {
      RunStateSays(run, name, ApiError);
    } else if i :| Lists(run, name, i) {
      assert ListsOnce(run, name, i);
      assert forall j :: Lists(run, name, j) ==> j == i;
    }
  }

  // ----- which runs are consulted, and in which order -----

  ghost predicate Matches(run: Run, workflow: string, headSha: Option<string>) {
    run.workflowName == workflow && (headSha.Some? ==> run.headSha == headSha.value)
  }

  ghost predicate FromCommit(run: Run) {
    run.event in {"push", "pull_request"}
  }

  /** Place `i` lists a run of the workflow for the commit; scheduled and dispatched ones only if there are no others. */
  ghost predicate Consulted(runs: seq<Run>, workflow: string, headSha: Option<string>, i: int) {
    && 0 <= i < |runs| && Matches(runs[i], workflow, headSha)
    && (FromCommit(runs[i]) || forall j | 0 <= j < |runs| && Matches(runs[j], workflow, headSha) :: !FromCommit(runs[j]))
  }

  /** The run at place `i` is later than the one at `j`, or they do not differ in that and it is listed first. */
  ghost predicate Ahead(runs: seq<Run>, i: int, j: int)
    requires 0 <= i < |runs| && 0 <= j < |runs|
  {
    Later(runs[i], runs[j]) || (runs[i].createdAt == runs[j].createdAt && runs[i].runId == runs[j].runId && i <= j)
  }

  lemma NewerIsLater(a: Run, b: Run)
    ensures Newer(a, b) <==> Later(a, b)
  {
    BeforeIsAfter(a.createdAt, b.createdAt);
    hide Before, After;
  }

  lemma SameOrLater(a: Run, b: Run)
    ensures Newer(a, b) || Newer(b, a) || (a.createdAt == b.createdAt && a.runId == b.runId)
  {
    BeforeIsTotal(a.createdAt, b.createdAt);
    hide Before;
  }

  lemma NewerAgain(a: Run, b: Run, c: Run)
    requires Newer(a, b) && !Newer(c, b)
    ensures Newer(a, c)
  {
    NotNewerChains(c, b, a);
  }

  /** The same by the order that runs are sorted by. */
  ghost predicate InFront(runs: seq<Run>, i: int, j: int)
    requires 0 <= i < |runs| && 0 <= j < |runs|
  {
    Newer(runs[i], runs[j]) || (runs[i].createdAt == runs[j].createdAt && runs[i].runId == runs[j].runId && i <= j)
  }

  lemma SortedUnfolds(runs: seq<Run>, keep: Run -> bool)
    requires runs != []
    ensures Where(runs, keep) == (if keep(runs[0]) then [runs[0]] else []) + Where(runs[1..], keep)
    ensures keep(runs[0]) ==> NewestFirst(Where(runs, keep)) == Insert(runs[0], NewestFirst(Where(runs[1..], keep)))
    ensures !keep(runs[0]) ==> Where(runs, keep) == Where(runs[1..], keep)
  {
    if keep(runs[0]) {
      assert Where(runs, keep)[1..] == Where(runs[1..], keep);
    }
  }

  lemma InsertUnfolds(run: Run, runs: seq<Run>)
    ensures runs == [] || !Newer(runs[0], run) ==> Insert(run, runs) == [run] + runs
    ensures runs != [] && Newer(runs[0], run) ==> Insert(run, runs) == [runs[0]] + Insert(run, runs[1..])
  {
  }

  /** The head of the sorted runs is the one that is ahead of all the others. */
  lemma {:induction false} HeadIsAhead(runs: seq<Run>, keep: Run -> bool) returns (i: int)
    requires Where(runs, keep) != []
    ensures 0 <= i < |runs| && keep(runs[i]) && |NewestFirst(Where(runs, keep))| > 0 && NewestFirst(Where(runs, keep))[0] == runs[i]
    ensures forall j | 0 <= j < |runs| && keep(runs[j]) :: InFront(runs, i, j)
    decreases |runs|
  {
    var rest := runs[1..];
    SortedUnfolds(runs, keep);
    hide Newer, Insert, NewestFirst, Where;
    assert forall j | 0 < j < |runs| :: runs[j] == rest[j - 1];
    var sorted := NewestFirst(Where(rest, keep));
    InsertUnfolds(runs[0], sorted);
    if Where(rest, keep) == [] {
      i := 0;
      NoneKept(rest, keep);
      assert sorted == [] by { SortedNothing(); }
    } else {
      var k := HeadIsAhead(rest, keep);
      i := k + 1;
      forall j | 0 < j < |runs| && keep(runs[j]) ensures InFront(runs, i, j) {
        assert InFront(rest, k, j - 1);
      }
      if keep(runs[0]) && !Newer(rest[k], runs[0]) {
        i := 0;
        FirstStaysAhead(runs, keep, k + 1);
      }
    }
  }

  lemma SortedNothing()
    ensures NewestFirst([]) == []
  {
  }

  lemma FirstStaysAhead(runs: seq<Run>, keep: Run -> bool, k: int)
    requires 0 < k < |runs| && keep(runs[k]) && !Newer(runs[k], runs[0])
    requires forall j | 0 < j < |runs| && keep(runs[j]) :: InFront(runs, k, j)
    ensures forall j | 0 <= j < |runs| && keep(runs[j]) :: InFront(runs, 0, j)
  {
    forall j | 0 < j < |runs| && keep(runs[j]) ensures InFront(runs, 0, j) {
      SameOrLater(runs[0], runs[j]);
      if Newer(runs[j], runs[0]) {
        NewerAgain(runs[j], runs[0], runs[k]);
        NewerIsTotal(runs[j], runs[k]);
        NewerIsTotal(runs[j], runs[j]);
      }
      hide Newer;
    }
  }

  lemma {:induction false} NoneKept(runs: seq<Run>, keep: Run -> bool)
    ensures Where(runs, keep) == [] <==> forall j | 0 <= j < |runs| :: !keep(runs[j])
    decreases |runs|
  {
    if runs != [] {
      NoneKept(runs[1..], keep);
      assert forall j | 0 < j < |runs| :: runs[j] == runs[1..][j - 1];
    }
  }

  /** Leaving runs out before sorting or after it is the same. */
  lemma {:induction false} SortThenFilter(runs: seq<Run>, keep: Run -> bool)
    ensures Where(NewestFirst(runs), keep) == NewestFirst(Where(runs, keep))
    decreases |runs|
  {
    if runs != [] {
      SortThenFilter(runs[1..], keep);
      NewestFirstKeeps(runs[1..]);
      InsertThenFilter(runs[0], NewestFirst(runs[1..]), keep);
      SortedUnfolds(runs, keep);
    }
  }

  lemma {:induction false} InsertThenFilter(run: Run, runs: seq<Run>, keep: Run -> bool)
    requires Sorted(runs)
    ensures Where(Insert(run, runs), keep) == if keep(run) then Insert(run, Where(runs, keep)) else Where(runs, keep)
    decreases |runs|
  {
    hide Newer;
    if runs == [] || !Newer(runs[0], run) {
      assert ([run] + runs)[1..] == runs;
      if Where(runs, keep) != [] {
        var head := Where(runs, keep)[0];
        WhereIn(runs, keep, head);
        if Newer(head, run) { NewerAgain(head, run, runs[0]); }
        assert !Newer(head, run);
      }
    } else {
      InsertThenFilter(run, runs[1..], keep);
      assert ([runs[0]] + Insert(run, runs[1..]))[1..] == Insert(run, runs[1..]);
      SortedUnfolds(runs, keep);
      InsertUnfolds(run, Where(runs, keep));
      if keep(runs[0]) {
        assert Where(runs, keep)[1..] == Where(runs[1..], keep);
      }
    }
  }

  lemma {:induction false} WhereBoth(runs: seq<Run>, p: Run -> bool, q: Run -> bool, both: Run -> bool)
    requires forall run :: both(run) <==> p(run) && q(run)
    ensures Where(Where(runs, p), q) == Where(runs, both)
    decreases |runs|
  {
    if runs != [] {
      WhereBoth(runs[1..], p, q, both);
      WhereHead(runs, p, q);
    }
  }

  /** Place `i` lists the run that decides a gate: the first in order of those that stand in the way, or else of all. */
  ghost predicate Decides(runs: seq<Run>, workflow: string, headSha: Option<string>, name: string, i: int) {
    && Consulted(runs, workflow, headSha, i)
    && if exists j :: Consulted(runs, workflow, headSha, j) && Bad(runs[j], name)
       then Bad(runs[i], name) && forall j | Consulted(runs, workflow, headSha, j) && Bad(runs[j], name) :: Ahead(runs, i, j)
       else forall j | Consulted(runs, workflow, headSha, j) :: Ahead(runs, i, j)
  }

  /** The runs that are considered are those at the consulted places. */
  lemma ConsideredAre(runs: seq<Run>, workflow: string, headSha: Option<string>) returns (keep: Run -> bool)
    ensures Considered(Candidates(workflow, headSha, runs)) == Where(runs, keep)
    ensures forall i | 0 <= i < |runs| :: keep(runs[i]) <==> Consulted(runs, workflow, headSha, i)
    ensures Candidates(workflow, headSha, runs) == [] <==> Where(runs, keep) == []
  {
    var fits := (run: Run) => run.workflowName == workflow && (headSha.None? || run.headSha == headSha.value);
    var both := (run: Run) => fits(run) && IsAuthoritative(run);
    var candidates := Where(runs, fits);
    assert Candidates(workflow, headSha, runs) == candidates;
    WhereBoth(runs, fits, IsAuthoritative, both);
    NoneKept(runs, fits);
    NoneKept(runs, both);
    assert Where(candidates, IsAuthoritative) == Where(runs, both);
    keep := if Where(runs, both) != [] then both else fits;
    hide Where;
    forall i | 0 <= i < |runs| ensures keep(runs[i]) <==> Consulted(runs, workflow, headSha, i) {
    }
  }

  lemma InFrontIsAhead(runs: seq<Run>, i: int, j: int)
    requires 0 <= i < |runs| && 0 <= j < |runs|
    ensures InFront(runs, i, j) <==> Ahead(runs, i, j)
  {
    NewerIsLater(runs[i], runs[j]);
    hide Newer, Later;
  }

  /** The first of the sorted runs that blocks, or else the first. */
  lemma DecidingIsAhead(runs: seq<Run>, keep: Run -> bool, name: string) returns (i: int)
    requires Where(runs, keep) != []
    ensures NewestFirst(Where(runs, keep)) != [] && 0 <= i < |runs| && keep(runs[i])
    ensures Deciding(NewestFirst(Where(runs, keep)), name) == runs[i]
    ensures if exists j | 0 <= j < |runs| :: keep(runs[j]) && Blocks(RunState(runs[j], name).0)
            then Blocks(RunState(runs[i], name).0)
                 && forall j | 0 <= j < |runs| && keep(runs[j]) && Blocks(RunState(runs[j], name).0) :: InFront(runs, i, j)
            else forall j | 0 <= j < |runs| && keep(runs[j]) :: InFront(runs, i, j)
  {
    var blocks := (run: Run) => Blocks(RunState(run, name).0);
    var bad := (run: Run) => keep(run) && blocks(run);
    NoneKept(runs, bad);
    SortThenFilter(Where(runs, keep), blocks);
    WhereBoth(runs, keep, blocks, bad);
    hide Where, NewestFirst, Blocks, RunState, InFront;
    i := HeadIsAhead(runs, keep);
    if Where(runs, bad) != [] { i := HeadIsAhead(runs, bad); }
  }

  /** The run whose state a gate takes. */
  lemma DecidingDecides(runs: seq<Run>, workflow: string, headSha: Option<string>, name: string) returns (i: int)
    requires exists j :: Consulted(runs, workflow, headSha, j)
    ensures Candidates(workflow, headSha, runs) != [] && NewestFirst(Considered(Candidates(workflow, headSha, runs))) != []
    ensures Decides(runs, workflow, headSha, name, i)
    ensures Deciding(NewestFirst(Considered(Candidates(workflow, headSha, runs))), name) == runs[i]
  {
    var keep := ConsideredAre(runs, workflow, headSha);
    assert forall j | Consulted(runs, workflow, headSha, j) :: 0 <= j < |runs|;
    hide Where, NewestFirst, Consulted, Considered, Candidates, Deciding;
    NoneKept(runs, keep);
    i := DecidingIsAhead(runs, keep, name);
    forall j | 0 <= j < |runs|
      ensures Blocks(RunState(runs[j], name).0) <==> Bad(runs[j], name)
      ensures InFront(runs, i, j) <==> Ahead(runs, i, j)
    {
      BlocksIsBad(runs[j], name);
      InFrontIsAhead(runs, i, j);
    }
    hide Bad, Blocks, RunState, InFront, Ahead;
  }

  /** What a gate reports: the state, the run and what it said, in terms of the listed runs. */
  lemma GateReports(workflows: map<string, string>, name: string, runs: seq<Run>, headSha: Option<string>)
    ensures var f := ClassifyGate(workflows, name, runs, headSha);
      if name !in workflows then f == Finding(name, None, ApiError, NoBinding)
      else if forall j :: !Consulted(runs, workflows[name], headSha, j) then
        f == Finding(name, Some(workflows[name]), Missing, NoRun(headSha))
      else exists i ::
        && Decides(runs, workflows[name], headSha, name, i) && Says(runs[i], name, f.state)
        && f.jobName == name && f.workflowName == Some(workflows[name]) && f.detail.Evidence?
        && (f.detail.runId, f.detail.event, f.detail.attempt) == (runs[i].runId, runs[i].event, runs[i].attempt)
        && (f.detail.provenance == Authoritative <==> FromCommit(runs[i]))
        && Words(runs[i], name, f.detail.said)
  {
    if name in workflows {
      var workflow := workflows[name];
      var keep := ConsideredAre(runs, workflow, headSha);
      NoneKept(runs, keep);
      if exists j :: Consulted(runs, workflow, headSha, j) {
        var i := DecidingDecides(runs, workflow, headSha, name);
        RunStateSays(runs[i], name, RunState(runs[i], name).0);
        RunStateWords(runs[i], name);
        ProvenanceTells(runs, workflow, headSha, i);
        hide NewestFirst, Considered, Candidates, Deciding, RunState, Consulted, ProvenanceOf, Bad, Says, FromCommit, Words;
      }
    }
  }

  lemma ProvenanceTells(runs: seq<Run>, workflow: string, headSha: Option<string>, i: int)
    requires Consulted(runs, workflow, headSha, i) && Candidates(workflow, headSha, runs) != []
    ensures ProvenanceOf(Candidates(workflow, headSha, runs)) == Authoritative <==> FromCommit(runs[i])
  {
    var fits := (run: Run) => run.workflowName == workflow && (headSha.None? || run.headSha == headSha.value);
    assert Candidates(workflow, headSha, runs) == Where(runs, fits);
    var both := (run: Run) => fits(run) && IsAuthoritative(run);
    WhereBoth(runs, fits, IsAuthoritative, both);
    NoneKept(runs, both);
    hide Where;
  }

  // ----- what a pass, a wait and a block mean -----

  /** The one job that a run lists under the name is completed with success. */
  ghost predicate Green(run: Run, name: string) {
    exists i :: ListsOnce(run, name, i) && run.jobs[i].status == "completed" && run.jobs[i].conclusion == Some("success")
  }

  /** The run has not got to the job yet: it does not list it and is not over, or lists it without a conclusion. */
  ghost predicate Awaited(run: Run, name: string) {
    if forall i :: !Lists(run, name, i) then run.status != "completed"
    else exists i :: ListsOnce(run, name, i) && (run.jobs[i].status != "completed" || run.jobs[i].conclusion.None?)
  }

  /** Some run is consulted, none stands in the way, and the first in order of them is as `wanted` says. */
  ghost predicate Undisputed(workflows: map<string, string>, name: string, runs: seq<Run>, headSha: Option<string>, green: bool) {
    && name in workflows
    && (forall j | Consulted(runs, workflows[name], headSha, j) :: !Bad(runs[j], name))
    && exists i :: Consulted(runs, workflows[name], headSha, i)
         && (forall j | Consulted(runs, workflows[name], headSha, j) :: Ahead(runs, i, j))
         && if green then Green(runs[i], name) else Awaited(runs[i], name)
  }

  lemma AheadIsOne(runs: seq<Run>, i: int, j: int)
    requires 0 <= i < |runs| && 0 <= j < |runs| && Ahead(runs, i, j) && Ahead(runs, j, i)
    ensures i == j
  {
    NewerIsLater(runs[i], runs[j]);
    NewerIsLater(runs[j], runs[i]);
    NewerIsTotal(runs[i], runs[j]);
    NewerIsTotal(runs[i], runs[i]);
    BeforeIsStrict(runs[i].createdAt);
    hide Later;
  }

  /** A run that does not stand in the way passes, is awaited, or has ended without the job. */
  lemma SaysTells(run: Run, name: string, state: GateState)
    requires Says(run, name, state)
    ensures Bad(run, name) <==> state.Fail? || state.Cancelled? || state.ApiError?
    ensures state == Pass <==> !Bad(run, name) && Green(run, name)
    ensures state == Pending <==> !Bad(run, name) && Awaited(run, name)
  {
    RunStateSays(run, name, state);
    BlocksIsBad(run, name);
    RunStateSays(run, name, Pass);
    RunStateSays(run, name, Pending);
    hide RunState;
  }

  lemma OnlyOneDecides(runs: seq<Run>, workflow: string, headSha: Option<string>, name: string, i: int, k: int)
    requires Decides(runs, workflow, headSha, name, i) && !Bad(runs[i], name)
    requires Consulted(runs, workflow, headSha, k) && forall j | Consulted(runs, workflow, headSha, j) :: Ahead(runs, k, j)
    ensures k == i && forall j | Consulted(runs, workflow, headSha, j) :: !Bad(runs[j], name)
  {
    ConsultedInside(runs, workflow, headSha, i, k);
    hide Consulted, Bad, Ahead;
    AheadIsOne(runs, i, k);
  }

  lemma ConsultedInside(runs: seq<Run>, workflow: string, headSha: Option<string>, i: int, k: int)
    requires Consulted(runs, workflow, headSha, i) && Consulted(runs, workflow, headSha, k)
    ensures 0 <= i < |runs| && 0 <= k < |runs|
  {
  }

  lemma DecidesTells(workflows: map<string, string>, name: string, runs: seq<Run>, headSha: Option<string>, i: int, green: bool)
    requires name in workflows && Decides(runs, workflows[name], headSha, name, i)
    ensures Undisputed(workflows, name, runs, headSha, green) <==>
      !Bad(runs[i], name) && if green then Green(runs[i], name) else Awaited(runs[i], name)
  {
    var workflow := workflows[name];
    hide Consulted, Bad, Ahead, Green, Awaited;
    if Undisputed(workflows, name, runs, headSha, green) {
      var k :| Consulted(runs, workflow, headSha, k) && (forall j | Consulted(runs, workflow, headSha, j) :: Ahead(runs, k, j))
        && if green then Green(runs[k], name) else Awaited(runs[k], name);
      OnlyOneDecides(runs, workflow, headSha, name, i, k);
    }
    if !Bad(runs[i], name) {
      assert !exists j :: Consulted(runs, workflow, headSha, j) && Bad(runs[j], name);
    }
  }

  /** A gate passes, or is waited for, exactly when that is so. */
  lemma PassIff(workflows: map<string, string>, name: string, runs: seq<Run>, headSha: Option<string>)
    ensures ClassifyGate(workflows, name, runs, headSha).state == Pass <==> Undisputed(workflows, name, runs, headSha, true)
    ensures ClassifyGate(workflows, name, runs, headSha).state == Pending <==> Undisputed(workflows, name, runs, headSha, false)
  {
    GateReports(workflows, name, runs, headSha);
    if name in workflows && exists j :: Consulted(runs, workflows[name], headSha, j) {
      hide *;
      var state := ClassifyGate(workflows, name, runs, headSha).state;
      var i :| Decides(runs, workflows[name], headSha, name, i) && Says(runs[i], name, state);
      SaysTells(runs[i], name, state);
      DecidesTells(workflows, name, runs, headSha, i, true);
      DecidesTells(workflows, name, runs, headSha, i, false);
    } else {
      hide ClassifyGate, Consulted;
    }
  }

  /** The findings of a poll, gate by gate. */
  lemma FindingsTell(workflows: map<string, string>, required: seq<string>, headSha: string, runs: seq<Run>, green: bool)
    ensures var findings := Evaluate(workflows, required, runs, headSha);
      forall i | 0 <= i < |findings| ::
        findings[i].state == (if green then Pass else Pending) <==> Undisputed(workflows, required[i], runs, Some(headSha), green)
  {
    forall i | 0 <= i < |required|
      ensures Evaluate(workflows, required, runs, headSha)[i].state == (if green then Pass else Pending)
              <==> Undisputed(workflows, required[i], runs, Some(headSha), green)
    {
      PassIff(workflows, required[i], runs, Some(headSha));
    }
  }

  /**
   A poll lets the merge through exactly when it lists runs, some gate is required, and for every required gate some run is
   consulted, none of those stands in the way, and the newest has the job completed with success.
   */
  lemma ExitZeroIff(workflows: map<string, string>, required: seq<string>, headSha: string, poll: Poll)
    ensures PollExit(workflows, required, headSha, poll) == Some(0) <==>
      && poll.Listed? && required != []
      && forall i | 0 <= i < |required| :: Undisputed(workflows, required[i], poll.runs, Some(headSha), true)
  {
    if poll.Listed? {
      FindingsTell(workflows, required, headSha, poll.runs, true);
      hide Undisputed, Evaluate;
    }
  }

  /** It says to wait exactly when no deadline has passed, every gate passes or is awaited, and one is awaited. */
  lemma WaitsIff(workflows: map<string, string>, required: seq<string>, headSha: string, poll: Poll)
    requires required != []
    ensures PollExit(workflows, required, headSha, poll) == None <==>
      && poll.Listed? && !poll.late
      && (forall i | 0 <= i < |required| :: Undisputed(workflows, required[i], poll.runs, Some(headSha), true)
                                            || Undisputed(workflows, required[i], poll.runs, Some(headSha), false))
      && exists i :: 0 <= i < |required| && Undisputed(workflows, required[i], poll.runs, Some(headSha), false)
  {
    WaitsByFindings(workflows, required, headSha, poll);
    if poll.Listed? {
      FindingsTell(workflows, required, headSha, poll.runs, true);
      FindingsTell(workflows, required, headSha, poll.runs, false);
      hide *;
    }
  }
}
