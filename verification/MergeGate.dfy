/**
 The merge-authorisation gate: what the runs observed for one commit say about a required gate, when the set of
 findings authorises a merge, and the job cache behind the polling loop.
 */
module MergeGate {
  import opened Wrappers

  datatype GateState = Pass | Fail | Cancelled | Missing | ApiError | Pending

  datatype Job = Job(name: string, status: string, conclusion: Option<string>)

  datatype Run = Run(runId: int, workflowName: string, event: string, headSha: string, status: string,
                     conclusion: Option<string>, attempt: int, createdAt: string, jobs: seq<Job>)

  datatype Said = WasCancelled | HasNoJob | NotPublished | Repeated(count: nat) | JobSaid(status: string, conclusion: Option<string>)

  datatype Provenance = Authoritative | Only(event: string)

  /** The text of a finding, by its parts. */
  datatype Detail =
    | NoBinding
    | NoRun(headSha: Option<string>)
    | Evidence(provenance: Provenance, runId: int, event: string, attempt: int, said: Said)

  datatype Finding = Finding(jobName: string, workflowName: Option<string>, state: GateState, detail: Detail)

  // ----- one run -----

  function JobState(job: Job): GateState {
    if job.status != "completed" then Pending
    else if job.conclusion == Some("success") then Pass
    else if job.conclusion == Some("cancelled") then Cancelled
    else if job.conclusion.None? then Pending
    else Fail
  }

  function Named(jobs: seq<Job>, name: string): seq<Job>
    decreases |jobs|
  {
    if jobs == [] then [] else (if jobs[0].name == name then [jobs[0]] else []) + Named(jobs[1..], name)
  }

  function RunState(run: Run, jobName: string): (GateState, Said) {
    var jobs := Named(run.jobs, jobName);
    if run.status == "completed" && run.conclusion == Some("cancelled") then (Cancelled, WasCancelled)
    else if jobs == [] then if run.status == "completed" then (Missing, HasNoJob) else (Pending, NotPublished)
    else if |jobs| > 1 then (ApiError, Repeated(|jobs|))
    else (JobState(jobs[0]), JobSaid(jobs[0].status, jobs[0].conclusion))
  }

  predicate Blocks(state: GateState) {
    state.Fail? || state.Cancelled? || state.ApiError?
  }

  // ----- the order of runs -----

  /** Strings in lexicographic order. */
  predicate Before(a: string, b: string)
    decreases |a|
  {
    b != [] && (a == [] || a[0] < b[0] || (a[0] == b[0] && Before(a[1..], b[1..])))
  }

  predicate Newer(a: Run, b: Run) {
    Before(b.createdAt, a.createdAt) || (a.createdAt == b.createdAt && a.runId > b.runId)
  }

  lemma {:induction false} BeforeIsTotal(a: string, b: string)
    ensures Before(a, b) || a == b || Before(b, a)
    ensures !(Before(a, b) && (a == b || Before(b, a)))
    decreases |a|
  {
    if a != [] && b != [] && a[0] == b[0] {
      BeforeIsTotal(a[1..], b[1..]);
      assert a == [a[0]] + a[1..] && b == [b[0]] + b[1..];
    }
    BeforeIsStrict(a);
  }

  lemma {:induction false} BeforeIsStrict(a: string)
    ensures !Before(a, a)
    decreases |a|
  {
    if a != [] {
      BeforeIsStrict(a[1..]);
    }
  }

  lemma {:induction false} BeforeChains(a: string, b: string, c: string)
    requires Before(a, b) && Before(b, c)
    ensures Before(a, c)
    decreases |a|
  {
    if a != [] && a[0] == b[0] == c[0] {
      BeforeChains(a[1..], b[1..], c[1..]);
    }
  }

  lemma NewerIsTotal(a: Run, b: Run)
    ensures Newer(a, b) || Newer(b, a) || a.runId == b.runId
    ensures !(Newer(a, b) && Newer(b, a))
  {
    BeforeIsTotal(a.createdAt, b.createdAt);
    BeforeIsStrict(a.createdAt);
  }

  /** A stable sort, newest first: a run goes before those it is not older than. */
  function Insert(run: Run, runs: seq<Run>): seq<Run>
    decreases |runs|
  {
    if runs == [] || !Newer(runs[0], run) then [run] + runs else [runs[0]] + Insert(run, runs[1..])
  }

  function NewestFirst(runs: seq<Run>): seq<Run>
    decreases |runs|
  {
    if runs == [] then [] else Insert(runs[0], NewestFirst(runs[1..]))
  }

  // ----- classification -----

  function Where(runs: seq<Run>, keep: Run -> bool): seq<Run>
    decreases |runs|
  {
    if runs == [] then [] else (if keep(runs[0]) then [runs[0]] else []) + Where(runs[1..], keep)
  }

  predicate IsAuthoritative(run: Run) {
    run.event == "push" || run.event == "pull_request"
  }

  function Candidates(workflow: string, headSha: Option<string>, runs: seq<Run>): seq<Run> {
    Where(runs, (run: Run) => run.workflowName == workflow && (headSha.None? || run.headSha == headSha.value))
  }

  /** The runs that count: the authoritative ones, or all when there are none. */
  function Considered(candidates: seq<Run>): seq<Run> {
    var authoritative := Where(candidates, IsAuthoritative);
    if authoritative != [] then authoritative else candidates
  }

  function ProvenanceOf(candidates: seq<Run>): Provenance
    requires candidates != []
  {
    if Where(candidates, IsAuthoritative) != [] then Authoritative else Only(candidates[0].event)
  }

  /** The newest run with a blocking state, or else the newest run. */
  function Deciding(runs: seq<Run>, jobName: string): Run
    requires runs != []
    decreases |runs|
  {
    var blocking := Where(runs, (run: Run) => Blocks(RunState(run, jobName).0));
    if blocking != [] then blocking[0] else runs[0]
  }

  function ClassifyGate(workflows: map<string, string>, jobName: string, runs: seq<Run>, headSha: Option<string>): Finding {
    if jobName !in workflows then Finding(jobName, None, ApiError, NoBinding)
    else
      var workflow := workflows[jobName];
      var candidates := Candidates(workflow, headSha, runs);
      if candidates == [] then Finding(jobName, Some(workflow), Missing, NoRun(headSha))
      else
        var sorted := NewestFirst(Considered(candidates));
        NewestFirstKeeps(Considered(candidates));
        var run := Deciding(sorted, jobName);
        var (state, said) := RunState(run, jobName);
        Finding(jobName, Some(workflow), state, Evidence(ProvenanceOf(candidates), run.runId, run.event, run.attempt, said))
  }

  // ----- sorting does what it says -----

  ghost predicate Sorted(runs: seq<Run>) {
    forall i, j | 0 <= i < j < |runs| :: !Newer(runs[j], runs[i])
  }

  lemma {:induction false} InsertKeeps(run: Run, runs: seq<Run>)
    requires Sorted(runs)
    ensures multiset(Insert(run, runs)) == multiset(runs) + multiset{run} && Sorted(Insert(run, runs))
    decreases |runs|
  {
    if runs == [] || !Newer(runs[0], run) {
      assert [run] + runs == Insert(run, runs);
      forall j | 0 < j < |Insert(run, runs)|
        ensures !Newer(Insert(run, runs)[j], run)
      {
        if Newer(runs[j - 1], run) {
          NotNewerChains(runs[0], run, runs[j - 1]);
        }
      }
    } else {
      var rest := Insert(run, runs[1..]);
      InsertKeeps(run, runs[1..]);
      assert runs == [runs[0]] + runs[1..];
      forall j | 0 <= j < |rest|
        ensures !Newer(rest[j], runs[0])
      {
        assert rest[j] in multiset(rest);
        if rest[j] == run {
          NewerIsTotal(run, runs[0]);
        } else {
          assert rest[j] in runs[1..];
        }
      }
    }
  }

  lemma NotNewerChains(first: Run, run: Run, later: Run)
    requires !Newer(first, run) && Newer(later, run)
    ensures Newer(later, first)
  {
    BeforeIsTotal(first.createdAt, run.createdAt);
    BeforeIsTotal(later.createdAt, run.createdAt);
    if Before(first.createdAt, run.createdAt) && Before(run.createdAt, later.createdAt) {
      BeforeChains(first.createdAt, run.createdAt, later.createdAt);
    }
    BeforeIsStrict(run.createdAt);
  }

  lemma {:induction false} NewestFirstKeeps(runs: seq<Run>)
    ensures multiset(NewestFirst(runs)) == multiset(runs) && Sorted(NewestFirst(runs))
    ensures |NewestFirst(runs)| == |runs|
    decreases |runs|
  {
    if runs != [] {
      NewestFirstKeeps(runs[1..]);
      InsertKeeps(runs[0], NewestFirst(runs[1..]));
      assert runs == [runs[0]] + runs[1..];
    }
    assert |multiset(NewestFirst(runs))| == |NewestFirst(runs)|;
  }
}
