/** The polling loop that turns findings into an exit code, and the cache of job lists that its polls read through. */
module MergeGateLoop {
  import opened Wrappers
  import opened MergeGate

  // ----- a set of findings -----

  function Evaluate(workflows: map<string, string>, gates: seq<string>, runs: seq<Run>, headSha: string): (r: seq<Finding>)
    ensures |r| == |gates|
  {
    seq(|gates|, i requires 0 <= i < |gates| => ClassifyGate(workflows, gates[i], runs, Some(headSha)))
  }

  function BlockingFindings(findings: seq<Finding>): seq<Finding>
    decreases |findings|
  {
    if findings == [] then []
    else
      (if findings[0].state.Pending? || findings[0].state.Pass? then [] else [findings[0]]) + BlockingFindings(findings[1..])
  }

  predicate Authorized(findings: seq<Finding>) {
    findings != [] && forall i | 0 <= i < |findings| :: findings[i].state.Pass?
  }

  lemma {:induction false} NothingBlocks(findings: seq<Finding>)
    ensures BlockingFindings(findings) == [] <==> forall i | 0 <= i < |findings| :: findings[i].state.Pending? || findings[i].state.Pass?
    decreases |findings|
  {
    if findings != [] {
      NothingBlocks(findings[1..]);
      assert findings == [findings[0]] + findings[1..];
    }
  }

  // ----- the loop -----

  /** One round: the query could not be completed, or it listed runs; and whether the deadline has passed by then. */
  datatype Poll = QueryFailed | Listed(runs: seq<Run>, late: bool)

  /** What one poll decides, if anything. */
  function PollExit(workflows: map<string, string>, required: seq<string>, headSha: string, poll: Poll): Option<int> {
    if poll.QueryFailed? then Some(1)
    else
      var findings := Evaluate(workflows, required, poll.runs, headSha);
      if Authorized(findings) then Some(0)
      else if BlockingFindings(findings) != [] || poll.late then Some(1)
      else None
  }

  method PollOnce(workflows: map<string, string>, required: seq<string>, headSha: string, poll: Poll) returns (exit: Option<int>)
    ensures exit == PollExit(workflows, required, headSha, poll)
    ensures exit.Some? ==> exit.value == 0 || exit.value == 1
  {
    if poll.QueryFailed? { return Some(1); }
    var findings := Evaluate(workflows, required, poll.runs, headSha);
    if Authorized(findings) { return Some(0); }
    if BlockingFindings(findings) != [] { return Some(1); }
    if poll.late { return Some(1); }
    return None;
  }

  /** What the first poll that decides anything decides. */
  function LoopExit(workflows: map<string, string>, required: seq<string>, headSha: string, polls: seq<Poll>): Option<int>
    decreases |polls|
  {
    if polls == [] then None
    else
      var exit := PollExit(workflows, required, headSha, polls[0]);
      if exit.Some? then exit else LoopExit(workflows, required, headSha, polls[1..])
  }

  /** The exit code, or nothing while every poll so far says to wait. `connected` is whether a client could be made. */
  method RunGate(workflows: map<string, string>, required: seq<string>, headSha: string, connected: bool, polls: seq<Poll>)
    returns (exit: Option<int>)
    ensures exit == if headSha == "" || |required| == 0 || exists i :: 0 <= i < |required| && required[i] !in workflows then Some(2)
                    else if !connected then Some(1)
                    else LoopExit(workflows, required, headSha, polls)
  {
    if headSha == "" || required == [] { return Some(2); }
    for i := 0 to |required|
      invariant forall j | 0 <= j < i :: required[j] in workflows
    {
      if required[i] !in workflows { return Some(2); }
    }
    if !connected { return Some(1); }
    hide PollExit;
    assert polls[0..] == polls;
    for k := 0 to |polls|
      invariant LoopExit(workflows, required, headSha, polls) == LoopExit(workflows, required, headSha, polls[k..])
    {
      assert polls[k..][1..] == polls[k + 1..];
      exit := PollOnce(workflows, required, headSha, polls[k]);
      if exit.Some? { return; }
    }
    return None;
  }

  /** The loop ends with success exactly when some poll lets the merge through and every earlier one said to wait. */
  lemma {:induction false} LoopSucceedsIff(workflows: map<string, string>, required: seq<string>, headSha: string, polls: seq<Poll>)
    ensures LoopExit(workflows, required, headSha, polls) == Some(0) <==>
      exists k :: 0 <= k < |polls| && PollExit(workflows, required, headSha, polls[k]) == Some(0)
        && forall j | 0 <= j < k :: PollExit(workflows, required, headSha, polls[j]) == None
    decreases |polls|
  {
    hide PollExit;
    if polls != [] {
      var rest := polls[1..];
      LoopSucceedsIff(workflows, required, headSha, rest);
      if k :| (0 <= k < |polls| && PollExit(workflows, required, headSha, polls[k]) == Some(0)
               && forall j | 0 <= j < k :: PollExit(workflows, required, headSha, polls[j]) == None) {
        if k > 0 {
          assert PollExit(workflows, required, headSha, polls[0]) == None;
          assert rest[k - 1] == polls[k];
          assert forall j | 0 <= j < k - 1 :: rest[j] == polls[j + 1];
        }
      }
      if PollExit(workflows, required, headSha, polls[0]) == None
          && LoopExit(workflows, required, headSha, rest) == Some(0) {
        var k :| 0 <= k < |rest| && PollExit(workflows, required, headSha, rest[k]) == Some(0)
          && forall j | 0 <= j < k :: PollExit(workflows, required, headSha, rest[j]) == None;
        assert polls[k + 1] == rest[k];
        assert forall j | 0 < j < k + 1 :: polls[j] == rest[j - 1];
      }
    }
  }

  /** The loop waits exactly while nothing blocks, something is pending and the deadline has not passed. */
  lemma WaitsByFindings(workflows: map<string, string>, required: seq<string>, headSha: string, poll: Poll)
    requires required != []
    ensures PollExit(workflows, required, headSha, poll) == None <==>
      && poll.Listed? && !poll.late
      && var findings := Evaluate(workflows, required, poll.runs, headSha);
      && (forall i | 0 <= i < |findings| :: findings[i].state.Pending? || findings[i].state.Pass?)
      && exists i :: 0 <= i < |findings| && findings[i].state.Pending?
  {
    if poll.Listed? {
      hide ClassifyGate;
      NothingBlocks(Evaluate(workflows, required, poll.runs, headSha));
    }
  }

  // ----- the job cache -----

  /** One read of a run's jobs: whether the run is completed, and what the query would list (`None` if it fails). */
  datatype Look = Look(runId: int, completed: bool, listed: Option<seq<Job>>)

  function Read(cache: map<int, seq<Job>>, look: Look): (map<int, seq<Job>>, Option<seq<Job>>) {
    if look.completed && look.runId in cache then (cache, Some(cache[look.runId]))
    else if look.listed.None? then (cache, None)
    else (if look.completed then cache[look.runId := look.listed.value] else cache, look.listed)
  }

  class GitHubClient {
    var jobCache: map<int, seq<Job>>

    constructor ()
      ensures jobCache == map[]
    {
      jobCache := map[];
    }

    /** `None` stands for a failed request. */
    method Jobs(look: Look) returns (jobs: Option<seq<Job>>)
      modifies this
      ensures (jobCache, jobs) == Read(old(jobCache), look)
    {
      if look.completed && look.runId in jobCache { return Some(jobCache[look.runId]); }
      if look.listed.None? { return None; }
      var parsed: seq<Job> := [];
      var raw := look.listed.value;
      for i := 0 to |raw|
        invariant parsed == raw[..i]
        invariant jobCache == old(jobCache)
      {
        parsed := parsed + [raw[i]];
      }
      assert raw[..|raw|] == raw;
      if look.completed { jobCache := jobCache[look.runId := parsed]; }
      return Some(parsed);
    }
  }

  function Reads(looks: seq<Look>): (r: (map<int, seq<Job>>, seq<Option<seq<Job>>>))
    ensures |r.1| == |looks|
    decreases |looks|
  {
    if looks == [] then (map[], [])
    else
      var (cache, results) := Reads(looks[..|looks| - 1]);
      var (cache', result) := Read(cache, looks[|looks| - 1]);
      (cache', results + [result])
  }

  /** The cache holds what was returned at every completed read that succeeded, which is what was listed at the first. */
  ghost predicate CacheExplained(looks: seq<Look>, cache: map<int, seq<Job>>, results: seq<Option<seq<Job>>>)
    requires |results| == |looks|
  {
    && (forall j | 0 <= j < |looks| && looks[j].completed && results[j].Some? ::
      looks[j].runId in cache && cache[looks[j].runId] == results[j].value)
    && (forall id | id in cache :: exists j :: 0 <= j < |looks| && looks[j] == Look(id, true, Some(cache[id])))
    && (forall j | 0 <= j < |looks| && looks[j].listed.Some? :: results[j].Some?)
    && (forall j | 0 <= j < |looks| && !looks[j].completed :: results[j] == looks[j].listed)
  }

  lemma {:induction false} ReadsExplained(looks: seq<Look>)
    ensures CacheExplained(looks, Reads(looks).0, Reads(looks).1)
    decreases |looks|
  {
    if looks != [] {
      var before := looks[..|looks| - 1];
      ReadsExplained(before);
      assert looks == before + [looks[|looks| - 1]];
      ReadExplained(before, Reads(before).0, Reads(before).1, looks[|looks| - 1]);
    }
  }

  lemma {:induction false} ReadExplained(looks: seq<Look>, cache: map<int, seq<Job>>, results: seq<Option<seq<Job>>>, look: Look)
    requires |results| == |looks| && CacheExplained(looks, cache, results)
    ensures var (cache', result) := Read(cache, look); CacheExplained(looks + [look], cache', results + [result])
  {
    var (cache', result) := Read(cache, look);
    var more := looks + [look];
    forall id | id in cache'
      ensures exists j :: 0 <= j < |more| && more[j] == Look(id, true, Some(cache'[id]))
    {
      if id in cache {
        var j :| 0 <= j < |looks| && looks[j] == Look(id, true, Some(cache[id]));
        assert more[j] == looks[j];
      } else {
        assert more[|looks|] == look;
      }
    }
  }

  /** A completed run always lists the same jobs. */
  ghost predicate CompletedStay(looks: seq<Look>) {
    forall j, k | 0 <= j < k < |looks| && looks[j].runId == looks[k].runId && looks[j].completed && looks[k].completed ::
      looks[j].listed.Some? ==> looks[k].listed == looks[j].listed
  }

  lemma {:induction false} PrefixResults(looks: seq<Look>, k: nat)
    requires k <= |looks|
    ensures Reads(looks[..k]).1 == Reads(looks).1[..k]
    decreases |looks|
  {
    if k < |looks| {
      PrefixResults(looks[..|looks| - 1], k);
      assert looks[..|looks| - 1][..k] == looks[..k];
    } else {
      assert looks[..k] == looks;
    }
  }

  /** Reading through the cache is as good as not caching exactly when completed runs stay as they were. */
  lemma {:induction false} CacheIsFaithfulIff(looks: seq<Look>)
    ensures (forall k | 0 <= k < |looks| :: Reads(looks).1[k] == looks[k].listed) <==> CompletedStay(looks)
  {
    if CompletedStay(looks) {
      forall k | 0 <= k < |looks| ensures Reads(looks).1[k] == looks[k].listed {
        ReadIsFaithful(looks, k);
      }
    }
    if forall k | 0 <= k < |looks| :: Reads(looks).1[k] == looks[k].listed {
      ReadsExplained(looks);
      forall j, k | 0 <= j < k < |looks| && looks[j].runId == looks[k].runId && looks[j].completed && looks[k].completed
        ensures looks[j].listed.Some? ==> looks[k].listed == looks[j].listed
      {
        SecondReadIsCached(looks, j, k);
      }
    }
  }

  lemma {:induction false} OneMore(looks: seq<Look>, k: nat)
    requires k < |looks|
    ensures Reads(looks).1[k] == Read(Reads(looks[..k]).0, looks[k]).1
    ensures Reads(looks[..k]).1 == Reads(looks).1[..k]
  {
    PrefixResults(looks, k + 1);
    PrefixResults(looks, k);
    assert looks[..k + 1][..k] == looks[..k];
    assert Reads(looks).1[..k + 1][k] == Reads(looks).1[k];
  }

  lemma {:induction false} ReadIsFaithful(looks: seq<Look>, k: nat)
    requires k < |looks| && CompletedStay(looks)
    ensures Reads(looks).1[k] == looks[k].listed
  {
    OneMore(looks, k);
    ReadsExplained(looks[..k]);
    hide Reads;
    var cache, look := Reads(looks[..k]).0, looks[k];
    if look.completed && look.runId in cache {
      var j :| 0 <= j < k && looks[..k][j] == Look(look.runId, true, Some(cache[look.runId]));
      assert looks[j] == looks[..k][j];
    }
  }

  lemma {:induction false} SecondReadIsCached(looks: seq<Look>, j: nat, k: nat)
    requires j < k < |looks| && looks[j].runId == looks[k].runId && looks[j].completed && looks[k].completed
    ensures looks[j].listed.Some? ==> Reads(looks).1[k] == Reads(looks).1[j]
  {
    OneMore(looks, k);
    ReadsExplained(looks[..k]);
    hide Reads;
    assert looks[..k][j] == looks[j];
  }

  /**
   When a run is run again the cache is stale: a job that succeeded, was run again and then failed still passes its
   gate, while without the cache the same listings fail it.
   */
  lemma RerunIsStale(id: int, name: string)
    ensures var passed, failed := Job(name, "completed", Some("success")), Job(name, "completed", Some("failure"));
      var looks := [Look(id, true, Some([passed])), Look(id, false, Some([])), Look(id, true, Some([failed]))];
      var listing := Run(id, "CI", "push", "sha", "completed", Some("failure"), 2, "", []);
      && Reads(looks).1[2] == Some([passed])
      && ClassifyGate(map[name := "CI"], name, [listing.(jobs := Reads(looks).1[2].value)], Some("sha")).state == Pass
      && ClassifyGate(map[name := "CI"], name, [listing.(jobs := looks[2].listed.value)], Some("sha")).state == Fail
  {
    var passed, failed := Job(name, "completed", Some("success")), Job(name, "completed", Some("failure"));
    var looks := [Look(id, true, Some([passed])), Look(id, false, Some([])), Look(id, true, Some([failed]))];
    var listing := Run(id, "CI", "push", "sha", "completed", Some("failure"), 2, "", []);
    OneMore(looks, 0);
    SecondReadIsCached(looks, 0, 2);
    OneRunDecides(name, listing.(jobs := [passed]));
    OneRunDecides(name, listing.(jobs := [failed]));
    assert Named([passed], name) == [passed] && Named([failed], name) == [failed];
  }

  lemma OneRunDecides(name: string, run: Run)
    requires run.workflowName == "CI" && run.event == "push" && run.headSha == "sha"
    ensures ClassifyGate(map[name := "CI"], name, [run], Some("sha")).state == RunState(run, name).0
  {
    hide RunState;
    OneStays(run, (r: Run) => r.workflowName == "CI" && (Some("sha").None? || r.headSha == Some("sha").value));
    OneStays(run, IsAuthoritative);
    OneStays(run, (r: Run) => Blocks(RunState(r, name).0));
    assert Candidates("CI", Some("sha"), [run]) == [run];
    assert NewestFirst([run]) == Insert(run, []);
    assert Deciding([run], name) == run;
  }

  lemma OneStays(run: Run, keep: Run -> bool)
    ensures Where([run], keep) == if keep(run) then [run] else []
  {
    assert [run][1..] == [];
  }
}
