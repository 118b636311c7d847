/** What can be relied on when the merge gate reports a state: it does not depend on the order in which runs are listed. */
module MergeGateProperties {
  import opened Wrappers
  import opened MergeGate

  ghost predicate DistinctIds(runs: seq<Run>) {
    forall i, j | 0 <= i < j < |runs| :: runs[i].runId != runs[j].runId
  }

  /** The same runs in another order. */
  ghost predicate Permuted(a: seq<Run>, b: seq<Run>) {
    multiset(a) == multiset(b)
  }

  lemma {:induction false} WhereCounts(runs: seq<Run>, keep: Run -> bool, run: Run)
    ensures multiset(Where(runs, keep))[run] == if keep(run) then multiset(runs)[run] else 0
    decreases |runs|
  {
    if runs != [] {
      WhereCounts(runs[1..], keep, run);
      assert runs == [runs[0]] + runs[1..];
    }
  }

  lemma WherePermutes(a: seq<Run>, b: seq<Run>, keep: Run -> bool)
    requires Permuted(a, b)
    ensures Permuted(Where(a, keep), Where(b, keep))
    ensures Where(a, keep) == [] <==> Where(b, keep) == []
  {
    forall run: Run
      ensures multiset(Where(a, keep))[run] == multiset(Where(b, keep))[run]
    {
      WhereCounts(a, keep, run);
      WhereCounts(b, keep, run);
    }
    assert multiset(Where(a, keep)) == multiset(Where(b, keep));
    assert |multiset(Where(a, keep))| == |Where(a, keep)| && |multiset(Where(b, keep))| == |Where(b, keep)|;
  }

  lemma {:induction false} WhereIn(runs: seq<Run>, keep: Run -> bool, run: Run)
    ensures run in Where(runs, keep) <==> run in runs && keep(run)
    decreases |runs|
  {
    if runs != [] {
      WhereIn(runs[1..], keep, run);
      assert runs == [runs[0]] + runs[1..];
    }
  }

  lemma {:induction false} WhereDistinct(runs: seq<Run>, keep: Run -> bool)
    requires DistinctIds(runs)
    ensures DistinctIds(Where(runs, keep))
    decreases |runs|
  {
    if runs != [] {
      var rest := Where(runs[1..], keep);
      WhereDistinct(runs[1..], keep);
      forall i | 0 <= i < |rest|
        ensures rest[i].runId != runs[0].runId
      {
        WhereIn(runs[1..], keep, rest[i]);
        assert rest[i] in rest;
        var k :| 0 <= k < |runs[1..]| && runs[1..][k] == rest[i];
        assert runs[1..][k] == runs[k + 1];
      }
    }
  }

  // ----- sorting is independent of the order listed -----

  lemma PermutedDistinct(a: seq<Run>, b: seq<Run>)
    requires Permuted(a, b) && DistinctIds(a)
    ensures DistinctIds(b)
  {
    forall i, j | 0 <= i < j < |b|
      ensures b[i].runId != b[j].runId
    {
      if b[i].runId == b[j].runId {
        assert b[i] in multiset(a) && b[j] in multiset(a);
        assert b[i] in a && b[j] in a;
        assert b[i] == b[j];
        TwiceIn(b, i, j);
        OnceIn(a, b[i]);
      }
    }
  }

  lemma TwiceIn(runs: seq<Run>, i: nat, j: nat)
    requires i < j < |runs| && runs[i] == runs[j]
    ensures multiset(runs)[runs[i]] >= 2
  {
    assert runs == runs[..j] + [runs[j]] + runs[j + 1..];
    assert runs[..j][i] == runs[i];
    assert multiset(runs) == multiset(runs[..j]) + multiset{runs[j]} + multiset(runs[j + 1..]);
  }

  lemma {:induction false} OnceIn(runs: seq<Run>, run: Run)
    requires DistinctIds(runs)
    ensures multiset(runs)[run] <= 1
    decreases |runs|
  {
    if runs != [] {
      assert runs == [runs[0]] + runs[1..];
      OnceIn(runs[1..], run);
      if run == runs[0] {
        assert run !in runs[1..];
      }
    }
  }

  /** There is one way to put runs with distinct ids in order. */
  lemma {:induction false} SortedIsUnique(a: seq<Run>, b: seq<Run>)
    requires Sorted(a) && Sorted(b) && Permuted(a, b) && DistinctIds(a) && DistinctIds(b)
    ensures a == b
    decreases |a|
  {
    assert |multiset(a)| == |a| && |multiset(b)| == |b|;
    if a != [] {
      SameNewest(a, b);
      assert a == [a[0]] + a[1..] && b == [b[0]] + b[1..];
      assert multiset(a[1..]) == multiset(a) - multiset{a[0]};
      assert multiset(b[1..]) == multiset(b) - multiset{b[0]};
      hide Sorted;
      TailSorted(a);
      TailSorted(b);
      SortedIsUnique(a[1..], b[1..]);
    }
  }

  lemma TailSorted(runs: seq<Run>)
    requires runs != [] && Sorted(runs) && DistinctIds(runs)
    ensures Sorted(runs[1..]) && DistinctIds(runs[1..])
  {
  }

  lemma SameNewest(a: seq<Run>, b: seq<Run>)
    requires a != [] && b != [] && Sorted(a) && Sorted(b) && Permuted(a, b) && DistinctIds(a) && DistinctIds(b)
    ensures a[0] == b[0]
  {
    hide Newer;
    var x, y := a[0], b[0];
    assert y in multiset(a) && x in multiset(b);
    var i :| 0 <= i < |a| && a[i] == y;
    var j :| 0 <= j < |b| && b[j] == x;
    NewerIsTotal(x, y);
  }

  lemma NewestFirstPermutes(a: seq<Run>, b: seq<Run>)
    requires Permuted(a, b) && DistinctIds(a)
    ensures NewestFirst(a) == NewestFirst(b)
  {
    NewestFirstKeeps(a);
    NewestFirstKeeps(b);
    PermutedDistinct(a, b);
    PermutedDistinct(a, NewestFirst(a));
    PermutedDistinct(b, NewestFirst(b));
    SortedIsUnique(NewestFirst(a), NewestFirst(b));
  }

  // ----- the order of the listing -----

  predicate SameButProvenance(f: Finding, g: Finding) {
    && f.jobName == g.jobName && f.workflowName == g.workflowName && f.state == g.state
    && if f.detail.Evidence? && g.detail.Evidence? then f.detail.(provenance := g.detail.provenance) == g.detail
       else f.detail == g.detail
  }

  /** However the runs are listed, the state, the deciding run and what it said are the same. */
  lemma StateIgnoresOrder(workflows: map<string, string>, jobName: string, a: seq<Run>, b: seq<Run>, headSha: Option<string>)
    requires Permuted(a, b) && DistinctIds(a)
    ensures SameButProvenance(ClassifyGate(workflows, jobName, a, headSha), ClassifyGate(workflows, jobName, b, headSha))
    ensures jobName in workflows && Where(Candidates(workflows[jobName], headSha, a), IsAuthoritative) != [] ==>
      ClassifyGate(workflows, jobName, a, headSha) == ClassifyGate(workflows, jobName, b, headSha)
  {
    if jobName in workflows {
      var keep := (run: Run) => run.workflowName == workflows[jobName] && (headSha.None? || run.headSha == headSha.value);
      assert Candidates(workflows[jobName], headSha, a) == Where(a, keep);
      assert Candidates(workflows[jobName], headSha, b) == Where(b, keep);
      WherePermutes(a, b, keep);
      WhereDistinct(a, keep);
      var ca, cb := Where(a, keep), Where(b, keep);
      WherePermutes(ca, cb, IsAuthoritative);
      WhereDistinct(ca, IsAuthoritative);
      if ca != [] {
        NewestFirstPermutes(Considered(ca), Considered(cb));
      }
    }
  }

  /**
   The text names the event of the first run listed when there is no authoritative one, so the whole finding is the
   same for every listing exactly when that cannot show: an authoritative run, no run at all, or one event throughout.
   */
  ghost predicate OrderCannotShow(workflows: map<string, string>, jobName: string, runs: seq<Run>, headSha: Option<string>) {
    jobName in workflows ==>
      var candidates := Candidates(workflows[jobName], headSha, runs);
      Where(candidates, IsAuthoritative) != [] || forall r, q | r in candidates && q in candidates :: r.event == q.event
  }

  lemma FindingIgnoresOrderIff(workflows: map<string, string>, jobName: string, runs: seq<Run>, headSha: Option<string>)
    requires DistinctIds(runs)
    ensures (forall other | Permuted(runs, other) ::
              ClassifyGate(workflows, jobName, runs, headSha) == ClassifyGate(workflows, jobName, other, headSha))
            <==> OrderCannotShow(workflows, jobName, runs, headSha)
  {
    if OrderCannotShow(workflows, jobName, runs, headSha) {
      forall other | Permuted(runs, other)
        ensures ClassifyGate(workflows, jobName, runs, headSha) == ClassifyGate(workflows, jobName, other, headSha)
      {
        StateIgnoresOrder(workflows, jobName, runs, other, headSha);
        OneEventOneProvenance(workflows, jobName, runs, other, headSha);
      }
    } else {
      var other := OrderShows(workflows, jobName, runs, headSha);
    }
  }

  lemma OneEventOneProvenance(workflows: map<string, string>, jobName: string, a: seq<Run>, b: seq<Run>, headSha: Option<string>)
    requires Permuted(a, b) && OrderCannotShow(workflows, jobName, a, headSha)
    ensures jobName in workflows && Candidates(workflows[jobName], headSha, a) != [] ==>
      && Candidates(workflows[jobName], headSha, b) != []
      && ProvenanceOf(Candidates(workflows[jobName], headSha, a)) == ProvenanceOf(Candidates(workflows[jobName], headSha, b))
  {
    if jobName !in workflows || Candidates(workflows[jobName], headSha, a) == [] { return; }
    var keep := (run: Run) => run.workflowName == workflows[jobName] && (headSha.None? || run.headSha == headSha.value);
    var ca, cb := Where(a, keep), Where(b, keep);
    assert Candidates(workflows[jobName], headSha, a) == ca && Candidates(workflows[jobName], headSha, b) == cb;
    WherePermutes(a, b, keep);
    WherePermutes(ca, cb, IsAuthoritative);
    assert cb[0] in multiset(ca);
    assert ca[0] in ca && cb[0] in ca;
  }

  /** Listing another run first changes the text. */
  lemma OrderShows(workflows: map<string, string>, jobName: string, runs: seq<Run>, headSha: Option<string>) returns (other: seq<Run>)
    requires DistinctIds(runs) && !OrderCannotShow(workflows, jobName, runs, headSha)
    ensures Permuted(runs, other)
    ensures ClassifyGate(workflows, jobName, runs, headSha) != ClassifyGate(workflows, jobName, other, headSha)
  {
    var keep := (run: Run) => run.workflowName == workflows[jobName] && (headSha.None? || run.headSha == headSha.value);
    var candidates := Where(runs, keep);
    assert Candidates(workflows[jobName], headSha, runs) == candidates;
    var q :| q in candidates && q.event != candidates[0].event;
    WhereIn(runs, keep, q);
    var i :| 0 <= i < |runs| && runs[i] == q;
    other := [q] + runs[..i] + runs[i + 1..];
    assert runs == runs[..i] + [q] + runs[i + 1..];
    assert multiset(other) == multiset(runs);
    WherePermutes(runs, other, keep);
    WherePermutes(candidates, Where(other, keep), IsAuthoritative);
    assert Candidates(workflows[jobName], headSha, other) == Where(other, keep);
    assert Where(other, keep)[0] == q;
    ProvenanceIsShown(workflows, jobName, runs, headSha);
    ProvenanceIsShown(workflows, jobName, other, headSha);
    hide ClassifyGate;
  }

  lemma ProvenanceIsShown(workflows: map<string, string>, jobName: string, runs: seq<Run>, headSha: Option<string>)
    requires jobName in workflows && Candidates(workflows[jobName], headSha, runs) != []
    ensures var detail := ClassifyGate(workflows, jobName, runs, headSha).detail;
      detail.Evidence? && detail.provenance == ProvenanceOf(Candidates(workflows[jobName], headSha, runs))
  {
    hide Candidates, Considered, NewestFirst, Deciding, ProvenanceOf, RunState;
  }

  // ----- runs that are not authoritative -----

  /** Once there is an authoritative run, scheduled and dispatched ones are not heard, wherever they are listed. */
  lemma OthersAreNotHeard(workflows: map<string, string>, jobName: string, a: seq<Run>, b: seq<Run>, headSha: Option<string>)
    requires Where(a, IsAuthoritative) == Where(b, IsAuthoritative)
    requires jobName in workflows && Where(Candidates(workflows[jobName], headSha, a), IsAuthoritative) != []
    ensures ClassifyGate(workflows, jobName, a, headSha) == ClassifyGate(workflows, jobName, b, headSha)
  {
    var keep := (run: Run) => run.workflowName == workflows[jobName] && (headSha.None? || run.headSha == headSha.value);
    assert Candidates(workflows[jobName], headSha, a) == Where(a, keep);
    assert Candidates(workflows[jobName], headSha, b) == Where(b, keep);
    WhereCommutes(a, keep, IsAuthoritative);
    WhereCommutes(b, keep, IsAuthoritative);
  }

  lemma {:induction false} WhereCommutes(runs: seq<Run>, p: Run -> bool, q: Run -> bool)
    ensures Where(Where(runs, p), q) == Where(Where(runs, q), p)
    decreases |runs|
  {
    if runs != [] {
      WhereCommutes(runs[1..], p, q);
      WhereHead(runs, p, q);
      WhereHead(runs, q, p);
    }
  }

  lemma WhereHead(runs: seq<Run>, p: Run -> bool, q: Run -> bool)
    requires runs != []
    ensures Where(Where(runs, p), q)
            == (if p(runs[0]) && q(runs[0]) then [runs[0]] else []) + Where(Where(runs[1..], p), q)
  {
    var rest := Where(runs[1..], p);
    assert ([runs[0]] + rest)[1..] == rest;
    assert [] + rest == rest;
  }

  // ----- the newest run -----

  /** The newest considered run: no other is newer. */
  lemma NewestIsNewest(runs: seq<Run>, run: Run)
    requires run in runs
    ensures NewestFirst(runs) != [] && NewestFirst(runs)[0] in runs && !Newer(run, NewestFirst(runs)[0])
  {
    NewestFirstKeeps(runs);
    var sorted := NewestFirst(runs);
    assert run in multiset(sorted);
    assert sorted[0] in multiset(runs);
    var i :| 0 <= i < |sorted| && sorted[i] == run;
    NewerIsTotal(run, run);
  }
}
