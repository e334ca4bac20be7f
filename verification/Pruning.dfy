/** Why sorting the finished jobs by age and removing a prefix is a correct prune. */
module Pruning {
  import opened Types
  import opened JobTable

  /** The pair `prune_jobs` collects for a finished job. */
  datatype Candidate = Candidate(createdAtMs: nat, id: JobId)

  function CandidatesOf(jobs: Table, among: set<JobId>): set<Candidate>
    requires among <= jobs.Keys
  {
    set id | id in among && IsTerminal(jobs[id].status) :: Candidate(jobs[id].createdAtMs, id)
  }

  /** One more job looked at: one more candidate when it is finished, otherwise none. */
  lemma CandidatesOfOneMore(jobs: Table, seen: set<JobId>, id: JobId)
    requires seen <= jobs.Keys && id in jobs && id !in seen
    ensures multiset(CandidatesOf(jobs, seen + {id})) == multiset(CandidatesOf(jobs, seen)) +
      if IsTerminal(jobs[id].status) then multiset{Candidate(jobs[id].createdAtMs, id)} else multiset{}
  {
    var before, after := CandidatesOf(jobs, seen), CandidatesOf(jobs, seen + {id});
    var c := Candidate(jobs[id].createdAtMs, id);
    assert c !in before;
    assert after == if IsTerminal(jobs[id].status) then before + {c} else before;
  }

  ghost predicate SortedByAge(cs: seq<Candidate>) {
    forall i, j :: 0 <= i < j < |cs| ==> cs[i].createdAtMs <= cs[j].createdAtMs
  }

  // `sort_by_key`, as the library function it is.

  function InsertByAge(c: Candidate, cs: seq<Candidate>): seq<Candidate> {
    if cs == [] then [c]
    else if c.createdAtMs <= cs[0].createdAtMs then [c] + cs
    else [cs[0]] + InsertByAge(c, cs[1..])
  }

  function SortByAge(cs: seq<Candidate>): seq<Candidate> {
    if cs == [] then [] else InsertByAge(cs[0], SortByAge(cs[1..]))
  }

  lemma {:induction false} InsertKeepsElements(c: Candidate, cs: seq<Candidate>)
    ensures multiset(InsertByAge(c, cs)) == multiset(cs) + multiset{c}
  {
    if cs != [] && c.createdAtMs > cs[0].createdAtMs {
      InsertKeepsElements(c, cs[1..]);
      assert cs == [cs[0]] + cs[1..];
    }
  }

  lemma PrependSorted(head: Candidate, rest: seq<Candidate>)
    requires SortedByAge(rest) && forall x :: x in rest ==> head.createdAtMs <= x.createdAtMs
    ensures SortedByAge([head] + rest)
  {
    var all := [head] + rest;
    forall i, j | 0 <= i < j < |all| ensures all[i].createdAtMs <= all[j].createdAtMs {
      assert all[j] == rest[j - 1];
    }
  }

  lemma {:induction false} InsertKeepsSorted(c: Candidate, cs: seq<Candidate>)
    requires SortedByAge(cs)
    ensures SortedByAge(InsertByAge(c, cs))
  {
    if cs == [] {
    } else if c.createdAtMs <= cs[0].createdAtMs {
      PrependSorted(c, cs);
    } else {
      var rest := InsertByAge(c, cs[1..]);
      InsertKeepsSorted(c, cs[1..]);
      InsertKeepsElements(c, cs[1..]);
      forall x | x in rest ensures cs[0].createdAtMs <= x.createdAtMs {
        assert x in multiset(rest);
        assert x == c || x in cs[1..];
      }
      PrependSorted(cs[0], rest);
    }
  }

  lemma {:induction false} SortIsSorted(cs: seq<Candidate>)
    ensures SortedByAge(SortByAge(cs)) && multiset(SortByAge(cs)) == multiset(cs)
  {
    if cs != [] {
      SortIsSorted(cs[1..]);
      InsertKeepsSorted(cs[0], SortByAge(cs[1..]));
      InsertKeepsElements(cs[0], SortByAge(cs[1..]));
      assert cs == [cs[0]] + cs[1..];
    }
  }

  function IdsOf(cs: seq<Candidate>): set<JobId> {
    set c | c in cs :: c.id
  }

  /** A sequence with the elements of a set, each once. */
  lemma DistinctListing<T>(xs: seq<T>, s: set<T>)
    requires multiset(xs) == multiset(s)
    ensures |xs| == |s| && (forall x :: x in xs <==> x in s)
    ensures forall i, j :: 0 <= i < j < |xs| ==> xs[i] != xs[j]
  {
    assert |multiset(xs)| == |multiset(s)|;
    forall x ensures x in xs <==> x in s {
      assert x in xs <==> x in multiset(xs);
    }
    forall i, j | 0 <= i < j < |xs| ensures xs[i] != xs[j] {
      assert xs == xs[..j] + [xs[j]] + xs[j + 1..];
      assert xs[i] in xs[..j];
      assert multiset(xs) == multiset(xs[..j]) + multiset{xs[j]} + multiset(xs[j + 1..]);
      assert multiset(s)[xs[j]] <= 1;
    }
  }

  lemma {:induction false} ListedIds(cs: seq<Candidate>)
    requires forall i, j :: 0 <= i < j < |cs| ==> cs[i].id != cs[j].id
    ensures |IdsOf(cs)| == |cs|
  {
    if cs != [] {
      var n := |cs| - 1;
      assert cs == cs[..n] + [cs[n]];
      assert IdsOf(cs) == IdsOf(cs[..n]) + {cs[n].id};
      ListedIds(cs[..n]);
    }
  }

  lemma CandidatesSize(jobs: Table)
    ensures |CandidatesOf(jobs, jobs.Keys)| + |ActiveIds(jobs)| == |jobs|
  {
    var cs := CandidatesOf(jobs, jobs.Keys);
    forall id | id in FinishedIds(jobs) ensures id in (set c | c in cs :: c.id) {
      assert Candidate(jobs[id].createdAtMs, id) in cs;
    }
    ImageSize(cs, FinishedIds(jobs));
    assert jobs.Keys == FinishedIds(jobs) + ActiveIds(jobs) && FinishedIds(jobs) !! ActiveIds(jobs);
    assert |jobs.Keys| == |jobs|;
  }

  lemma {:induction false} ImageSize(cs: set<Candidate>, ids: set<JobId>)
    requires ids == set c | c in cs :: c.id
    requires forall a, b :: a in cs && b in cs && a.id == b.id ==> a == b
    ensures |cs| == |ids|
  {
    if cs != {} {
      var c :| c in cs;
      forall id ensures id in ids - {c.id} <==> id in (set x | x in cs - {c} :: x.id) {
      }
      ImageSize(cs - {c}, ids - {c.id});
    }
  }

  /** Removing a long enough prefix of the finished jobs in order of age prunes the table. */
  lemma PrefixIsPruned(jobs: Table, cs: seq<Candidate>, n: nat, maxJobs: nat)
    requires |jobs| > maxJobs
    requires SortedByAge(cs) && multiset(cs) == multiset(CandidatesOf(jobs, jobs.Keys))
    requires n == if |jobs| - maxJobs <= |cs| then |jobs| - maxJobs else |cs|
    ensures IsPruned(jobs, jobs - IdsOf(cs[..n]), maxJobs)
  {
    var kept := jobs - IdsOf(cs[..n]);
    DistinctListing(cs, CandidatesOf(jobs, jobs.Keys));
    forall c | c in cs
      ensures c.id in jobs && IsTerminal(jobs[c.id].status) && c.createdAtMs == jobs[c.id].createdAtMs
    {
      assert c in CandidatesOf(jobs, jobs.Keys);
    }
    forall i, j | 0 <= i < j < |cs| ensures cs[i].id != cs[j].id {
      assert cs[i] in cs && cs[j] in cs;
    }
    ListedIds(cs[..n]);
    CandidatesSize(jobs);
    PrefixSize(jobs, IdsOf(cs[..n]));
    PrefixIsOlder(jobs, cs, n);
  }

  /** Every finished job outside the prefix is no older than any inside it. */
  lemma PrefixIsOlder(jobs: Table, cs: seq<Candidate>, n: nat)
    requires n <= |cs| && SortedByAge(cs)
    requires forall c :: c in cs <==> c in CandidatesOf(jobs, jobs.Keys)
    ensures forall gone, stays ::
      (gone in jobs && gone in IdsOf(cs[..n]) && stays in jobs && stays !in IdsOf(cs[..n])
       && IsTerminal(jobs[stays].status)) ==> jobs[gone].createdAtMs <= jobs[stays].createdAtMs
  {
    forall gone, stays | gone in jobs && gone in IdsOf(cs[..n]) && stays in jobs && stays !in IdsOf(cs[..n])
        && IsTerminal(jobs[stays].status)
      ensures jobs[gone].createdAtMs <= jobs[stays].createdAtMs
    {
      assert Candidate(jobs[stays].createdAtMs, stays) in CandidatesOf(jobs, jobs.Keys);
      var i :| 0 <= i < n && cs[..n][i].id == gone;
      var j: nat :| j < |cs| && cs[j] == Candidate(jobs[stays].createdAtMs, stays);
      assert cs[i] in cs && cs[i] in CandidatesOf(jobs, jobs.Keys);
      PrefixMember(cs, n, j);
    }
  }

  lemma PrefixMember(cs: seq<Candidate>, n: nat, j: nat)
    requires j < |cs| && n <= |cs|
    ensures j < n ==> cs[j].id in IdsOf(cs[..n])
  {
    assert j < n ==> cs[..n][j] == cs[j];
  }

  lemma PrefixSize(jobs: Table, gone: set<JobId>)
    requires gone <= jobs.Keys
    ensures |jobs - gone| == |jobs| - |gone|
  {
    assert (jobs - gone).Keys == jobs.Keys - gone;
    assert |jobs.Keys| == |jobs| && |(jobs - gone).Keys| == |jobs - gone|;
  }
}
