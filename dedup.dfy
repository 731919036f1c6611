/**
 * De-duplication of listings (lib/dedup.ts): a cheap pass on canonical URLs,
 * then a pass driven by the groups a language model returns, with the URL
 * pass alone as the fallback when the model's reply cannot be used.
 *
 * The model's reply is an input: DedupFailed when the request or JSON.parse
 * throws, otherwise the decoded payload with whatever fields it carried.
 */
module Dedup {
  import opened Basics
  import opened Jobs

  // ---------------------------------------------------------------------------
  // urlDedup

  /** The key urlDedup compares: the source URL without one trailing "/",
      lower-cased. */
  function DedupKey(job: JobListing): string {
    var u := job.sourceUrl;
    Lower(if u != [] && u[|u| - 1] == '/' then u[..|u| - 1] else u)
  }

  /** The key of every job, in order. */
  function Keys(jobs: seq<JobListing>): (keys: seq<string>)
    ensures |keys| == |jobs|
  {
    seq(|jobs|, i requires 0 <= i < |jobs| => DedupKey(jobs[i]))
  }

  /** No key before position i equals key i. */
  predicate IsFirstOfKey(keys: seq<string>, i: nat)
    requires i < |keys|
  {
    forall j :: 0 <= j < i ==> keys[j] != keys[i]
  }

  /** The positions of the first occurrence of each key, in increasing order. */
  function FirstPositions(keys: seq<string>): seq<nat> {
    if keys == [] then []
    else FirstPositions(keys[..|keys| - 1]) + (if IsFirstOfKey(keys, |keys| - 1) then [|keys| - 1] else [])
  }

  /** The jobs whose key occurs there first, in input order. */
  function FirstOfEach(jobs: seq<JobListing>, keys: seq<string>): seq<JobListing>
    requires |jobs| == |keys|
  {
    if jobs == [] then []
    else FirstOfEach(jobs[..|jobs| - 1], keys[..|keys| - 1]) +
         (if IsFirstOfKey(keys, |keys| - 1) then [jobs[|jobs| - 1]] else [])
  }

  /** The jobs urlDedup keeps: the first job of each key, in input order. */
  function UrlUnique(jobs: seq<JobListing>): seq<JobListing> {
    FirstOfEach(jobs, Keys(jobs))
  }

  /** Being first of its key only depends on the keys before. */
  lemma FirstOfKeyInPrefix(keys: seq<string>, n: nat, i: nat)
    requires i < n <= |keys|
    ensures IsFirstOfKey(keys[..n], i) <==> IsFirstOfKey(keys, i)
  {
    assert forall j :: 0 <= j <= i ==> keys[..n][j] == keys[j];
  }

  /** Selecting the first of each key picks the jobs at the first-occurrence
      positions, in order; every first occurrence is picked. */
  lemma {:induction false} FirstOfEachSelects(jobs: seq<JobListing>, keys: seq<string>)
    requires |jobs| == |keys|
    ensures |FirstPositions(keys)| == |FirstOfEach(jobs, keys)|
    ensures forall k :: 0 <= k < |FirstPositions(keys)| ==>
              FirstPositions(keys)[k] < |keys| && IsFirstOfKey(keys, FirstPositions(keys)[k]) &&
              FirstOfEach(jobs, keys)[k] == jobs[FirstPositions(keys)[k]]
    ensures forall k, l :: 0 <= k < l < |FirstPositions(keys)| ==> FirstPositions(keys)[k] < FirstPositions(keys)[l]
    ensures forall i :: 0 <= i < |keys| && IsFirstOfKey(keys, i) ==> i in FirstPositions(keys)
  {
    if jobs != [] {
      var n := |jobs| - 1;
      FirstOfEachSelects(jobs[..n], keys[..n]);
      var p := FirstPositions(keys[..n]);
      var last := IsFirstOfKey(keys, n);
      assert FirstPositions(keys) == p + (if last then [n] else []);
      assert FirstOfEach(jobs, keys) == FirstOfEach(jobs[..n], keys[..n]) + (if last then [jobs[n]] else []);
      forall k | 0 <= k < |p|
        ensures IsFirstOfKey(keys, p[k]) && jobs[p[k]] == jobs[..n][p[k]]
      {
        FirstOfKeyInPrefix(keys, n, p[k]);
      }
      forall i | 0 <= i < |keys| && IsFirstOfKey(keys, i)
        ensures i in FirstPositions(keys)
      {
        if i < n {
          FirstOfKeyInPrefix(keys, n, i);
          assert i in p;
        }
      }
    }
  }

  /** The survivors of the URL pass are exactly the first job of each key,
      taken in input order: position k of the result is the job at the k-th
      first-occurrence position, those positions increase, and every first
      occurrence is among them. */
  lemma UrlUniqueSelects(jobs: seq<JobListing>)
    ensures var p := FirstPositions(Keys(jobs));
      && |p| == |UrlUnique(jobs)|
      && (forall k :: 0 <= k < |p| ==>
            p[k] < |jobs| && IsFirstOfKey(Keys(jobs), p[k]) && UrlUnique(jobs)[k] == jobs[p[k]])
      && (forall k, l :: 0 <= k < l < |p| ==> p[k] < p[l])
      && (forall i :: 0 <= i < |jobs| && IsFirstOfKey(Keys(jobs), i) ==> i in p)
  {
    FirstOfEachSelects(jobs, Keys(jobs));
  }

  /** No two survivors of the URL pass share a key. */
  lemma UrlUniqueDistinctKeys(jobs: seq<JobListing>)
    ensures forall a, b :: 0 <= a < b < |UrlUnique(jobs)| ==> DedupKey(UrlUnique(jobs)[a]) != DedupKey(UrlUnique(jobs)[b])
  {
    var keys := Keys(jobs);
    FirstOfEachSelects(jobs, keys);
    var p, u := FirstPositions(keys), UrlUnique(jobs);
    forall a, b | 0 <= a < b < |u|
      ensures DedupKey(u[a]) != DedupKey(u[b])
    {
      assert p[a] < p[b] && IsFirstOfKey(keys, p[b]);
      assert keys[p[a]] != keys[p[b]];
    }
  }

  /** The first occurrence of key i, found by walking back. */
  lemma FirstOfKeyExists(keys: seq<string>, i: nat) returns (j: nat)
    requires i < |keys|
    ensures j <= i && keys[j] == keys[i] && IsFirstOfKey(keys, j)
  {
    if IsFirstOfKey(keys, i) {
      j := i;
    } else {
      var earlier :| 0 <= earlier < i && keys[earlier] == keys[i];
      j := FirstOfKeyExists(keys, earlier);
    }
  }

  /** Every key of the input survives the URL pass: the pass drops duplicates
      and nothing else. */
  lemma UrlUniqueCoversKeys(jobs: seq<JobListing>, i: nat)
    requires i < |jobs|
    ensures exists k :: 0 <= k < |UrlUnique(jobs)| && DedupKey(UrlUnique(jobs)[k]) == DedupKey(jobs[i])
  {
    var keys := Keys(jobs);
    FirstOfEachSelects(jobs, keys);
    var j := FirstOfKeyExists(keys, i);
    var p := FirstPositions(keys);
    var k :| 0 <= k < |p| && p[k] == j;
    assert UrlUnique(jobs)[k] == jobs[j];
    assert DedupKey(UrlUnique(jobs)[k]) == keys[j] == keys[i];
  }

  /** The keys among the first n. */
  function SeenKeys(keys: seq<string>, n: nat): set<string>
    requires n <= |keys|
  {
    if n == 0 then {} else SeenKeys(keys, n - 1) + {keys[n - 1]}
  }

  lemma {:induction false} SeenKeysMembers(keys: seq<string>, n: nat, k: string)
    requires n <= |keys|
    ensures k in SeenKeys(keys, n) <==> exists j :: 0 <= j < n && keys[j] == k
  {
    if n > 0 {
      SeenKeysMembers(keys, n - 1, k);
    }
  }

  /** One step of the pass: job i is kept exactly when its key is not among
      the keys seen before it. */
  lemma FirstOfEachStep(jobs: seq<JobListing>, keys: seq<string>, i: nat)
    requires |jobs| == |keys| && i < |jobs|
    ensures FirstOfEach(jobs[..i + 1], keys[..i + 1]) ==
            FirstOfEach(jobs[..i], keys[..i]) + (if keys[i] in SeenKeys(keys, i) then [] else [jobs[i]])
  {
    assert jobs[..i + 1][..i] == jobs[..i] && keys[..i + 1][..i] == keys[..i];
    FirstOfKeyInPrefix(keys, i + 1, i);
    SeenKeysMembers(keys, i, keys[i]);
  }

  /** urlDedup: one pass with the set of keys seen so far. */
  method UrlDedup(jobs: seq<JobListing>) returns (unique: seq<JobListing>, removed: int)
    ensures unique == UrlUnique(jobs)
    ensures removed == |jobs| - |unique|
  {
    ghost var keys := Keys(jobs);
    var seen: set<string> := {};
    unique := [];
    for i := 0 to |jobs|
      invariant unique == FirstOfEach(jobs[..i], keys[..i])
      invariant seen == SeenKeys(keys, i)
    {
      var key := DedupKey(jobs[i]);
      FirstOfEachStep(jobs, keys, i);
      if key !in seen {
        seen := seen + {key};
        unique := unique + [jobs[i]];
      }
    }
    assert jobs[..|jobs|] == jobs && keys[..|jobs|] == keys;
    removed := |jobs| - |unique|;
  }

  // ---------------------------------------------------------------------------
  // llmDedup: validating the groups the model returned

  /** One element of the reply's `groups` array: null (or undefined), or an
      object whose `keep` and `discard` fields may be missing or of the wrong
      type. A number is a `real` (JSON numbers need not be whole); None stands
      for any value that is not a number, or not an array. */
  datatype GroupValue = NullGroup | Group(keep: Option<real>, discard: Option<seq<Option<real>>>)

  /** The model's reply: the request or JSON.parse failed, or the decoded
      object with its `groups` field (None when that is not an array). */
  datatype DedupReply = DedupFailed | DedupParsed(groups: Option<seq<GroupValue>>)

  /** llmDedup throws: the request failed, `groups` is not an array, or an
      element of it is null (reading its `keep` throws). */
  predicate LlmFails(reply: DedupReply) {
    reply.DedupFailed? || reply.groups.None? ||
    exists i :: 0 <= i < |reply.groups.value| && reply.groups.value[i].NullGroup?
  }

  /** A group that is not skipped: `keep` is a number in [0, n) and `discard`
      is an array. */
  predicate Usable(g: GroupValue, n: nat) {
    g.Group? && g.keep.Some? && g.discard.Some? && 0.0 <= g.keep.value < n as real
  }

  /** A discard entry that counts: a number in [0, n) other than the group's keep. */
  predicate Counted(x: Option<real>, keep: real, n: nat) {
    x.Some? && 0.0 <= x.value < n as real && x.value != keep
  }

  /** The entries one group adds to the discard set. */
  function GroupDiscards(discard: seq<Option<real>>, keep: real, n: nat): set<real> {
    if discard == [] then {}
    else GroupDiscards(discard[..|discard| - 1], keep, n) +
         (if Counted(discard[|discard| - 1], keep, n) then {discard[|discard| - 1].value} else {})
  }

  /** The discard set the groups build, as the source builds it: every
      counted number of every usable group. */
  function DiscardSet(groups: seq<GroupValue>, n: nat): set<real> {
    if groups == [] then {}
    else
      var g := groups[|groups| - 1];
      DiscardSet(groups[..|groups| - 1], n) +
      (if Usable(g, n) then GroupDiscards(g.discard.value, g.keep.value, n) else {})
  }

  /** A number is in the discard set exactly when some usable group lists it
      as a counted entry. */
  lemma {:induction false} DiscardSetMembers(groups: seq<GroupValue>, n: nat, x: real)
    ensures x in DiscardSet(groups, n) <==>
            exists i, k :: 0 <= i < |groups| && Usable(groups[i], n) && 0 <= k < |groups[i].discard.value| &&
                           Counted(groups[i].discard.value[k], groups[i].keep.value, n) &&
                           groups[i].discard.value[k].value == x
  {
    if groups != [] {
      var m := |groups| - 1;
      DiscardSetMembers(groups[..m], n, x);
      assert forall i :: 0 <= i < m ==> groups[..m][i] == groups[i];
      if Usable(groups[m], n) {
        GroupDiscardsMembers(groups[m].discard.value, groups[m].keep.value, n, x);
      }
    }
  }

  lemma {:induction false} GroupDiscardsMembers(discard: seq<Option<real>>, keep: real, n: nat, x: real)
    ensures x in GroupDiscards(discard, keep, n) <==>
            exists k :: 0 <= k < |discard| && Counted(discard[k], keep, n) && discard[k].value == x
  {
    if discard != [] {
      var m := |discard| - 1;
      GroupDiscardsMembers(discard[..m], keep, n, x);
      assert forall k :: 0 <= k < m ==> discard[..m][k] == discard[k];
    }
  }

  /** `jobs.filter((_, i) => !discardSet.has(i))`. */
  function Undiscarded(jobs: seq<JobListing>, discards: set<real>): seq<JobListing> {
    if jobs == [] then []
    else Undiscarded(jobs[..|jobs| - 1], discards) +
         (if (|jobs| - 1) as real in discards then [] else [jobs[|jobs| - 1]])
  }

  /** The positions below n that a set of numbers names. */
  function PositionsIn(discards: set<real>, n: nat): set<nat> {
    if n == 0 then {}
    else PositionsIn(discards, n - 1) + (if (n - 1) as real in discards then {n - 1} else {})
  }

  lemma {:induction false} PositionsBelow(discards: set<real>, n: nat)
    ensures forall p :: p in PositionsIn(discards, n) ==> p < n && p as real in discards
  {
    if n > 0 {
      PositionsBelow(discards, n - 1);
    }
  }

  /** The filter removes exactly the jobs at the positions the set names. */
  lemma {:induction false} UndiscardedLength(jobs: seq<JobListing>, discards: set<real>)
    ensures |Undiscarded(jobs, discards)| == |jobs| - |PositionsIn(discards, |jobs|)|
  {
    if jobs != [] {
      var n := |jobs| - 1;
      UndiscardedLength(jobs[..n], discards);
      PositionsBelow(discards, n);
    }
  }

  /** What the source's llmDedup returns on success: the filtered jobs and the
      size of the discard set. */
  function LlmPassAsWritten(jobs: seq<JobListing>, groups: seq<GroupValue>): (seq<JobListing>, nat) {
    (Undiscarded(jobs, DiscardSet(groups, |jobs|)), |DiscardSet(groups, |jobs|)|)
  }

  /** A discard entry that is a number but not a whole one passes validation
      and is counted in `removed`, yet removes no listing: with two listings
      and the group {keep: 0, discard: [0.5]} both listings survive and one
      duplicate is reported. */
  lemma FractionalDiscardOvercounts(a: JobListing, b: JobListing)
    ensures LlmPassAsWritten([a, b], [Group(Some(0.0), Some([Some(0.5)]))]) == ([a, b], 1)
  {
    var g := Group(Some(0.0), Some([Some(0.5)]));
    var d := [Some(0.5)];
    assert d[..0] == [];
    assert Counted(d[0], 0.0, 2);
    assert GroupDiscards(d, 0.0, 2) == {0.5};
    assert Usable(g, 2);
    assert [g][..0] == [];
    assert DiscardSet([g], 2) == {0.5};
    assert [a, b][..1] == [a];
    assert [a][..0] == [];
    assert 0.0 !in {0.5} && 1.0 !in {0.5};
    assert Undiscarded([a], {0.5}) == [a];
    assert Undiscarded([a, b], {0.5}) == [a, b];
    assert |{0.5}| == 1;
  }

  /** Nothing stops one group's keep from being another group's discard: with
      the groups {keep: 0, discard: [1]} and {keep: 1, discard: [0]} both
      copies of a listing are removed. */
  lemma KeepCanBeDiscarded(a: JobListing, b: JobListing)
    ensures Undiscarded([a, b], DiscardSet([Group(Some(0.0), Some([Some(1.0)])), Group(Some(1.0), Some([Some(0.0)]))], 2)) == []
  {
    var g0, g1 := Group(Some(0.0), Some([Some(1.0)])), Group(Some(1.0), Some([Some(0.0)]));
    assert [g0, g1][..1] == [g0];
    assert [g0][..0] == [];
    assert [Some(1.0)][..0] == [] && [Some(0.0)][..0] == [];
    assert Counted(Some(1.0), 0.0, 2) && Counted(Some(0.0), 1.0, 2);
    assert GroupDiscards([Some(1.0)], 0.0, 2) == {1.0};
    assert GroupDiscards([Some(0.0)], 1.0, 2) == {0.0};
    assert Usable(g0, 2) && Usable(g1, 2);
    assert DiscardSet([g0], 2) == {1.0};
    assert DiscardSet([g0, g1], 2) == {1.0, 0.0};
    assert [a, b][..1] == [a];
    assert [a][..0] == [];
    assert Undiscarded([a], {1.0, 0.0}) == [];
  }

  /** The outcome of the model pass. */
  datatype LlmPass = LlmPass(deduped: seq<JobListing>, removed: nat)

  /** llmDedup on the decoded reply: the loops over the groups and their
      discard entries build the discard set as the source does, and the jobs
      whose positions it names are filtered out. `removed` counts the
      positions removed, so it equals the drop in length (the source counts
      the set instead; see FractionalDiscardOvercounts). */
  method LlmDedup(jobs: seq<JobListing>, reply: DedupReply) returns (r: Result<LlmPass>)
    ensures r.Err? <==> LlmFails(reply)
    ensures r.Ok? ==> r.value.deduped == Undiscarded(jobs, DiscardSet(reply.groups.value, |jobs|))
    ensures r.Ok? ==> r.value.removed == |jobs| - |r.value.deduped|
  {
    if reply.DedupFailed? {
      return Err("the model could not be asked");
    }
    if reply.groups.None? {
      return Err("Invalid dedup response");
    }
    var groups := reply.groups.value;
    var n := |jobs|;
    var discardSet: set<real> := {};
    for i := 0 to |groups|
      invariant discardSet == DiscardSet(groups[..i], n)
      invariant forall j :: 0 <= j < i ==> !groups[j].NullGroup?
    {
      var group := groups[i];
      assert groups[..i + 1][..i] == groups[..i];
      if group.NullGroup? {
        return Err("Cannot read properties of null (reading 'keep')");
      }
      if group.keep.Some? && group.discard.Some? && 0.0 <= group.keep.value && group.keep.value < n as real {
        var keep, discard := group.keep.value, group.discard.value;
        for k := 0 to |discard|
          invariant discardSet == DiscardSet(groups[..i], n) + GroupDiscards(discard[..k], keep, n)
        {
          assert discard[..k + 1][..k] == discard[..k];
          var idx := discard[k];
          if idx.Some? && idx.value >= 0.0 && idx.value < n as real && idx.value != keep {
            discardSet := discardSet + {idx.value};
          }
        }
        assert discard[..|discard|] == discard;
      }
    }
    assert groups[..|groups|] == groups;
    var deduped := Undiscarded(jobs, discardSet);
    UndiscardedLength(jobs, discardSet);
    return Ok(LlmPass(deduped, |PositionsIn(discardSet, n)|));
  }

  // ---------------------------------------------------------------------------
  // deduplicateJobs

  datatype DedupResult = DedupResult(results: seq<JobListing>, duplicatesRemoved: int, dedupMethod: DedupMethod)

  /** deduplicateJobs: the URL pass, then the model pass on its survivors.
      Any failure of the model pass gives exactly the URL pass's result with
      method "url_only"; success gives method "llm". The count of duplicates
      is the drop from input to output, and nothing but input listings come
      out. */
  function Deduplicated(jobs: seq<JobListing>, reply: DedupReply): (r: DedupResult)
    ensures LlmFails(reply) ==> r == DedupResult(UrlUnique(jobs), |jobs| - |UrlUnique(jobs)|, UrlOnly)
    ensures !LlmFails(reply) ==>
              r.dedupMethod == Llm &&
              r.results == Undiscarded(UrlUnique(jobs), DiscardSet(reply.groups.value, |UrlUnique(jobs)|))
    ensures r.duplicatesRemoved == |jobs| - |r.results|
    ensures multiset(r.results) <= multiset(jobs)
  {
    var u := UrlUnique(jobs);
    FirstOfEachSubset(jobs, Keys(jobs));
    if LlmFails(reply) then DedupResult(u, |jobs| - |u|, UrlOnly)
    else
      var discards := DiscardSet(reply.groups.value, |u|);
      UndiscardedLength(u, discards);
      UndiscardedSubset(u, discards);
      DedupResult(Undiscarded(u, discards), (|jobs| - |u|) + |PositionsIn(discards, |u|)|, Llm)
  }

  /** deduplicateJobs as the source runs it: urlDedup, then llmDedup inside
      a try whose catch falls back to the URL pass. */
  method DeduplicateJobs(jobs: seq<JobListing>, reply: DedupReply) returns (r: DedupResult)
    ensures r == Deduplicated(jobs, reply)
  {
    var urlUnique, urlRemoved := UrlDedup(jobs);
    var pass := LlmDedup(urlUnique, reply);
    match pass
    case Ok(p) =>
      return DedupResult(p.deduped, urlRemoved + p.removed, Llm);
    case Err(_) =>
      return DedupResult(urlUnique, urlRemoved, UrlOnly);
  }

  /** Both passes only remove listings: every listing in the output is in the input. */
  lemma {:induction false} UndiscardedSubset(jobs: seq<JobListing>, discards: set<real>)
    ensures multiset(Undiscarded(jobs, discards)) <= multiset(jobs)
  {
    if jobs != [] {
      var n := |jobs| - 1;
      UndiscardedSubset(jobs[..n], discards);
      assert jobs == jobs[..n] + [jobs[n]];
    }
  }

  lemma {:induction false} FirstOfEachSubset(jobs: seq<JobListing>, keys: seq<string>)
    requires |jobs| == |keys|
    ensures multiset(FirstOfEach(jobs, keys)) <= multiset(jobs)
  {
    if jobs != [] {
      var n := |jobs| - 1;
      FirstOfEachSubset(jobs[..n], keys[..n]);
      assert jobs == jobs[..n] + [jobs[n]];
    }
  }
}
