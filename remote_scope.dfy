/**
 * Remote-scope classification (lib/remote-scope.ts): a pattern pass marks
 * listings that are obviously limited to some countries, and the listings it
 * cannot decide are sent, in one batch, to a language model whose per-listing
 * verdicts are copied onto a copy of the list.
 */
module RemoteScope {
  import opened Basics
  import opened Host
  import opened Jobs

  /** Phrases that mark a listing as limited to some countries (all
      case-insensitive). */
  const RESTRICTED_PATTERNS: seq<Regex> := [
    Regex(@"\bus[- ]only\b", "i"),
    Regex(@"\bunited states only\b", "i"),
    Regex(@"\bmust be based in\b", "i"),
    Regex(@"\bmust reside in\b", "i"),
    Regex(@"\busa only\b", "i"),
    Regex(@"\buk only\b", "i"),
    Regex(@"\beu only\b", "i"),
    Regex(@"\bus[-\s]based\b", "i"),
    Regex(@"\bauthori[sz]ed to work in\b", "i")
  ]

  /** The text the patterns are tried on: title, location and description,
      separated by single spaces. */
  function ScopeText(job: JobListing): string {
    job.title + " " + job.location + " " + job.description
  }

  /** The verdict of the pattern pass: country-restricted when some pattern
      matches the listing's text, undecided (None) otherwise. */
  function HeuristicVerdict(e: Engine, job: JobListing): (r: Option<RemoteScope>)
    ensures r.Some? <==> exists k :: 0 <= k < |RESTRICTED_PATTERNS| && Test(e, RESTRICTED_PATTERNS[k], ScopeText(job))
    ensures r.Some? ==> r.value == CountryRestricted
  {
    if AnyMatch(e, RESTRICTED_PATTERNS, ScopeText(job)) then Some(CountryRestricted) else None
  }

  /** heuristicScope: tries the patterns in order and stops at the first match. */
  method HeuristicScope(e: Engine, job: JobListing) returns (r: Option<RemoteScope>)
    ensures r == HeuristicVerdict(e, job)
  {
    var text := ScopeText(job);
    for k := 0 to |RESTRICTED_PATTERNS|
      invariant forall j :: 0 <= j < k ==> !Test(e, RESTRICTED_PATTERNS[j], text)
    {
      if Test(e, RESTRICTED_PATTERNS[k], text) {
        return Some(CountryRestricted);
      }
    }
    return None;
  }

  /** A listing after the pattern pass: marked country-restricted on a match,
      untouched otherwise. */
  function Resolve(e: Engine, job: JobListing): JobListing {
    if HeuristicVerdict(e, job).Some? then job.(remoteScope := CountryRestricted) else job
  }

  /** The whole list after the pattern pass. */
  function HeuristicPass(e: Engine, jobs: seq<JobListing>): (r: seq<JobListing>)
    ensures |r| == |jobs|
  {
    seq(|jobs|, i requires 0 <= i < |jobs| => Resolve(e, jobs[i]))
  }

  /** A listing the pattern pass left undecided, as queued for the model: its
      position in the list, its title and its description. */
  datatype Pending = Pending(index: nat, title: string, description: string)

  /** The queue of undecided listings: listings no pattern matches, by
      increasing position, each carrying its own title and description (see
      PendingComplete for the converse). */
  function PendingJobs(e: Engine, jobs: seq<JobListing>): (q: seq<Pending>)
    ensures forall k :: 0 <= k < |q| ==>
              q[k].index < |jobs| && HeuristicVerdict(e, jobs[q[k].index]).None? &&
              q[k].title == jobs[q[k].index].title && q[k].description == jobs[q[k].index].description
    ensures forall k, l :: 0 <= k < l < |q| ==> q[k].index < q[l].index
  {
    if jobs == [] then []
    else
      var n := |jobs| - 1;
      var before := PendingJobs(e, jobs[..n]);
      assert forall i :: 0 <= i < n ==> jobs[..n][i] == jobs[i];
      before + (if HeuristicVerdict(e, jobs[n]).None? then [Pending(n, jobs[n].title, jobs[n].description)] else [])
  }

  /** Every listing no pattern matches is in the queue. */
  lemma {:induction false} PendingComplete(e: Engine, jobs: seq<JobListing>, i: nat)
    requires i < |jobs| && HeuristicVerdict(e, jobs[i]).None?
    ensures exists k :: 0 <= k < |PendingJobs(e, jobs)| && PendingJobs(e, jobs)[k].index == i
  {
    var n := |jobs| - 1;
    var before := PendingJobs(e, jobs[..n]);
    var q := PendingJobs(e, jobs);
    PendingLast(e, jobs);
    if i < n {
      assert jobs[..n][i] == jobs[i];
      PendingComplete(e, jobs[..n], i);
      var k :| 0 <= k < |before| && before[k].index == i;
      assert q[k] == before[k];
    } else {
      assert q[|before|].index == i;
    }
  }

  /** The queue of a non-empty list: the queue of all but its last listing,
      then the last listing when no pattern matches it. */
  lemma PendingLast(e: Engine, jobs: seq<JobListing>)
    requires jobs != []
    ensures var n := |jobs| - 1;
      PendingJobs(e, jobs) ==
        PendingJobs(e, jobs[..n]) + (if HeuristicVerdict(e, jobs[n]).None? then [Pending(n, jobs[n].title, jobs[n].description)] else [])
  {
  }

  // ---------------------------------------------------------------------------
  // The model's verdicts

  /** One element of the model's `results` array: null, or an object whose
      `index` may be missing (None), whose `scope` may be any text or missing
      (None), and whose `countries` may be missing or null (None). */
  datatype ScopeItem = NullItem | Item(index: Option<IndexValue>, scope: Option<string>, countries: Option<seq<string>>)

  /** An `index` as the decoded JSON gives it: a number or a string. */
  datatype IndexValue = Num(num: real) | Text(text: string)

  /** The outcome of asking the model: the request or the decoding of its
      answer failed, or the decoded answer with its `results` array (None
      when that field is missing or null). */
  datatype ClassifyReply = ClassifyFailed | ClassifyParsed(results: Option<seq<ScopeItem>>)

  /** `parsed.results ?? []`. */
  function ItemsOf(reply: ClassifyReply): seq<ScopeItem>
    requires reply.ClassifyParsed?
  {
    if reply.results.Some? then reply.results.value else []
  }

  /** The scope a listing gets from a verdict: the three names the prompt
      asks for map to their values; any other text, or none, is copied as it
      came. */
  function ScopeValue(scope: Option<string>): (s: RemoteScope)
    ensures s == Global <==> scope == Some("global")
    ensures s == CountryRestricted <==> scope == Some("country_restricted")
    ensures s == UnknownScope <==> scope == Some("unknown")
    ensures s.Unlisted? ==> s.raw == scope
  {
    match scope
    case Some("global") => Global
    case Some("country_restricted") => CountryRestricted
    case Some("unknown") => UnknownScope
    case _ => Unlisted(scope)
  }

  /** The element a verdict writes to in a list of n. The bounds test
      compares the index as a number and the write uses it as a property
      key, so a number writes to an element when it is a whole number in
      [0, n) (a fraction passes the test but names no element), and a string
      when it is the decimal form of a whole number below n: "0" writes to
      element 0, while "00", " 1" or "1.0" pass the test or not but name no
      element either way. */
  function Target(item: ScopeItem, n: nat): (t: Option<nat>)
    requires item.Item?
    ensures item.index.None? ==> t.None?
    ensures item.index.Some? && item.index.value.Num? ==>
              var x := item.index.value.num;
              && (t.Some? <==> 0.0 <= x < n as real && x == x.Floor as real)
              && (t.Some? ==> t.value as real == x)
    ensures item.index.Some? && item.index.value.Text? ==>
              var key := item.index.value.text;
              && (t.Some? <==> IsIndexKey(key) && DigitsValue(key, 10) < n)
              && (t.Some? ==> DecimalString(t.value) == key)
    ensures t.Some? ==> t.value < n
  {
    match item.index
    case None => None
    case Some(Num(x)) =>
      if 0.0 <= x < n as real && x == x.Floor as real then Some(x.Floor) else None
    case Some(Text(key)) =>
      if IsIndexKey(key) && DigitsValue(key, 10) < n then
        IndexKeyRoundTrip(key);
        Some(DigitsValue(key, 10))
      else None
  }

  /** A property key that names an array element: decimal digits with no
      leading zero. */
  predicate IsIndexKey(key: string) {
    && |key| >= 1
    && (forall i :: 0 <= i < |key| ==> IsDigit(key[i]))
    && (|key| > 1 ==> key[0] != '0')
  }

  /** An element key is the decimal form of the number it denotes. */
  lemma {:induction false} IndexKeyRoundTrip(key: string)
    requires IsIndexKey(key)
    ensures DigitsValue(key, 10) >= 1 || key == "0"
    ensures Digits(DigitsValue(key, 10), 10) == key
  {
    var m := |key| - 1;
    var d := DigitValue(key[m]);
    assert DigitChar(d) == key[m];
    if m > 0 {
      var front := key[..m];
      assert front[0] == key[0];
      IndexKeyRoundTrip(front);
      var v := DigitsValue(front, 10);
      assert v >= 1;
      var total := v * 10 + d;
      assert total / 10 == v && total % 10 == d;
      assert key == front + [key[m]];
    }
  }

  /** A verdict whose index is the decimal text of an element's position
      writes to that element, as a numeric index would. */
  lemma TextIndexWrites(k: nat, n: nat, scope: Option<string>, countries: Option<seq<string>>)
    requires k < n
    ensures Target(Item(Some(Text(DecimalString(k))), scope, countries), n) == Some(k)
    ensures Target(Item(Some(Num(k as real)), scope, countries), n) == Some(k)
  {
    var key := Digits(k, 10);
    forall i | 0 <= i < |key| ensures IsDigit(key[i]) {
      assert DigitValue(key[i]) < 10;
    }
    DigitsRoundTrip(k, 10);
  }

  /** A listing with a verdict copied onto it: the scope, and the countries
      (none when the verdict lists none). */
  function Classify(job: JobListing, item: ScopeItem): (r: JobListing)
    requires item.Item?
    ensures r.remoteScope == ScopeValue(item.scope)
    ensures r.allowedCountries == (if item.countries.Some? then item.countries.value else [])
    ensures r.(remoteScope := job.remoteScope, allowedCountries := job.allowedCountries) == job
  {
    job.(remoteScope := ScopeValue(item.scope),
         allowedCountries := if item.countries.Some? then item.countries.value else [])
  }

  /** The list after one verdict. */
  function ApplyItem(results: seq<JobListing>, item: ScopeItem): (r: seq<JobListing>)
    requires item.Item?
    ensures |r| == |results|
  {
    match Target(item, |results|)
    case None => results
    case Some(k) => results[k := Classify(results[k], item)]
  }

  /** The list after a run of verdicts, applied in order. */
  function ApplyAll(results: seq<JobListing>, items: seq<ScopeItem>): (r: seq<JobListing>)
    requires forall j :: 0 <= j < |items| ==> items[j].Item?
    ensures |r| == |results|
  {
    if items == [] then results
    else ApplyItem(ApplyAll(results, items[..|items| - 1]), items[|items| - 1])
  }

  /** The position of the first null verdict, or the number of verdicts when
      there is none: reading `index` of a null throws, which ends the loop. */
  function FirstNull(items: seq<ScopeItem>): (f: nat)
    ensures f <= |items|
    ensures forall j :: 0 <= j < f ==> items[j].Item?
    ensures f < |items| ==> items[f].NullItem?
  {
    if items == [] || items[0].NullItem? then 0 else 1 + FirstNull(items[1..])
  }

  /** classifyRemoteScope: the pattern pass; then, when some listing is
      undecided and the model answers, the verdicts up to the first null one
      are copied in order (the updates made before a failure are kept). */
  function Classified(e: Engine, jobs: seq<JobListing>, reply: ClassifyReply): (r: seq<JobListing>)
    ensures |r| == |jobs|
  {
    var h := HeuristicPass(e, jobs);
    if PendingJobs(e, jobs) == [] || reply.ClassifyFailed? then h
    else
      var items := ItemsOf(reply);
      ApplyAll(h, items[..FirstNull(items)])
  }

  /** The first loop of classifyRemoteScope: each listing a pattern matches
      is replaced by a copy marked country-restricted, and each other one is
      queued for the model. */
  method PatternPass(e: Engine, jobs: seq<JobListing>) returns (results: seq<JobListing>, needsLlm: seq<Pending>)
    ensures results == HeuristicPass(e, jobs)
    ensures needsLlm == PendingJobs(e, jobs)
  {
    results := jobs;
    needsLlm := [];
    for i := 0 to |results|
      invariant |results| == |jobs|
      invariant forall j :: 0 <= j < i ==> results[j] == Resolve(e, jobs[j])
      invariant forall j :: i <= j < |jobs| ==> results[j] == jobs[j]
      invariant needsLlm == PendingJobs(e, jobs[..i])
    {
      assert jobs[..i + 1][..i] == jobs[..i];
      var scope := HeuristicScope(e, results[i]);
      if scope.Some? {
        results := results[i := results[i].(remoteScope := scope.value)];
      } else {
        needsLlm := needsLlm + [Pending(i, results[i].title, results[i].description)];
      }
    }
    assert jobs[..|jobs|] == jobs;
  }

  /** The second loop of classifyRemoteScope: the verdicts are copied onto
      the list in order until a null one throws. */
  method ApplyVerdicts(start: seq<JobListing>, items: seq<ScopeItem>) returns (results: seq<JobListing>)
    ensures results == ApplyAll(start, items[..FirstNull(items)])
  {
    results := start;
    var k := 0;
    while k < |items|
      invariant k <= |items|
      invariant forall j :: 0 <= j < k ==> items[j].Item?
      invariant results == ApplyAll(start, items[..k])
    {
      var item := items[k];
      if item.NullItem? {
        break;
      }
      assert items[..k + 1][..k] == items[..k];
      // the bounds test, then the write through the index as a property key
      var target := Target(item, |results|);
      if target.Some? {
        var idx := target.value;
        results := results[idx := results[idx].(remoteScope := ScopeValue(item.scope),
                                                allowedCountries := if item.countries.Some? then item.countries.value else [])];
      }
      k := k + 1;
    }
    assert k == FirstNull(items);
  }

  /** classifyRemoteScope as the source runs it: a copy of the list updated
      element by element, first by the pattern pass and then by the verdicts.
      `asked` is the queue sent to the model, None when the model is not
      asked; `reply` is what the model answered for that queue. */
  method ClassifyRemoteScope(e: Engine, jobs: seq<JobListing>, reply: ClassifyReply)
    returns (results: seq<JobListing>, asked: Option<seq<Pending>>)
    ensures results == Classified(e, jobs, reply)
    ensures asked.Some? <==> PendingJobs(e, jobs) != []
    ensures asked.Some? ==> asked.value == PendingJobs(e, jobs)
  {
    var needsLlm;
    results, needsLlm := PatternPass(e, jobs);
    asked := None;
    if |needsLlm| > 0 {
      asked := Some(needsLlm);
      if reply.ClassifyParsed? {
        results := ApplyVerdicts(results, ItemsOf(reply));
      }
    }
  }

  // ---------------------------------------------------------------------------
  // Properties

  /** Verdicts only ever touch the scope and the countries. */
  lemma {:induction false} ApplyAllKeepsOthers(results: seq<JobListing>, items: seq<ScopeItem>, i: nat)
    requires forall j :: 0 <= j < |items| ==> items[j].Item?
    requires i < |results|
    ensures ApplyAll(results, items)[i].(remoteScope := results[i].remoteScope,
                                         allowedCountries := results[i].allowedCountries) == results[i]
  {
    if items != [] {
      ApplyAllKeepsOthers(results, items[..|items| - 1], i);
    }
  }

  /** A listing no verdict targets keeps what it had. */
  lemma {:induction false} ApplyAllUntouched(results: seq<JobListing>, items: seq<ScopeItem>, i: nat)
    requires forall j :: 0 <= j < |items| ==> items[j].Item?
    requires i < |results|
    requires forall j :: 0 <= j < |items| ==> Target(items[j], |results|) != Some(i)
    ensures ApplyAll(results, items)[i] == results[i]
  {
    if items != [] {
      ApplyAllUntouched(results, items[..|items| - 1], i);
    }
  }

  /** When several verdicts target one listing, the last of them decides its
      scope and countries. */
  lemma {:induction false} ApplyAllLastWins(results: seq<JobListing>, items: seq<ScopeItem>, i: nat, j: nat)
    requires forall l :: 0 <= l < |items| ==> items[l].Item?
    requires i < |results| && j < |items|
    requires Target(items[j], |results|) == Some(i)
    requires forall l :: j < l < |items| ==> Target(items[l], |results|) != Some(i)
    ensures ApplyAll(results, items)[i] == Classify(results[i], items[j])
  {
    var m := |items| - 1;
    if j < m {
      ApplyAllLastWins(results, items[..m], i, j);
    } else {
      ApplyAllKeepsOthers(results, items[..m], i);
    }
  }

  /** The classifier keeps the list's length and order and changes nothing of
      a listing but its scope and countries. */
  lemma ClassifyOnlyTouchesScope(e: Engine, jobs: seq<JobListing>, reply: ClassifyReply, i: nat)
    requires i < |jobs|
    ensures Classified(e, jobs, reply)[i].(remoteScope := jobs[i].remoteScope,
                                           allowedCountries := jobs[i].allowedCountries) == jobs[i]
  {
    var h := HeuristicPass(e, jobs);
    if !(PendingJobs(e, jobs) == [] || reply.ClassifyFailed?) {
      var items := ItemsOf(reply);
      ApplyAllKeepsOthers(h, items[..FirstNull(items)], i);
    }
  }

  /** A listing a pattern matches ends up country-restricted, with its
      countries kept, unless one of the model's verdicts names it. */
  lemma PatternHitStands(e: Engine, jobs: seq<JobListing>, reply: ClassifyReply, i: nat)
    requires i < |jobs|
    requires exists k :: 0 <= k < |RESTRICTED_PATTERNS| && Test(e, RESTRICTED_PATTERNS[k], ScopeText(jobs[i]))
    requires reply.ClassifyParsed? ==>
               forall j :: 0 <= j < FirstNull(ItemsOf(reply)) ==> Target(ItemsOf(reply)[j], |jobs|) != Some(i)
    ensures Classified(e, jobs, reply)[i] == jobs[i].(remoteScope := CountryRestricted)
  {
    var h := HeuristicPass(e, jobs);
    if !(PendingJobs(e, jobs) == [] || reply.ClassifyFailed?) {
      var items := ItemsOf(reply);
      ApplyAllUntouched(h, items[..FirstNull(items)], i);
    }
  }

  /** When the model is asked, a listing takes the verdict of the last item
      before the first null one that names it, whatever the pattern pass
      said. */
  lemma VerdictDecides(e: Engine, jobs: seq<JobListing>, items: seq<ScopeItem>, i: nat, j: nat)
    requires PendingJobs(e, jobs) != []
    requires i < |jobs| && j < FirstNull(items)
    requires Target(items[j], |jobs|) == Some(i)
    requires forall l :: j < l < FirstNull(items) ==> Target(items[l], |jobs|) != Some(i)
    ensures Classified(e, jobs, ClassifyParsed(Some(items)))[i] == Classify(jobs[i], items[j])
  {
    var h := HeuristicPass(e, jobs);
    var run := items[..FirstNull(items)];
    ApplyAllLastWins(h, run, i, j);
  }

  /** A null verdict ends the pass: the verdicts before it are applied and
      nothing after it is looked at. */
  lemma NullEndsThePass(e: Engine, jobs: seq<JobListing>, before: seq<ScopeItem>, after: seq<ScopeItem>)
    requires PendingJobs(e, jobs) != []
    requires forall j :: 0 <= j < |before| ==> before[j].Item?
    ensures Classified(e, jobs, ClassifyParsed(Some(before + [NullItem] + after))) ==
            ApplyAll(HeuristicPass(e, jobs), before)
  {
    var items := before + [NullItem] + after;
    assert items[|before|].NullItem?;
    assert forall j :: 0 <= j < |before| ==> items[j] == before[j];
    assert FirstNull(items) == |before|;
    assert items[..|before|] == before;
  }

  /** If the model cannot be asked or its answer cannot be read, the list is
      what the pattern pass made of it; if no listing is undecided the model
      is not asked at all. */
  lemma FailureKeepsPatternPass(e: Engine, jobs: seq<JobListing>, reply: ClassifyReply)
    requires reply.ClassifyFailed? || PendingJobs(e, jobs) == []
    ensures forall i :: 0 <= i < |jobs| ==>
              Classified(e, jobs, reply)[i] ==
              (if HeuristicVerdict(e, jobs[i]).Some? then jobs[i].(remoteScope := CountryRestricted) else jobs[i])
  {
  }

  /** Every undecided listing is in the queue, so when the model is not asked
      every listing was matched by some pattern. */
  lemma NotAskedMeansAllMatched(e: Engine, jobs: seq<JobListing>, i: nat)
    requires PendingJobs(e, jobs) == [] && i < |jobs|
    ensures exists k :: 0 <= k < |RESTRICTED_PATTERNS| && Test(e, RESTRICTED_PATTERNS[k], ScopeText(jobs[i]))
  {
    if HeuristicVerdict(e, jobs[i]).None? {
      PendingComplete(e, jobs, i);
    }
  }
}
