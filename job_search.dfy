/**
 * The job search filter of the search page: a case-insensitive substring
 * match of the search term against the title, company and location of each
 * job, keeping the jobs of the list in their original order.
 *
 * `String.prototype.toLowerCase` is modelled as ASCII lowering, character by
 * character; `String.prototype.includes` as a scan for a prefix at each
 * position, proved equal to "is a substring of".
 */
module JobSearch {

  /** One record of the job listing. */
  datatype Job = Job(
    id: int,
    title: string,
    company: string,
    location: string,
    jobType: string,
    description: string,
    source: string)

  // ---------------------------------------------------------------------
  // Lowering
  // ---------------------------------------------------------------------

  predicate IsUpper(c: char) {
    'A' <= c <= 'Z'
  }

  function LowerChar(c: char): char {
    if IsUpper(c) then (c as int + 32) as char else c
  }

  /** `s.toLowerCase()`, one character at a time. */
  function ToLower(s: string): (r: string)
    ensures |r| == |s|
    ensures forall i | 0 <= i < |r| :: !IsUpper(r[i])
    ensures forall i | 0 <= i < |s| && IsUpper(s[i]) :: r[i] as int == s[i] as int + 32
    ensures forall i | 0 <= i < |s| && !IsUpper(s[i]) :: r[i] == s[i]
  {
    seq(|s|, i requires 0 <= i < |s| => LowerChar(s[i]))
  }

  /** Lowering a string that is already lowered changes nothing. */
  lemma ToLowerIdempotent(s: string)
    ensures ToLower(ToLower(s)) == ToLower(s)
  {
  }

  // ---------------------------------------------------------------------
  // Substring search
  // ---------------------------------------------------------------------

  /** `needle` occurs somewhere in `hay`. */
  ghost predicate IsSubstring(needle: string, hay: string) {
    exists i | 0 <= i <= |hay| :: needle <= hay[i..]
  }

  /** `hay.includes(needle)`: try every start position from the left. */
  function Includes(hay: string, needle: string): bool
    decreases |hay|
  {
    if needle <= hay then true
    else if |hay| == 0 then false
    else Includes(hay[1..], needle)
  }

  /** The scan answers exactly "is a substring of". */
  lemma {:induction false} IncludesIsSubstring(hay: string, needle: string)
    ensures Includes(hay, needle) <==> IsSubstring(needle, hay)
    decreases |hay|
  {
    if needle <= hay {
      assert hay[0..] == hay;
    } else if |hay| == 0 {
      assert forall i | 0 <= i <= |hay| :: hay[i..] == hay;
    } else {
      IncludesIsSubstring(hay[1..], needle);
      if IsSubstring(needle, hay[1..]) {
        var i :| 0 <= i <= |hay[1..]| && needle <= hay[1..][i..];
        assert hay[1..][i..] == hay[i + 1..];
      }
      if IsSubstring(needle, hay) {
        var i :| 0 <= i <= |hay| && needle <= hay[i..];
        assert i != 0;
        assert hay[1..][i - 1..] == hay[i..];
      }
    }
  }

  /** The empty string is part of every string, so the empty term matches every job. */
  lemma {:induction false} IncludesEmpty(hay: string)
    ensures Includes(hay, "")
  {
  }

  // ---------------------------------------------------------------------
  // The filter
  // ---------------------------------------------------------------------

  /** The predicate passed to `allJobs.filter`, given the lowered term. */
  predicate Matches(job: Job, lowered: string) {
    || Includes(ToLower(job.title), lowered)
    || Includes(ToLower(job.company), lowered)
    || Includes(ToLower(job.location), lowered)
  }

  /** What a match means: the lowered term is a substring of one of the three searched fields. */
  ghost predicate Mentions(job: Job, lowered: string) {
    || IsSubstring(lowered, ToLower(job.title))
    || IsSubstring(lowered, ToLower(job.company))
    || IsSubstring(lowered, ToLower(job.location))
  }

  lemma MatchesIsMentions(job: Job, lowered: string)
    ensures Matches(job, lowered) <==> Mentions(job, lowered)
  {
    IncludesIsSubstring(ToLower(job.title), lowered);
    IncludesIsSubstring(ToLower(job.company), lowered);
    IncludesIsSubstring(ToLower(job.location), lowered);
  }

  /** `jobs.filter(job => Matches(job, lowered))`. */
  function Keep(jobs: seq<Job>, lowered: string): seq<Job>
  {
    if jobs == [] then []
    else (if Matches(jobs[0], lowered) then [jobs[0]] else []) + Keep(jobs[1..], lowered)
  }

  /**
   * The jobs shown for `searchTerm`: all of them for the empty term,
   * otherwise those matching the lowered term.
   */
  function FilterJobs(allJobs: seq<Job>, searchTerm: string): seq<Job>
  {
    if searchTerm == "" then allJobs
    else Keep(allJobs, ToLower(searchTerm))
  }

  // ---------------------------------------------------------------------
  // Properties of Keep
  // ---------------------------------------------------------------------

  /** `b` is `a` with some elements dropped, the rest in their original order. */
  ghost predicate IsSubsequence(b: seq<Job>, a: seq<Job>)
    decreases |a|
  {
    if b == [] then true
    else if a == [] then false
    else if b[0] == a[0] then IsSubsequence(b[1..], a[1..])
    else IsSubsequence(b, a[1..])
  }

  lemma {:induction false} KeepMembership(jobs: seq<Job>, lowered: string, job: Job)
    ensures job in Keep(jobs, lowered) <==> job in jobs && Matches(job, lowered)
  {
    if jobs != [] {
      KeepMembership(jobs[1..], lowered, job);
      assert jobs == [jobs[0]] + jobs[1..];
    }
  }

  lemma {:induction false} KeepIsSubsequence(jobs: seq<Job>, lowered: string)
    ensures IsSubsequence(Keep(jobs, lowered), jobs)
    ensures multiset(Keep(jobs, lowered)) <= multiset(jobs)
    ensures |Keep(jobs, lowered)| <= |jobs|
  {
    if jobs != [] {
      KeepIsSubsequence(jobs[1..], lowered);
      assert jobs == [jobs[0]] + jobs[1..];
      var rest := Keep(jobs[1..], lowered);
      if Matches(jobs[0], lowered) {
        assert Keep(jobs, lowered) == [jobs[0]] + rest;
        assert ([jobs[0]] + rest)[1..] == rest;
      } else {
        assert Keep(jobs, lowered) == rest;
        SubsequenceSkip(rest, jobs);
      }
    }
  }

  /** Dropping the head of the longer sequence keeps it a subsequence when it was one of the tail. */
  lemma {:induction false} SubsequenceSkip(b: seq<Job>, a: seq<Job>)
    requires a != []
    requires IsSubsequence(b, a[1..])
    ensures IsSubsequence(b, a)
    decreases |a|, |b|
  {
    if b != [] && b[0] == a[0] {
      // Take a[0] for b[0], then b[1..] fits inside a[1..] because b does.
      SubsequenceTail(b, a[1..]);
    }
  }

  /** Every subsequence's tail is a subsequence too. */
  lemma {:induction false} SubsequenceTail(b: seq<Job>, a: seq<Job>)
    requires b != []
    requires IsSubsequence(b, a)
    ensures IsSubsequence(b[1..], a)
    decreases |a|, |b|
  {
    if a != [] {
      if b[0] == a[0] {
        SubsequenceSkip(b[1..], a);
      } else {
        SubsequenceTail(b, a[1..]);
        SubsequenceSkip(b[1..], a);
      }
    }
  }

  /** Every matching job is kept as often as it occurs; every other job is dropped. */
  lemma {:induction false} KeepCount(jobs: seq<Job>, lowered: string, job: Job)
    ensures multiset(Keep(jobs, lowered))[job] == if Matches(job, lowered) then multiset(jobs)[job] else 0
  {
    if jobs != [] {
      KeepCount(jobs[1..], lowered, job);
      assert jobs == [jobs[0]] + jobs[1..];
    }
  }

  /** A list whose every job matches is kept whole. */
  lemma {:induction false} KeepAll(jobs: seq<Job>, lowered: string)
    requires forall k | 0 <= k < |jobs| :: Matches(jobs[k], lowered)
    ensures Keep(jobs, lowered) == jobs
  {
    if jobs != [] {
      KeepAll(jobs[1..], lowered);
      assert jobs == [jobs[0]] + jobs[1..];
    }
  }

  lemma {:induction false} KeepIdempotent(jobs: seq<Job>, lowered: string)
    ensures Keep(Keep(jobs, lowered), lowered) == Keep(jobs, lowered)
  {
    var kept := Keep(jobs, lowered);
    forall k | 0 <= k < |kept| ensures Matches(kept[k], lowered) {
      KeepMembership(jobs, lowered, kept[k]);
    }
    KeepAll(kept, lowered);
  }

  // ---------------------------------------------------------------------
  // Properties of the search page filter
  // ---------------------------------------------------------------------

  /** The empty term shows the whole list, unchanged. */
  lemma EmptyTermShowsAll(allJobs: seq<Job>)
    ensures FilterJobs(allJobs, "") == allJobs
  {
  }

  /**
   * The early return for the empty term is only a shortcut: filtering by the
   * lowered term gives the same list for every term, the empty one included.
   */
  lemma {:induction false} ShortcutAgreesWithFilter(allJobs: seq<Job>, searchTerm: string)
    ensures FilterJobs(allJobs, searchTerm) == Keep(allJobs, ToLower(searchTerm))
  {
    if searchTerm == "" {
      forall k | 0 <= k < |allJobs| ensures Matches(allJobs[k], "") {
        IncludesEmpty(ToLower(allJobs[k].title));
      }
      KeepAll(allJobs, "");
    }
  }

  /**
   * Soundness and completeness: a job is shown exactly when it is in the list
   * and the lowered term is a substring of its lowered title, company or location.
   */
  lemma SoundAndComplete(allJobs: seq<Job>, searchTerm: string, job: Job)
    ensures job in FilterJobs(allJobs, searchTerm)
        <==> job in allJobs && Mentions(job, ToLower(searchTerm))
  {
    ShortcutAgreesWithFilter(allJobs, searchTerm);
    KeepMembership(allJobs, ToLower(searchTerm), job);
    MatchesIsMentions(job, ToLower(searchTerm));
  }

  /**
   * The shown list is the full list with some jobs dropped: same order, and
   * no job shown more often than it occurs in the list.
   */
  lemma OrderPreserved(allJobs: seq<Job>, searchTerm: string)
    ensures IsSubsequence(FilterJobs(allJobs, searchTerm), allJobs)
    ensures multiset(FilterJobs(allJobs, searchTerm)) <= multiset(allJobs)
    ensures |FilterJobs(allJobs, searchTerm)| <= |allJobs|
  {
    ShortcutAgreesWithFilter(allJobs, searchTerm);
    KeepIsSubsequence(allJobs, ToLower(searchTerm));
  }

  /**
   * A shown job is shown as many times as it occurs in the list; a job that
   * does not mention the lowered term is not shown at all.
   */
  lemma CopiesKept(allJobs: seq<Job>, searchTerm: string, job: Job)
    ensures multiset(FilterJobs(allJobs, searchTerm))[job]
        == if Mentions(job, ToLower(searchTerm)) then multiset(allJobs)[job] else 0
  {
    ShortcutAgreesWithFilter(allJobs, searchTerm);
    KeepCount(allJobs, ToLower(searchTerm), job);
    MatchesIsMentions(job, ToLower(searchTerm));
  }

  /** Only the lowered term matters: terms differing only in letter case give the same list. */
  lemma CaseInsensitive(allJobs: seq<Job>, term1: string, term2: string)
    requires ToLower(term1) == ToLower(term2)
    ensures FilterJobs(allJobs, term1) == FilterJobs(allJobs, term2)
  {
    ShortcutAgreesWithFilter(allJobs, term1);
    ShortcutAgreesWithFilter(allJobs, term2);
  }

  /** Filtering the shown list again by the same term changes nothing. */
  lemma Idempotent(allJobs: seq<Job>, searchTerm: string)
    ensures FilterJobs(FilterJobs(allJobs, searchTerm), searchTerm) == FilterJobs(allJobs, searchTerm)
  {
    ShortcutAgreesWithFilter(allJobs, searchTerm);
    ShortcutAgreesWithFilter(Keep(allJobs, ToLower(searchTerm)), searchTerm);
    KeepIdempotent(allJobs, ToLower(searchTerm));
  }

  /**
   * The id, type, description and source of a job are never searched:
   * changing them does not change whether the job is shown, and a job whose
   * title, company and location all miss a non-empty term is not shown,
   * whatever its other fields contain.
   */
  lemma OtherFieldsIgnored(allJobs: seq<Job>, job: Job, searchTerm: string,
                           id: int, jobType: string, description: string, source: string)
    ensures var other := job.(id := id, jobType := jobType, description := description, source := source);
      job in FilterJobs([job], searchTerm) <==> other in FilterJobs([other], searchTerm)
    ensures searchTerm != "" && !Mentions(job, ToLower(searchTerm)) ==> job !in FilterJobs(allJobs, searchTerm)
  {
    var other := job.(id := id, jobType := jobType, description := description, source := source);
    SoundAndComplete([job], searchTerm, job);
    SoundAndComplete([other], searchTerm, other);
    SoundAndComplete(allJobs, searchTerm, job);
  }
}
