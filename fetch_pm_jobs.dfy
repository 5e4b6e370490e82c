/**
  The PM-jobs scrape (`agent/steps/fetchPMJobs.ts`): job listings are read
  from The Muse page by page for two seniority levels, deduplicated by id,
  kept when they are recent and look like software-company roles, counted
  per company and written as company and job rows.

  `stripHtml` and `isSoftwareCompany` are functions. The page loop, the
  dedup set and the company dictionary are updated in place by loops; these
  are methods proved equal to functions of the API's answers, and the
  promised properties are lemmas about those functions. The Muse API is the
  function `muse` from a level and a page number to a response or an error;
  the six-months cutoff is the predicate `recent` on a publication date; the
  two upserts are functions from the rows to an optional error message.
 */
module FetchPmJobs {
  import opened Wrappers
  import opened Text
  import opened Tally

  // ---------------------------------------------------------------------
  // stripHtml: a chain of global regular-expression replacements
  // ---------------------------------------------------------------------

  /** Every leftmost match of a pattern replaced by `rep`, scanning left to
      right as a global `replace` does. `m(t)` is the length of the
      pattern's match at the start of `t`, or 0 when there is none. */
  function ReplaceMatches(s: string, m: string -> nat, rep: string): string
    decreases |s|
  {
    if s == [] then []
    else
      var n := m(s);
      if 0 < n <= |s| then rep + ReplaceMatches(s[n..], m, rep)
      else [s[0]] + ReplaceMatches(s[1..], m, rep)
  }

  /** No match starts anywhere in `s`. */
  predicate NoMatch(s: string, m: string -> nat) {
    forall i :: 0 <= i < |s| ==> m(s[i..]) == 0
  }

  /** A pattern that matches nowhere changes nothing. */
  lemma {:induction false} ReplaceNothing(s: string, m: string -> nat, rep: string)
    requires NoMatch(s, m)
    ensures ReplaceMatches(s, m, rep) == s
    decreases |s|
  {
    if s != [] {
      assert m(s[0..]) == 0;
      assert s[0..] == s;
      forall i | 0 <= i < |s[1..]| ensures m(s[1..][i..]) == 0 {
        assert s[1..][i..] == s[i + 1..];
      }
      ReplaceNothing(s[1..], m, rep);
    }
  }

  /** The length of the run of white space `s` starts with. */
  function SpaceRun(s: string): (n: nat)
    ensures n <= |s| && AllSpace(s[..n])
    ensures n < |s| ==> !IsSpace(s[n])
  {
    |s| - |TrimStart(s)|
  }

  /** `s` starts with `p`, ASCII letters compared without case (the `i`
      flag without `u` folds only ASCII letters onto ASCII letters). */
  predicate StartsWithNoCase(s: string, p: string) {
    |p| <= |s| && forall i :: 0 <= i < |p| ==> LowerChar(s[i]) == p[i]
  }

  /** `/<br\s*\/?>/i`: `<br`, white space, an optional `/`, then `>`. */
  function LineBreakTag(s: string): nat {
    if !StartsWithNoCase(s, "<br") then 0
    else
      var k := 3 + SpaceRun(s[3..]);
      if k < |s| && s[k] == '>' then k + 1
      else if k + 1 < |s| && s[k] == '/' && s[k + 1] == '>' then k + 2
      else 0
  }

  /** A fixed string without case, as `/<\/p>/i` and `/<\/li>/i`. */
  function NoCase(p: string): string -> nat {
    (s: string) => if StartsWithNoCase(s, p) then |p| else 0
  }

  /** A fixed string, as `/&amp;/`. */
  function Exactly(p: string): string -> nat {
    (s: string) => if StartsWith(s, p) then |p| else 0
  }

  /** `/<[^>]+>/`: `<`, at least one character other than `>`, then `>`. */
  function AnyTag(s: string): nat {
    if s == [] || s[0] != '<' then 0
    else
      var inner := BeforeFirst(s[1..], '>');
      if 1 <= |inner| < |s| - 1 then |inner| + 2 else 0
  }

  /** `/&#\d+;/`: a numeric character reference. */
  function NumericEntity(s: string): nat {
    if !StartsWith(s, "&#") then 0
    else
      var digits := LeadingDigits(s[2..]);
      if 1 <= |digits| && 2 + |digits| < |s| && s[2 + |digits|] == ';' then |digits| + 3 else 0
  }

  /** `/\s{2,}/`: a run of two or more white-space characters, taken whole. */
  function SpaceRunOf2(s: string): nat {
    var n := SpaceRun(s);
    if n >= 2 then n else 0
  }

  /** `.replace(/\s{2,}/g, ' ')`. */
  function CollapseSpace(s: string): string {
    ReplaceMatches(s, SpaceRunOf2, " ")
  }

  /** The markup replacements of `stripHtml`, in order: line-break and
      closing-paragraph or list-item tags become newlines, other tags a
      space, the three named entities their characters, `&nbsp;` and numeric
      references a space. */
  const Markup: seq<(string -> nat, string)> := [
    (LineBreakTag, "\n"), (NoCase("</p>"), "\n"), (NoCase("</li>"), "\n"), (AnyTag, " "),
    (Exactly("&amp;"), "&"), (Exactly("&lt;"), "<"), (Exactly("&gt;"), ">"),
    (Exactly("&nbsp;"), " "), (NumericEntity, " ")]

  /** The replacements `rs` applied one after the other. */
  function ReplaceEach(s: string, rs: seq<(string -> nat, string)>): string
    decreases |rs|
  {
    if rs == [] then s else ReplaceEach(ReplaceMatches(s, rs[0].0, rs[0].1), rs[1..])
  }

  /** `.replace(/\s{2,}/g, ' ').trim()`. */
  function Tidy(s: string): string {
    Trim(CollapseSpace(s))
  }

  /** `stripHtml(html)`. */
  function StripHtml(html: string): string {
    Tidy(ReplaceEach(html, Markup))
  }

  /** No two white-space characters in a row. */
  predicate NoDoubleSpace(s: string) {
    forall i :: 0 <= i < |s| - 1 ==> !(IsSpace(s[i]) && IsSpace(s[i + 1]))
  }

  /** After collapsing, no two white-space characters are adjacent, and the
      result starts with white space only if the input does. */
  lemma {:induction false} CollapseSpaceSpec(s: string)
    ensures NoDoubleSpace(CollapseSpace(s))
    ensures CollapseSpace(s) != [] ==> s != [] && (IsSpace(CollapseSpace(s)[0]) ==> IsSpace(s[0]))
    decreases |s|
  {
    if s != [] {
      var n := SpaceRunOf2(s);
      if 0 < n <= |s| {
        CollapseSpaceSpec(s[n..]);
        if n < |s| {
          assert !IsSpace(s[n..][0]);
        }
      } else {
        CollapseSpaceSpec(s[1..]);
        var rest := CollapseSpace(s[1..]);
        if rest != [] && IsSpace(s[0]) {
          assert SpaceRun(s) <= 1;
          assert !IsSpace(s[1]);
        }
      }
    }
  }

  /** A slice of a string without doubled white space has none either. */
  lemma NoDoubleSpaceSlice(s: string, a: nat, b: nat)
    requires NoDoubleSpace(s) && a <= b <= |s|
    ensures NoDoubleSpace(s[a..b])
  {
    forall i | 0 <= i < b - a - 1 ensures !(IsSpace(s[a..b][i]) && IsSpace(s[a..b][i + 1])) {
      assert s[a..b][i] == s[a + i] && s[a..b][i + 1] == s[a + i + 1];
    }
  }

  /** `trim()` is a slice of its input. */
  lemma TrimSlice(s: string) returns (a: nat, b: nat)
    ensures a <= b <= |s| && Trim(s) == s[a..b]
  {
    var t := TrimStart(s);
    a := |s| - |t|;
    b := a + |TrimEnd(t)|;
  }

  /** Collapsing and trimming leave no doubled white space and none at
      either end. */
  lemma TidySpec(s: string)
    ensures NoDoubleSpace(Tidy(s))
    ensures Trimmed(Tidy(s))
  {
    var c := CollapseSpace(s);
    CollapseSpaceSpec(s);
    var a, b := TrimSlice(c);
    NoDoubleSpaceSlice(c, a, b);
  }

  /** What `stripHtml` promises: no doubled white space and none at either
      end. */
  lemma StripHtmlSpec(html: string)
    ensures NoDoubleSpace(StripHtml(html))
    ensures Trimmed(StripHtml(html))
  {
    TidySpec(ReplaceEach(html, Markup));
  }

  /** Text without markup: no `<`, no `&`, no doubled white space and none at
      either end. */
  predicate PlainText(s: string) {
    '<' !in s && '&' !in s && NoDoubleSpace(s) && Trimmed(s)
  }

  /** Plain text passes through `stripHtml` unchanged. */
  lemma StripHtmlPlain(s: string)
    requires PlainText(s)
    ensures StripHtml(s) == s
  {
    MarkupNeedsSpecial();
    MarkupLeavesPlain(s, Markup);
    CollapseSingleSpaces(s);
    TrimOfTrimmed(s);
  }

  /** Collapsing changes nothing where no two white-space characters meet. */
  lemma CollapseSingleSpaces(s: string)
    requires NoDoubleSpace(s)
    ensures CollapseSpace(s) == s
  {
    forall i | 0 <= i < |s| ensures SpaceRunOf2(s[i..]) == 0 {
      var t := s[i..];
      assert t[0] == s[i];
      if i + 1 < |s| {
        assert t[1] == s[i + 1];
      }
    }
    ReplaceNothing(s, SpaceRunOf2, " ");
  }

  /** Pattern `m` only matches text starting with `<` or `&`. */
  ghost predicate NeedsSpecial(m: string -> nat) {
    forall t :: t != [] && t[0] != '<' && t[0] != '&' ==> m(t) == 0
  }

  lemma MarkupNeedsSpecial()
    ensures forall i :: 0 <= i < |Markup| ==> NeedsSpecial(Markup[i].0)
  {
    LineBreakTagNeedsSpecial();
    NoCaseNeedsSpecial("</p>");
    NoCaseNeedsSpecial("</li>");
    ExactlyNeedsSpecial("&amp;");
    ExactlyNeedsSpecial("&lt;");
    ExactlyNeedsSpecial("&gt;");
    ExactlyNeedsSpecial("&nbsp;");
    assert NeedsSpecial(AnyTag);
    NumericEntityNeedsSpecial();
  }

  lemma NumericEntityNeedsSpecial()
    ensures NeedsSpecial(NumericEntity)
  {
    forall t | t != [] && t[0] != '<' && t[0] != '&' ensures NumericEntity(t) == 0 {
      assert !StartsWith(t, "&#") by {
        if 2 <= |t| {
          assert t[..2][0] == t[0];
        }
      }
    }
  }

  lemma ExactlyNeedsSpecial(p: string)
    requires p != [] && p[0] == '&'
    ensures NeedsSpecial(Exactly(p))
  {
    forall t | t != [] && t[0] != '<' && t[0] != '&' ensures Exactly(p)(t) == 0 {
      assert !StartsWith(t, p) by {
        if |p| <= |t| {
          assert t[..|p|][0] == t[0];
        }
      }
    }
  }

  lemma LineBreakTagNeedsSpecial()
    ensures NeedsSpecial(LineBreakTag)
  {
    forall t | t != [] && t[0] != '<' && t[0] != '&' ensures LineBreakTag(t) == 0 {
      assert LowerChar(t[0]) != '<';
    }
  }

  lemma NoCaseNeedsSpecial(p: string)
    requires p != [] && p[0] == '<'
    ensures NeedsSpecial(NoCase(p))
  {
    forall t | t != [] && t[0] != '<' && t[0] != '&' ensures NoCase(p)(t) == 0 {
      assert LowerChar(t[0]) != '<';
    }
  }

  /** Text without `<` and `&` is left alone by replacements that need one. */
  lemma {:induction false} MarkupLeavesPlain(s: string, rs: seq<(string -> nat, string)>)
    requires '<' !in s && '&' !in s
    requires forall i :: 0 <= i < |rs| ==> NeedsSpecial(rs[i].0)
    ensures ReplaceEach(s, rs) == s
    decreases |rs|
  {
    if rs != [] {
      var m := rs[0].0;
      assert NeedsSpecial(m);
      forall i | 0 <= i < |s| ensures m(s[i..]) == 0 {
        assert s[i..][0] == s[i];
      }
      ReplaceNothing(s, m, rs[0].1);
      assert forall i :: 0 <= i < |rs[1..]| ==> rs[1..][i] == rs[i + 1];
      MarkupLeavesPlain(s, rs[1..]);
    }
  }

  // ---------------------------------------------------------------------
  // isSoftwareCompany
  // ---------------------------------------------------------------------

  /** Keywords that mark a software or tech product role. */
  const TechSignals: seq<string> := [
    "software", "saas", "platform", "cloud", "api", "app ", "apps ",
    "mobile", "digital", "tech", "data", "ai", " ml ", "automation",
    "ecommerce", "fintech", "healthtech", "edtech", "startup", "product"]

  /** `signals.some((sig) => haystack.includes(sig))`. */
  function SomeIncluded(haystack: string, signals: seq<string>): (r: bool)
    ensures r <==> exists i :: 0 <= i < |signals| && Includes(haystack, signals[i])
  {
    if signals == [] then false
    else if Includes(haystack, signals[0]) then true
    else
      var r := SomeIncluded(haystack, signals[1..]);
      assert forall i :: 1 <= i < |signals| ==> signals[1..][i - 1] == signals[i];
      r
  }

  /** The lowercased `${title} ${companyName} ${description}`. */
  function Haystack(title: string, companyName: string, description: string): string {
    Lower(title + " " + companyName + " " + description)
  }

  /** `isSoftwareCompany(title, companyName, description)`: some keyword
      occurs in the lowercased text. */
  function IsSoftwareCompany(title: string, companyName: string, description: string): (r: bool)
    ensures r <==> exists i :: 0 <= i < |TechSignals| &&
                     exists k: nat :: OccursAt(Haystack(title, companyName, description), TechSignals[i], k)
  {
    SomeIncluded(Haystack(title, companyName, description), TechSignals)
  }

  // ---------------------------------------------------------------------
  // Jobs as the API returns them
  // ---------------------------------------------------------------------

  datatype Company = Company(shortName: string, name: string)

  /** A job of a Muse response. `contents` is `None` when missing;
      `locations` and `levels` are `None` when missing, and each element is
      the element's `name` (`None` when missing or `null`); `landingPage` is
      `refs?.landing_page` (`None` when either is missing or `null`). */
  datatype MuseJob = MuseJob(
    id: int, name: string, contents: Option<string>, publicationDate: string, company: Company,
    locations: Option<seq<Option<string>>>, levels: Option<seq<Option<string>>>,
    landingPage: Option<string>)

  datatype MuseResponse = MuseResponse(results: seq<MuseJob>, pageCount: int)

  /** `fetchPage(level, page)`: a response, or the error it throws (a
      non-ok status or a body that is not a response). */
  type Muse = (string, nat) -> Result<MuseResponse>

  const MaxPages: nat := 8
  const DelayMs: nat := 400
  const TargetLevels: seq<string> := ["Entry Level", "Associate"]

  function Ids(jobs: seq<MuseJob>): (r: seq<int>)
    ensures |r| == |jobs|
    ensures forall i :: 0 <= i < |jobs| ==> r[i] == jobs[i].id
  {
    seq(|jobs|, i requires 0 <= i < |jobs| => jobs[i].id)
  }

  lemma IdsAppend(a: seq<MuseJob>, b: seq<MuseJob>)
    ensures Ids(a + b) == Ids(a) + Ids(b)
  {
  }

  // ---------------------------------------------------------------------
  // The new jobs of one page
  // ---------------------------------------------------------------------

  /** The page's jobs whose id is not in `seen`, filtered against `seen` as
      it was before the page: two jobs of one page with the same new id are
      both kept. This is the filter as the step is written. */
  function FreshAsWritten(results: seq<MuseJob>, seen: set<int>): (r: seq<MuseJob>)
    ensures |r| <= |results|
  {
    if results == [] then []
    else if results[0].id in seen then FreshAsWritten(results[1..], seen)
    else [results[0]] + FreshAsWritten(results[1..], seen)
  }

  /** The page's jobs whose id has not been seen, each id once: `seen` grows
      as the page is read, as the step intends. */
  function Fresh(results: seq<MuseJob>, seen: set<int>): (r: seq<MuseJob>)
    ensures |r| <= |results|
  {
    if results == [] then []
    else if results[0].id in seen then Fresh(results[1..], seen)
    else [results[0]] + Fresh(results[1..], seen + {results[0].id})
  }

  /** Which filter a page's new jobs are drawn with: the step as written
      (`AsWritten`, `FreshAsWritten`) or as intended (`Corrected`, `Fresh`). */
  datatype Filter = AsWritten | Corrected

  function PageFresh(f: Filter, results: seq<MuseJob>, seen: set<int>): seq<MuseJob> {
    if f.AsWritten? then FreshAsWritten(results, seen) else Fresh(results, seen)
  }

  /** The set of ids of `jobs`. */
  function IdSet(jobs: seq<MuseJob>): set<int> {
    if jobs == [] then {} else {jobs[0].id} + IdSet(jobs[1..])
  }

  /** An id is in the set exactly when some job has it. */
  lemma {:induction false} IdSetMembers(jobs: seq<MuseJob>)
    ensures forall x :: x in IdSet(jobs) <==> exists j :: j in jobs && j.id == x
  {
    if jobs != [] {
      IdSetMembers(jobs[1..]);
      forall x | exists j :: j in jobs && j.id == x ensures x in IdSet(jobs) {
        var j :| j in jobs && j.id == x;
        if j != jobs[0] {
          assert j in jobs[1..];
        }
      }
    }
  }

  lemma {:induction false} IdSetAppend(a: seq<MuseJob>, b: seq<MuseJob>)
    ensures IdSet(a + b) == IdSet(a) + IdSet(b)
    decreases |a|
  {
    if a != [] {
      assert (a + b)[1..] == a[1..] + b;
      IdSetAppend(a[1..], b);
    } else {
      assert a + b == b;
    }
  }

  /** The new jobs of a page have distinct ids outside `seen`; they are jobs
      of the page; and every job of the page whose id is new has its id among
      them. */
  lemma FreshSpec(results: seq<MuseJob>, seen: set<int>)
    ensures NoDuplicates(Ids(Fresh(results, seen)))
    ensures forall j :: j in Fresh(results, seen) ==> j in results && j.id !in seen
    ensures IdSet(Fresh(results, seen)) == IdSet(results) - seen
  {
    FreshDistinct(results, seen);
    FreshFromPage(results, seen);
    FreshIds(results, seen);
  }

  lemma {:induction false} FreshFromPage(results: seq<MuseJob>, seen: set<int>)
    ensures forall j :: j in Fresh(results, seen) ==> j in results && j.id !in seen
  {
    if results != [] {
      var j := results[0];
      if j.id in seen {
        FreshFromPage(results[1..], seen);
      } else {
        FreshFromPage(results[1..], seen + {j.id});
      }
    }
  }

  lemma {:induction false} FreshDistinct(results: seq<MuseJob>, seen: set<int>)
    ensures NoDuplicates(Ids(Fresh(results, seen)))
  {
    if results != [] {
      var j := results[0];
      if j.id in seen {
        FreshDistinct(results[1..], seen);
      } else {
        var rest := Fresh(results[1..], seen + {j.id});
        FreshDistinct(results[1..], seen + {j.id});
        FreshFromPage(results[1..], seen + {j.id});
        assert Ids([j] + rest) == [j.id] + Ids(rest);
        assert j.id !in Ids(rest);
      }
    }
  }

  lemma {:induction false} FreshIds(results: seq<MuseJob>, seen: set<int>)
    ensures IdSet(Fresh(results, seen)) == IdSet(results) - seen
  {
    if results != [] {
      var j := results[0];
      assert results == [j] + results[1..];
      if j.id in seen {
        FreshIds(results[1..], seen);
        assert IdSet(results) - seen == IdSet(results[1..]) - seen;
      } else {
        var rest := Fresh(results[1..], seen + {j.id});
        FreshIds(results[1..], seen + {j.id});
        assert ([j] + rest)[1..] == rest;
      }
    }
  }

  /** On a page without repeated ids the two filters agree. */
  lemma {:induction false} FreshAsWrittenAgrees(results: seq<MuseJob>, seen: set<int>)
    requires NoDuplicates(Ids(results))
    ensures FreshAsWritten(results, seen) == Fresh(results, seen)
  {
    if results != [] {
      var j := results[0];
      assert forall i :: 0 <= i < |results| - 1 ==> Ids(results[1..])[i] == Ids(results)[i + 1];
      FreshAsWrittenAgrees(results[1..], seen);
      if j.id !in seen {
        assert forall k :: k in results[1..] ==> k.id != j.id by {
          forall k | k in results[1..] ensures k.id != j.id {
            var i :| 0 <= i < |results[1..]| && results[1..][i] == k;
            assert Ids(results)[0] != Ids(results)[i + 1];
          }
        }
        FreshIgnoresUnused(results[1..], seen, j.id);
      }
    }
  }

  /** Adding to `seen` an id no job of the page has changes nothing. */
  lemma {:induction false} FreshIgnoresUnused(results: seq<MuseJob>, seen: set<int>, x: int)
    requires forall k :: k in results ==> k.id != x
    ensures Fresh(results, seen + {x}) == Fresh(results, seen)
    ensures FreshAsWritten(results, seen + {x}) == FreshAsWritten(results, seen)
  {
    if results != [] {
      assert results[0] in results;
      FreshIgnoresUnused(results[1..], seen, x);
      if results[0].id !in seen {
        FreshIgnoresUnused(results[1..], seen + {results[0].id}, x);
        assert seen + {x} + {results[0].id} == seen + {results[0].id} + {x};
      }
    }
  }

  /** A page listing the same new job twice: the filter as written keeps
      both copies. */
  lemma FreshAsWrittenKeepsRepeats(j: MuseJob)
    ensures Ids(FreshAsWritten([j, j], {})) == [j.id, j.id]
    ensures !NoDuplicates(Ids(FreshAsWritten([j, j], {})))
    ensures Fresh([j, j], {}) == [j]
  {
    assert [j, j][1..] == [j];
    assert FreshAsWritten([j], {}) == [j];
    assert FreshAsWritten([j, j], {}) == [j, j];
    var ids := Ids(FreshAsWritten([j, j], {}));
    assert ids[0] == ids[1];
  }

  /** `fresh.forEach((j) => seenIds.add(j.id))`: every id of the kept jobs is
      marked seen. */
  method MarkSeen(newJobs: seq<MuseJob>, seen: set<int>) returns (seen': set<int>)
    ensures seen' == seen + IdSet(newJobs)
  {
    seen' := seen;
    for k := 0 to |newJobs|
      invariant seen' == seen + IdSet(newJobs[..k])
    {
      assert newJobs[..k + 1] == newJobs[..k] + [newJobs[k]];
      IdSetSnoc(newJobs[..k], newJobs[k]);
      seen' := seen' + {newJobs[k].id};
    }
    assert newJobs[..|newJobs|] == newJobs;
  }

  lemma IdSetSnoc(jobs: seq<MuseJob>, j: MuseJob)
    ensures IdSet(jobs + [j]) == IdSet(jobs) + {j.id}
  {
    IdSetAppend(jobs, [j]);
    assert IdSet([j]) == {j.id} + IdSet([]);
  }

  // ---------------------------------------------------------------------
  // The page loop
  // ---------------------------------------------------------------------

  datatype Request = Request(level: string, page: nat)

  /** What the level loops have gathered: `allJobs`, `seenIds`, the pages
      requested so far and the pauses taken, in milliseconds. */
  datatype Collected = Collected(jobs: seq<MuseJob>, seen: set<int>, requests: seq<Request>, pauses: seq<nat>)

  /** The loop goes on after page `page`: it was read and was not the last. */
  predicate Continues(resp: Result<MuseResponse>, page: nat) {
    resp.Ok? && page < resp.value.pageCount - 1
  }

  /** Page `page` requested: on success its new jobs, drawn with `f`, are
      added and their ids marked seen. */
  function AfterPage(f: Filter, c: Collected, level: string, page: nat, resp: Result<MuseResponse>): Collected {
    var asked := c.(requests := c.requests + [Request(level, page)]);
    if resp.Err? then asked
    else
      var unseen := PageFresh(f, resp.value.results, c.seen);
      asked.(jobs := c.jobs + unseen, seen := c.seen + IdSet(unseen))
  }

  /** The `while (page < MAX_PAGES)` loop for `level`, from page `page` on:
      request the page; stop on an error; otherwise add its new jobs, stop
      at the last page, or pause and go on. */
  function PageLoop(muse: Muse, f: Filter, level: string, page: nat, c: Collected): Collected
    decreases MaxPages - page
  {
    if page >= MaxPages then c
    else
      var got := AfterPage(f, c, level, page, muse(level, page));
      if Continues(muse(level, page), page) then PageLoop(muse, f, level, page + 1, got.(pauses := got.pauses + [DelayMs]))
      else got
  }

  /** The level loop over `levels`, from nothing gathered. */
  function Levels(muse: Muse, f: Filter, levels: seq<string>): Collected {
    if levels == [] then Collected([], {}, [], [])
    else PageLoop(muse, f, levels[|levels| - 1], 0, Levels(muse, f, levels[..|levels| - 1]))
  }

  /** The pages requested for `level` from page `page` on. */
  function PagesFetched(muse: Muse, level: string, page: nat): seq<nat>
    decreases MaxPages - page
  {
    if page >= MaxPages then []
    else [page] + if Continues(muse(level, page), page) then PagesFetched(muse, level, page + 1) else []
  }

  /** The pages requested for one level are consecutive from `page`, at
      most `MaxPages` of them; every one but the last was read and was not
      the last page, and the last is page `MaxPages - 1`, failed, or was
      the last page. */
  lemma PagesFetchedSpec(muse: Muse, level: string, page: nat)
    requires page < MaxPages
    ensures var ps := PagesFetched(muse, level, page);
      && 1 <= |ps| <= MaxPages - page
      && (forall i :: 0 <= i < |ps| ==> ps[i] == page + i)
      && (forall i :: 0 <= i < |ps| - 1 ==> Continues(muse(level, ps[i]), ps[i]))
      && (ps[|ps| - 1] == MaxPages - 1 || !Continues(muse(level, ps[|ps| - 1]), ps[|ps| - 1]))
  {
    PagesFetchedConsecutive(muse, level, page);
    PagesFetchedGoOn(muse, level, page);
    PagesFetchedLast(muse, level, page);
  }

  lemma {:induction false} PagesFetchedConsecutive(muse: Muse, level: string, page: nat)
    requires page < MaxPages
    ensures var ps := PagesFetched(muse, level, page);
      && 1 <= |ps| <= MaxPages - page
      && forall i :: 0 <= i < |ps| ==> ps[i] == page + i
    decreases MaxPages - page
  {
    PagesFetchedStep(muse, level, page);
    if Continues(muse(level, page), page) && page + 1 < MaxPages {
      PagesFetchedConsecutive(muse, level, page + 1);
    }
  }

  lemma {:induction false} PagesFetchedGoOn(muse: Muse, level: string, page: nat)
    requires page < MaxPages
    ensures var ps := PagesFetched(muse, level, page);
      forall i :: 0 <= i < |ps| - 1 ==> Continues(muse(level, ps[i]), ps[i])
    decreases MaxPages - page
  {
    PagesFetchedStep(muse, level, page);
    if Continues(muse(level, page), page) && page + 1 < MaxPages {
      PagesFetchedGoOn(muse, level, page + 1);
    }
  }

  lemma {:induction false} PagesFetchedLast(muse: Muse, level: string, page: nat)
    requires page < MaxPages
    ensures var ps := PagesFetched(muse, level, page);
      |ps| >= 1 && (ps[|ps| - 1] == MaxPages - 1 || !Continues(muse(level, ps[|ps| - 1]), ps[|ps| - 1]))
    decreases MaxPages - page
  {
    var ps := PagesFetched(muse, level, page);
    PagesFetchedStep(muse, level, page);
    if Continues(muse(level, page), page) && page + 1 < MaxPages {
      var rest := PagesFetched(muse, level, page + 1);
      PagesFetchedLast(muse, level, page + 1);
      assert ps == [page] + rest;
      assert ps[|ps| - 1] == rest[|rest| - 1];
    } else if Continues(muse(level, page), page) {
      assert PagesFetched(muse, level, page + 1) == [];
      assert ps == [page];
    } else {
      assert ps == [page];
    }
  }

  function Requests(level: string, pages: seq<nat>): (r: seq<Request>)
    ensures |r| == |pages|
    ensures forall i :: 0 <= i < |pages| ==> r[i] == Request(level, pages[i])
  {
    seq(|pages|, i requires 0 <= i < |pages| => Request(level, pages[i]))
  }

  lemma RequestsCons(level: string, p: nat, ps: seq<nat>)
    ensures Requests(level, [p] + ps) == [Request(level, p)] + Requests(level, ps)
  {
    var l, r := Requests(level, [p] + ps), [Request(level, p)] + Requests(level, ps);
    forall i | 0 <= i < |l| ensures l[i] == r[i] {
      if i > 0 {
        assert ([p] + ps)[i] == ps[i - 1];
      }
    }
    assert l == r;
  }

  /** The pages the loop requests are `PagesFetched`. */
  lemma {:induction false} PageLoopRequests(muse: Muse, f: Filter, level: string, page: nat, c: Collected)
    ensures PageLoop(muse, f, level, page, c).requests
         == c.requests + Requests(level, PagesFetched(muse, level, page))
    decreases MaxPages - page
  {
    if page < MaxPages {
      var got := AfterPage(f, c, level, page, muse(level, page));
      var next := got.(pauses := got.pauses + [DelayMs]);
      RequestsAfterPage(f, c, level, page, muse(level, page));
      PageLoopRequestsStep(muse, f, level, page, c);
      PagesFetchedStep(muse, level, page);
      PageLoopRequests(muse, f, level, page + 1, next);
      RequestsChain(level, page, Continues(muse(level, page), page), c.requests, next.requests,
                    PageLoop(muse, f, level, page + 1, next).requests, PageLoop(muse, f, level, page, c).requests,
                    PagesFetched(muse, level, page + 1), PagesFetched(muse, level, page));
    }
  }

  /** The requests of the loop from its page's request and, when it goes
      on, the requests of the pages after it. */
  lemma RequestsChain(level: string, page: nat, goesOn: bool, before: seq<Request>, asked: seq<Request>,
                      later: seq<Request>, loop: seq<Request>, rest: seq<nat>, pages: seq<nat>)
    requires asked == before + [Request(level, page)]
    requires goesOn ==> later == asked + Requests(level, rest)
    requires loop == if goesOn then later else asked
    requires pages == [page] + if goesOn then rest else []
    ensures loop == before + Requests(level, pages)
  {
    RequestsPrepend(before, level, page, if goesOn then rest else []);
  }

  /** The request of a page, then those of the pages after it. */
  lemma RequestsPrepend(before: seq<Request>, level: string, page: nat, rest: seq<nat>)
    ensures before + [Request(level, page)] + Requests(level, rest) == before + Requests(level, [page] + rest)
  {
    RequestsCons(level, page, rest);
    assert before + [Request(level, page)] + Requests(level, rest)
        == before + ([Request(level, page)] + Requests(level, rest));
  }

  lemma PagesFetchedStep(muse: Muse, level: string, page: nat)
    requires page < MaxPages
    ensures PagesFetched(muse, level, page)
         == [page] + if Continues(muse(level, page), page) then PagesFetched(muse, level, page + 1) else []
  {
  }

  /** The requests of the page loop, one page unrolled. */
  lemma PageLoopRequestsStep(muse: Muse, f: Filter, level: string, page: nat, c: Collected)
    requires page < MaxPages
    ensures var got := AfterPage(f, c, level, page, muse(level, page));
      PageLoop(muse, f, level, page, c).requests
        == if Continues(muse(level, page), page) then PageLoop(muse, f, level, page + 1, got.(pauses := got.pauses + [DelayMs])).requests
           else got.requests
  {
  }

  /** Reading a page adds its request and nothing else to the requests. */
  lemma RequestsAfterPage(f: Filter, c: Collected, level: string, page: nat, resp: Result<MuseResponse>)
    ensures AfterPage(f, c, level, page, resp).requests == c.requests + [Request(level, page)]
  {
  }

  /** The pauses the loop takes from page `page` on: one after every page
      it goes on from. */
  function PausesTaken(muse: Muse, level: string, page: nat): nat
    decreases MaxPages - page
  {
    if page >= MaxPages then 0
    else if Continues(muse(level, page), page) then 1 + PausesTaken(muse, level, page + 1)
    else 0
  }

  lemma AfterPagePauses(f: Filter, c: Collected, level: string, page: nat, resp: Result<MuseResponse>)
    ensures AfterPage(f, c, level, page, resp).pauses == c.pauses
  {
  }

  /** `n` pauses of `DELAY_MS` each. */
  function Pauses(n: nat): (r: seq<nat>)
    ensures |r| == n && forall i :: 0 <= i < n ==> r[i] == DelayMs
  {
    if n == 0 then [] else [DelayMs] + Pauses(n - 1)
  }

  lemma {:induction false} PageLoopPausesTaken(muse: Muse, f: Filter, level: string, page: nat, c: Collected)
    ensures PageLoop(muse, f, level, page, c).pauses == c.pauses + Pauses(PausesTaken(muse, level, page))
    decreases MaxPages - page
  {
    if page < MaxPages {
      var got := AfterPage(f, c, level, page, muse(level, page));
      var next := got.(pauses := got.pauses + [DelayMs]);
      PageLoopPausesStep(muse, f, level, page, c);
      AfterPagePauses(f, c, level, page, muse(level, page));
      PageLoopPausesTaken(muse, f, level, page + 1, next);
      PausesChain(Continues(muse(level, page), page), c.pauses, got.pauses, next.pauses,
                  PageLoop(muse, f, level, page + 1, next).pauses, PageLoop(muse, f, level, page, c).pauses,
                  PausesTaken(muse, level, page + 1), PausesTaken(muse, level, page));
    } else {
      assert PageLoop(muse, f, level, page, c).pauses == c.pauses + [];
    }
  }

  /** The pauses of the loop from those before its page and, when it goes
      on, the pause after it and those of the later pages. */
  lemma PausesChain(goesOn: bool, before: seq<nat>, got: seq<nat>, next: seq<nat>, later: seq<nat>, loop: seq<nat>,
                    takenLater: nat, taken: nat)
    requires got == before && next == got + [DelayMs] && later == next + Pauses(takenLater)
    requires loop == (if goesOn then later else got)
    requires taken == if goesOn then 1 + takenLater else 0
    ensures loop == before + Pauses(taken)
  {
    if goesOn {
      assert Pauses(taken) == [DelayMs] + Pauses(takenLater);
      assert later == before + ([DelayMs] + Pauses(takenLater));
    } else {
      assert Pauses(taken) == [];
      assert loop == before + [];
    }
  }

  /** The pauses of the page loop, one page unrolled. */
  lemma PageLoopPausesStep(muse: Muse, f: Filter, level: string, page: nat, c: Collected)
    requires page < MaxPages
    ensures var got := AfterPage(f, c, level, page, muse(level, page));
      && PageLoop(muse, f, level, page, c).pauses
           == (if Continues(muse(level, page), page) then PageLoop(muse, f, level, page + 1, got.(pauses := got.pauses + [DelayMs])).pauses
               else got.pauses)
      && PausesTaken(muse, level, page)
           == if Continues(muse(level, page), page) then 1 + PausesTaken(muse, level, page + 1) else 0
  {
  }

  /** One pause per requested page, except after a last page that ended
      the loop. */
  lemma {:induction false} PausesTakenSpec(muse: Muse, level: string, page: nat)
    requires page < MaxPages
    ensures var ps := PagesFetched(muse, level, page);
      |ps| >= 1 &&
      PausesTaken(muse, level, page) == |ps| - (if Continues(muse(level, ps[|ps| - 1]), ps[|ps| - 1]) then 0 else 1)
    decreases MaxPages - page
  {
    var ps := PagesFetched(muse, level, page);
    if Continues(muse(level, page), page) {
      var rest := PagesFetched(muse, level, page + 1);
      assert ps == [page] + rest;
      assert PausesTaken(muse, level, page) == 1 + PausesTaken(muse, level, page + 1);
      if page + 1 < MaxPages {
        PausesTakenSpec(muse, level, page + 1);
        assert ps[|ps| - 1] == rest[|rest| - 1];
        assert |ps| == 1 + |rest|;
      } else {
        assert rest == [] && ps == [page];
        assert PausesTaken(muse, level, page + 1) == 0;
      }
    } else {
      assert ps == [page];
      assert PausesTaken(muse, level, page) == 0;
    }
  }

  /** A pause of `DELAY_MS` follows every requested page except a last one
      that ended the loop, and nothing else is added to the pauses. */
  lemma PageLoopPauses(muse: Muse, f: Filter, level: string, page: nat, c: Collected)
    requires page < MaxPages
    ensures var ps := PagesFetched(muse, level, page);
      |ps| >= 1 &&
      PageLoop(muse, f, level, page, c).pauses
        == c.pauses + Pauses(|ps| - (if Continues(muse(level, ps[|ps| - 1]), ps[|ps| - 1]) then 0 else 1))
  {
    PageLoopPausesTaken(muse, f, level, page, c);
    PausesTakenSpec(muse, level, page);
  }

  /** All the requests of the level loop, level by level. */
  function AllRequests(muse: Muse, levels: seq<string>): seq<Request> {
    if levels == [] then []
    else AllRequests(muse, levels[..|levels| - 1]) + Requests(levels[|levels| - 1], PagesFetched(muse, levels[|levels| - 1], 0))
  }

  lemma {:induction false} LevelsRequests(muse: Muse, f: Filter, levels: seq<string>)
    ensures Levels(muse, f, levels).requests == AllRequests(muse, levels)
  {
    if levels != [] {
      LevelsRequests(muse, f, levels[..|levels| - 1]);
      PageLoopRequests(muse, f, levels[|levels| - 1], 0, Levels(muse, f, levels[..|levels| - 1]));
    }
  }

  /** `allJobs` holds each id once and `seenIds` is exactly their ids. */
  predicate Deduped(c: Collected) {
    NoDuplicates(Ids(c.jobs)) && c.seen == IdSet(c.jobs)
  }

  /** A page read without a repeated id on it. */
  predicate RepeatFree(resp: Result<MuseResponse>) {
    resp.Ok? ==> NoDuplicates(Ids(resp.value.results))
  }

  /** The Muse lists no id twice on one page. */
  ghost predicate PagesRepeatFree(muse: Muse) {
    forall level, page :: RepeatFree(muse(level, page))
  }

  /** Adding the new jobs of a page keeps the gathered jobs deduplicated:
      always with the corrected filter, and with the filter as written
      when the page repeats no id. */
  lemma AfterPageDeduped(f: Filter, c: Collected, level: string, page: nat, resp: Result<MuseResponse>)
    requires Deduped(c)
    requires f.AsWritten? ==> RepeatFree(resp)
    ensures Deduped(AfterPage(f, c, level, page, resp))
  {
    if resp.Ok? {
      var unseen := Fresh(resp.value.results, c.seen);
      if f.AsWritten? {
        FreshAsWrittenAgrees(resp.value.results, c.seen);
      }
      assert PageFresh(f, resp.value.results, c.seen) == unseen;
      FreshSpec(resp.value.results, c.seen);
      var ids := Ids(c.jobs + unseen);
      IdsAppend(c.jobs, unseen);
      IdSetMembers(c.jobs);
      forall i, j | 0 <= i < j < |ids| ensures ids[i] != ids[j] {
        if i < |c.jobs| && j >= |c.jobs| {
          assert c.jobs[i] in c.jobs;
          assert ids[i] in c.seen;
          assert unseen[j - |c.jobs|] in unseen;
          assert ids[j] !in c.seen;
        }
      }
      IdSetAppend(c.jobs, unseen);
    }
  }

  lemma {:induction false} PageLoopDeduped(muse: Muse, f: Filter, level: string, page: nat, c: Collected)
    requires Deduped(c)
    requires f.AsWritten? ==> PagesRepeatFree(muse)
    ensures Deduped(PageLoop(muse, f, level, page, c))
    decreases MaxPages - page
  {
    if page < MaxPages {
      var resp := muse(level, page);
      var got := AfterPage(f, c, level, page, resp);
      assert f.AsWritten? ==> RepeatFree(resp);
      AfterPageDeduped(f, c, level, page, resp);
      PageLoopStep(muse, f, level, page, c);
      if Continues(resp, page) {
        var next := got.(pauses := got.pauses + [DelayMs]);
        assert Deduped(next);
        PageLoopDeduped(muse, f, level, page + 1, next);
      }
    }
  }

  /** Across all levels and pages no id is gathered twice, with the
      corrected filter, or with the filter as written when no page repeats
      an id. */
  lemma {:induction false} LevelsDeduped(muse: Muse, f: Filter, levels: seq<string>)
    requires f.AsWritten? ==> PagesRepeatFree(muse)
    ensures Deduped(Levels(muse, f, levels))
  {
    if levels != [] {
      LevelsDeduped(muse, f, levels[..|levels| - 1]);
      PageLoopDeduped(muse, f, levels[|levels| - 1], 0, Levels(muse, f, levels[..|levels| - 1]));
    }
  }

  /** One pass of the page loop as written: request page `page`, and on
      success filter its jobs against `seenIds`, then mark the ids of those
      kept; `more` says whether the loop goes on. */
  method FetchPage(muse: Muse, level: string, page: nat, c: Collected) returns (got: Collected, more: bool)
    ensures got == AfterPage(AsWritten, c, level, page, muse(level, page))
    ensures more == Continues(muse(level, page), page)
  {
    var requests := c.requests + [Request(level, page)];
    var data := muse(level, page);
    if data.Err? {
      return c.(requests := requests), false;
    }
    var newJobs := FreshAsWritten(data.value.results, c.seen);
    var seenIds := MarkSeen(newJobs, c.seen);
    got := Collected(c.jobs + newJobs, seenIds, requests, c.pauses);
    more := !(page >= data.value.pageCount - 1);
  }

  /** `PageLoop` one page further on. */
  lemma PageLoopStep(muse: Muse, f: Filter, level: string, page: nat, c: Collected)
    requires page < MaxPages
    ensures var got := AfterPage(f, c, level, page, muse(level, page));
      PageLoop(muse, f, level, page, c)
        == if Continues(muse(level, page), page) then PageLoop(muse, f, level, page + 1, got.(pauses := got.pauses + [DelayMs])) else got
  {
  }

  /** One level's `while` loop. */
  method FetchLevel(muse: Muse, level: string, c: Collected) returns (c': Collected)
    ensures c' == PageLoop(muse, AsWritten, level, 0, c)
  {
    c' := c;
    var page: nat := 0;
    while page < MaxPages
      invariant page <= MaxPages
      invariant PageLoop(muse, AsWritten, level, page, c') == PageLoop(muse, AsWritten, level, 0, c)
      decreases MaxPages - page
    {
      PageLoopStep(muse, AsWritten, level, page, c');
      var more;
      c', more := FetchPage(muse, level, page, c');
      if !more {
        break;
      }
      page := page + 1;
      c' := c'.(pauses := c'.pauses + [DelayMs]);
    }
  }

  /** The loop over `TARGET_LEVELS`. */
  method CollectJobs(muse: Muse) returns (c: Collected)
    ensures c == Levels(muse, AsWritten, TargetLevels)
  {
    c := Collected([], {}, [], []);
    for li := 0 to |TargetLevels|
      invariant c == Levels(muse, AsWritten, TargetLevels[..li])
    {
      assert TargetLevels[..li + 1][..li] == TargetLevels[..li];
      c := FetchLevel(muse, TargetLevels[li], c);
    }
  }

  // ---------------------------------------------------------------------
  // The filter
  // ---------------------------------------------------------------------

  /** `j.contents ?? ''`, stripped. */
  function Description(j: MuseJob): string {
    StripHtml(if j.contents.Some? then j.contents.value else "")
  }

  /** A job is kept when it is recent (`recent` stands for the comparison
      with the date six months before now) and looks like a software role. */
  predicate Keep(j: MuseJob, recent: string -> bool) {
    recent(j.publicationDate) && IsSoftwareCompany(j.name, j.company.name, Description(j))
  }

  /** `jobs.filter(keep)`. */
  function Filtered(jobs: seq<MuseJob>, keep: MuseJob -> bool): (r: seq<MuseJob>)
    ensures |r| <= |jobs|
  {
    if jobs == [] then []
    else
      var init := Filtered(jobs[..|jobs| - 1], keep);
      if keep(jobs[|jobs| - 1]) then init + [jobs[|jobs| - 1]] else init
  }

  /** The filter keeps the order and every occurrence: it distributes over
      concatenation. */
  lemma {:induction false} FilteredAppend(a: seq<MuseJob>, b: seq<MuseJob>, keep: MuseJob -> bool)
    ensures Filtered(a + b, keep) == Filtered(a, keep) + Filtered(b, keep)
    decreases |b|
  {
    if b == [] {
      assert a + b == a;
    } else {
      var init := b[..|b| - 1];
      assert (a + b)[..|a + b| - 1] == a + init;
      FilteredAppend(a, init, keep);
    }
  }

  /** One job is kept exactly when it passes. */
  lemma FilteredOne(j: MuseJob, keep: MuseJob -> bool)
    ensures Filtered([j], keep) == if keep(j) then [j] else []
  {
  }

  /** The filter keeps exactly the jobs that pass. */
  lemma {:induction false} FilteredMembers(jobs: seq<MuseJob>, keep: MuseJob -> bool)
    ensures forall j :: j in Filtered(jobs, keep) <==> j in jobs && keep(j)
  {
    if jobs != [] {
      var init := jobs[..|jobs| - 1];
      assert jobs == init + [jobs[|jobs| - 1]];
      FilteredMembers(init, keep);
    }
  }

  /** Filtering keeps ids distinct. */
  lemma {:induction false} FilteredDistinct(jobs: seq<MuseJob>, keep: MuseJob -> bool)
    requires NoDuplicates(Ids(jobs))
    ensures NoDuplicates(Ids(Filtered(jobs, keep)))
  {
    if jobs != [] {
      var init, last := jobs[..|jobs| - 1], jobs[|jobs| - 1];
      assert Ids(init) == Ids(jobs)[..|init|];
      FilteredDistinct(init, keep);
      if keep(last) {
        var f := Filtered(init, keep);
        FilteredMembers(init, keep);
        IdsAppend(f, [last]);
        forall i | 0 <= i < |f| ensures f[i].id != last.id {
          assert f[i] in f;
          var k :| 0 <= k < |init| && init[k] == f[i];
          assert Ids(jobs)[k] != Ids(jobs)[|init|];
        }
      }
    }
  }

  /** The filter of the step. */
  function Kept(recent: string -> bool): MuseJob -> bool {
    (j: MuseJob) => Keep(j, recent)
  }

  // ---------------------------------------------------------------------
  // companyMap
  // ---------------------------------------------------------------------

  /** An entry of `companyMap`. */
  datatype CompanyEntry = CompanyEntry(id: string, name: string, count: nat)

  function ShortNames(jobs: seq<MuseJob>): (r: seq<string>)
    ensures |r| == |jobs|
    ensures forall i :: 0 <= i < |jobs| ==> r[i] == jobs[i].company.shortName
  {
    seq(|jobs|, i requires 0 <= i < |jobs| => jobs[i].company.shortName)
  }

  /** One job counted into `companyMap`: a new company gets an entry with
      its name and count 0, then its count goes up by one. */
  function AddJob(m: map<string, CompanyEntry>, j: MuseJob): map<string, CompanyEntry> {
    var cid := j.company.shortName;
    var e := if cid in m then m[cid] else CompanyEntry(cid, j.company.name, 0);
    m[cid := e.(count := e.count + 1)]
  }

  /** The dictionary the `companyMap` loop builds over `jobs`. */
  function CompanyMap(jobs: seq<MuseJob>): map<string, CompanyEntry> {
    if jobs == [] then map[] else AddJob(CompanyMap(jobs[..|jobs| - 1]), jobs[|jobs| - 1])
  }

  /** Company `cid` in `m` as the jobs determine it: present exactly when
      some job has that short name, counting those jobs, with the name of
      the first of them. */
  predicate CountsCompany(jobs: seq<MuseJob>, m: map<string, CompanyEntry>, cid: string) {
    && (cid in m <==> cid in ShortNames(jobs))
    && (cid in m ==>
          m[cid] == CompanyEntry(cid, jobs[FirstIndex(ShortNames(jobs), cid)].company.name,
                                 Occurrences(ShortNames(jobs), cid)))
  }

  lemma {:induction false} CompanyMapMeaning(jobs: seq<MuseJob>, cid: string)
    ensures CountsCompany(jobs, CompanyMap(jobs), cid)
  {
    if jobs != [] {
      var init, j := jobs[..|jobs| - 1], jobs[|jobs| - 1];
      assert jobs == init + [j];
      CompanyMapMeaning(init, cid);
      AddJobKeeps(init, CompanyMap(init), j, cid);
    }
  }

  lemma AddJobKeeps(jobs: seq<MuseJob>, m: map<string, CompanyEntry>, j: MuseJob, cid: string)
    requires CountsCompany(jobs, m, cid)
    ensures CountsCompany(jobs + [j], AddJob(m, j), cid)
  {
    var names := ShortNames(jobs);
    assert ShortNames(jobs + [j]) == names + [j.company.shortName];
    SnocFacts(names, j.company.shortName, cid);
    if cid in names {
      var k := FirstIndex(names, cid);
      assert (jobs + [j])[k] == jobs[k];
    }
  }

  /** `AddJob` as the loop writes it. */
  lemma AddJobInserts(m: map<string, CompanyEntry>, j: MuseJob)
    ensures var cid := j.company.shortName;
            var m' := if cid in m then m else m[cid := CompanyEntry(cid, j.company.name, 0)];
            AddJob(m, j) == m'[cid := m'[cid].(count := m'[cid].count + 1)]
  {
  }

  lemma CompanyMapStep(jobs: seq<MuseJob>, i: nat)
    requires i < |jobs|
    ensures CompanyMap(jobs[..i + 1]) == AddJob(CompanyMap(jobs[..i]), jobs[i])
    ensures Distinct(ShortNames(jobs[..i + 1]))
         == Distinct(ShortNames(jobs[..i]))
            + (if jobs[i].company.shortName in CompanyMap(jobs[..i]) then [] else [jobs[i].company.shortName])
  {
    var cid := jobs[i].company.shortName;
    assert jobs[..i + 1][..i] == jobs[..i];
    CompanyMapMeaning(jobs[..i], cid);
    assert ShortNames(jobs[..i + 1]) == ShortNames(jobs[..i]) + [cid];
    DistinctSnoc(ShortNames(jobs[..i]), cid);
  }

  /** The body of the `companyMap` loop for job `j`. */
  method CountJob(m: map<string, CompanyEntry>, order: seq<string>, j: MuseJob)
    returns (m': map<string, CompanyEntry>, order': seq<string>)
    ensures m' == AddJob(m, j)
    ensures order' == order + if j.company.shortName in m then [] else [j.company.shortName]
  {
    var cid := j.company.shortName;
    AddJobInserts(m, j);
    m', order' := m, order;
    if cid !in m' {
      m' := m'[cid := CompanyEntry(cid, j.company.name, 0)];
      order' := order' + [cid];
    }
    m' := m'[cid := m'[cid].(count := m'[cid].count + 1)];
  }

  /** The `companyMap` loop, with the insertion order of its keys (the order
      of `companyMap.values()`). */
  method CountCompanies(jobs: seq<MuseJob>) returns (m: map<string, CompanyEntry>, order: seq<string>)
    ensures m == CompanyMap(jobs)
    ensures order == Distinct(ShortNames(jobs))
  {
    m, order := map[], [];
    for i := 0 to |jobs|
      invariant m == CompanyMap(jobs[..i])
      invariant order == Distinct(ShortNames(jobs[..i]))
    {
      CompanyMapStep(jobs, i);
      m, order := CountJob(m, order, jobs[i]);
    }
    assert jobs[..|jobs|] == jobs;
  }

  /** Every key of `companyMap` is listed once in its key order. */
  lemma CompanyMapKeys(jobs: seq<MuseJob>)
    ensures forall cid :: cid in Distinct(ShortNames(jobs)) <==> cid in CompanyMap(jobs)
  {
    forall cid ensures cid in Distinct(ShortNames(jobs)) <==> cid in CompanyMap(jobs) {
      CompanyMapMeaning(jobs, cid);
      if cid in ShortNames(jobs) {
        var i :| 0 <= i < |ShortNames(jobs)| && ShortNames(jobs)[i] == cid;
      }
    }
  }

  function JobCounts(m: map<string, CompanyEntry>): map<string, nat> {
    map cid | cid in m :: m[cid].count
  }

  /** Every job is counted under exactly one company: the counts sum to the
      number of jobs. */
  lemma CompanyCountsTotal(jobs: seq<MuseJob>)
    ensures SumOver(Distinct(ShortNames(jobs)), JobCounts(CompanyMap(jobs))) == |jobs|
  {
    var c := JobCounts(CompanyMap(jobs));
    forall cid
      ensures cid in c <==> cid in Histogram(ShortNames(jobs))
      ensures cid in c ==> c[cid] == Histogram(ShortNames(jobs))[cid]
    {
      CompanyMapMeaning(jobs, cid);
    }
    assert c == Histogram(ShortNames(jobs));
    HistogramTotal(ShortNames(jobs));
  }

  // ---------------------------------------------------------------------
  // Rows
  // ---------------------------------------------------------------------

  /** Characters of a description kept in a job row. */
  const DescriptionLimit: nat := 8000

  /** A row of `pm_companies`. */
  datatype CompanyRow = CompanyRow(id: string, name: string, jobCount: nat, lastScraped: string)

  /** `[...companyMap.values()].map(...)`, the values in the key order
      `order`. */
  function CompanyRows(order: seq<string>, m: map<string, CompanyEntry>, today: string): (r: seq<CompanyRow>)
    requires forall cid :: cid in order ==> cid in m
    ensures |r| == |order|
    ensures forall i :: 0 <= i < |r| ==>
              r[i] == CompanyRow(m[order[i]].id, m[order[i]].name, m[order[i]].count, today)
  {
    seq(|order|, i requires 0 <= i < |order| => CompanyRow(m[order[i]].id, m[order[i]].name, m[order[i]].count, today))
  }

  /** The company rows of the filtered jobs. */
  function CompanyRowsOf(jobs: seq<MuseJob>, today: string): seq<CompanyRow> {
    CompanyMapKeys(jobs);
    CompanyRows(Distinct(ShortNames(jobs)), CompanyMap(jobs), today)
  }

  function RowsTotal(rows: seq<CompanyRow>): nat {
    if rows == [] then 0 else RowsTotal(rows[..|rows| - 1]) + rows[|rows| - 1].jobCount
  }

  lemma {:induction false} CompanyRowsTotal(order: seq<string>, m: map<string, CompanyEntry>, today: string)
    requires forall cid :: cid in order ==> cid in m
    ensures RowsTotal(CompanyRows(order, m, today)) == SumOver(order, JobCounts(m))
  {
    if order != [] {
      var init := order[..|order| - 1];
      CompanyRowsTotal(init, m, today);
      assert CompanyRows(order, m, today)[..|init|] == CompanyRows(init, m, today);
    }
  }

  /** One row per company of the filtered jobs, in order of first
      appearance, each with the name of its first job's company, the number
      of its jobs and the scrape date. */
  lemma CompanyRowsEntries(jobs: seq<MuseJob>, today: string)
    ensures var rows := CompanyRowsOf(jobs, today);
      && |rows| == |Distinct(ShortNames(jobs))|
      && forall i :: 0 <= i < |rows| ==>
            && rows[i].id == Distinct(ShortNames(jobs))[i]
            && rows[i].name == jobs[FirstIndex(ShortNames(jobs), rows[i].id)].company.name
            && rows[i].jobCount == Occurrences(ShortNames(jobs), rows[i].id)
            && rows[i].lastScraped == today
  {
    CompanyMapKeys(jobs);
    var order := Distinct(ShortNames(jobs));
    forall i | 0 <= i < |order| ensures CountsCompany(jobs, CompanyMap(jobs), order[i]) {
      CompanyMapMeaning(jobs, order[i]);
    }
  }

  /** What the company rows promise: distinct ids, every company of the
      filtered jobs present with its count, and the counts summing to the
      number of jobs. */
  lemma CompanyRowsSpec(jobs: seq<MuseJob>, today: string)
    ensures var rows := CompanyRowsOf(jobs, today);
      && (forall i, k :: 0 <= i < k < |rows| ==> rows[i].id != rows[k].id)
      && (forall i :: 0 <= i < |rows| ==>
            rows[i].id in ShortNames(jobs) && rows[i].jobCount == Occurrences(ShortNames(jobs), rows[i].id))
      && (forall cid :: cid in ShortNames(jobs) ==> exists i :: 0 <= i < |rows| && rows[i].id == cid)
      && RowsTotal(rows) == |jobs|
  {
    CompanyRowsEntries(jobs, today);
    CompanyMapKeys(jobs);
    var order := Distinct(ShortNames(jobs));
    var rows := CompanyRowsOf(jobs, today);
    forall cid | cid in ShortNames(jobs) ensures exists i :: 0 <= i < |rows| && rows[i].id == cid {
      var i :| 0 <= i < |order| && order[i] == cid;
      assert rows[i].id == cid;
    }
    CompanyRowsTotal(order, CompanyMap(jobs), today);
    CompanyCountsTotal(jobs);
  }

  /** A row of `pm_jobs`. */
  datatype JobRow = JobRow(
    id: string, companyId: string, companyName: string, title: string,
    location: Option<string>, level: Option<string>, description: string,
    url: Option<string>, postedDate: string)

  /** `xs?.[0]?.name ?? null`. */
  function FirstName(xs: Option<seq<Option<string>>>): (r: Option<string>)
    ensures xs.None? || xs.value == [] ==> r.None?
    ensures xs.Some? && xs.value != [] ==> r == xs.value[0]
  {
    if xs.None? || xs.value == [] then None else xs.value[0]
  }

  /** The row of one job: the company, title, location, level and URL are
      the job's (the first location and level, or null); the description is
      the stripped contents cut to 8000 characters; and the posted date is
      the publication date up to its first `T`. */
  function ToJobRow(j: MuseJob): (r: JobRow)
    ensures r.id == IntToString(j.id)
    ensures r.companyId == j.company.shortName && r.companyName == j.company.name && r.title == j.name
    ensures r.location == FirstName(j.locations) && r.level == FirstName(j.levels) && r.url == j.landingPage
    ensures |r.description| == Min(DescriptionLimit, |Description(j)|)
    ensures r.description == Description(j)[..|r.description|]
    ensures |r.postedDate| <= |j.publicationDate| && j.publicationDate[..|r.postedDate|] == r.postedDate
    ensures 'T' !in r.postedDate
    ensures |r.postedDate| < |j.publicationDate| ==> j.publicationDate[|r.postedDate|] == 'T'
  {
    JobRow(IntToString(j.id), j.company.shortName, j.company.name, j.name,
           FirstName(j.locations), FirstName(j.levels),
           Take(Description(j), DescriptionLimit), j.landingPage, BeforeFirst(j.publicationDate, 'T'))
  }

  /** `filtered.map(...)`. */
  function JobRows(jobs: seq<MuseJob>): (rows: seq<JobRow>)
    ensures |rows| == |jobs|
    ensures forall i :: 0 <= i < |jobs| ==> rows[i] == ToJobRow(jobs[i])
  {
    seq(|jobs|, i requires 0 <= i < |jobs| => ToJobRow(jobs[i]))
  }

  /** Jobs with distinct ids give rows with distinct ids, so the upsert on
      `id` never meets the same key twice. */
  lemma JobRowIdsDistinct(jobs: seq<MuseJob>)
    requires NoDuplicates(Ids(jobs))
    ensures forall i, k :: 0 <= i < k < |jobs| ==> JobRows(jobs)[i].id != JobRows(jobs)[k].id
  {
    forall i, k | 0 <= i < k < |jobs| ensures JobRows(jobs)[i].id != JobRows(jobs)[k].id {
      assert Ids(jobs)[i] != Ids(jobs)[k];
      if JobRows(jobs)[i].id == JobRows(jobs)[k].id {
        IntToStringInjective(jobs[i].id, jobs[k].id);
      }
    }
  }

  // ---------------------------------------------------------------------
  // fetchPMJobs
  // ---------------------------------------------------------------------

  /** The scrape's outcome: the number of job rows written or the message
      thrown, and what the level loops gathered and requested. */
  datatype Outcome = Outcome(result: Result<nat>, collected: Collected)

  /** What follows the level loops, for the gathered jobs `c`. */
  function Finish(c: Collected, recent: string -> bool, now: string,
                  companyUpsert: seq<CompanyRow> -> Option<string>,
                  jobUpsert: seq<JobRow> -> Option<string>): Result<nat>
  {
    var filtered := Filtered(c.jobs, Kept(recent));
    if filtered == [] then Ok(0)
    else
      var companies := CompanyRowsOf(filtered, BeforeFirst(now, 'T'));
      if companyUpsert(companies).Some? then Result<nat>.Err("Company upsert failed: " + companyUpsert(companies).value)
      else
        var jobs := JobRows(filtered);
        if jobUpsert(jobs).Some? then Result<nat>.Err("Job upsert failed: " + jobUpsert(jobs).value)
        else Ok(|jobs|)
  }

  /** `fetchPMJobs()`: `now` is the ISO time of the run; `companyUpsert`
      and `jobUpsert` give the error, if any, of upserting a list of rows. */
  function PmJobsRun(muse: Muse, f: Filter, recent: string -> bool, now: string,
                     companyUpsert: seq<CompanyRow> -> Option<string>,
                     jobUpsert: seq<JobRow> -> Option<string>): Outcome
  {
    var c := Levels(muse, f, TargetLevels);
    Outcome(Finish(c, recent, now, companyUpsert, jobUpsert), c)
  }

  method FetchPmJobs(muse: Muse, recent: string -> bool, now: string,
                     companyUpsert: seq<CompanyRow> -> Option<string>,
                     jobUpsert: seq<JobRow> -> Option<string>)
    returns (result: Result<nat>, collected: Collected)
    ensures Outcome(result, collected) == PmJobsRun(muse, AsWritten, recent, now, companyUpsert, jobUpsert)
  {
    collected := CollectJobs(muse);
    var filtered := Filtered(collected.jobs, Kept(recent));
    if |filtered| == 0 {
      return Ok(0), collected;
    }
    var companyMap, order := CountCompanies(filtered);
    var today := BeforeFirst(now, 'T');
    CompanyMapKeys(filtered);
    var companyRows := CompanyRows(order, companyMap, today);
    var compErr := companyUpsert(companyRows);
    if compErr.Some? {
      return Err("Company upsert failed: " + compErr.value), collected;
    }
    var jobRows := JobRows(filtered);
    var jobErr := jobUpsert(jobRows);
    if jobErr.Some? {
      return Err("Job upsert failed: " + jobErr.value), collected;
    }
    return Ok(|jobRows|), collected;
  }

  /** After the loops: nothing is written and 0 returned when no job passes
      the filter; otherwise the company rows are upserted, then the job
      rows, and the step fails exactly when one of them does, with the
      message naming the first failure, or returns the number of job rows. */
  lemma FinishFacts(c: Collected, recent: string -> bool, now: string,
                    companyUpsert: seq<CompanyRow> -> Option<string>,
                    jobUpsert: seq<JobRow> -> Option<string>)
    ensures var r := Finish(c, recent, now, companyUpsert, jobUpsert);
      var filtered := Filtered(c.jobs, Kept(recent));
      var companies := CompanyRowsOf(filtered, BeforeFirst(now, 'T'));
      && (filtered == [] ==> r == Ok(0))
      && (r.Err? <==> filtered != [] && (companyUpsert(companies).Some? || jobUpsert(JobRows(filtered)).Some?))
      && (filtered != [] && companyUpsert(companies).Some? ==>
            r == Err("Company upsert failed: " + companyUpsert(companies).value))
      && (filtered != [] && companyUpsert(companies).None? && jobUpsert(JobRows(filtered)).Some? ==>
            r == Err("Job upsert failed: " + jobUpsert(JobRows(filtered)).value))
      && (r.Ok? ==> r.value == |filtered|)
  {
  }

  /** Over the whole scrape: the pages requested are those of
      `PagesFetched`, level by level; and, with the corrected filter or
      when no page repeats an id, no id is gathered twice, so the filtered
      jobs and their rows have distinct ids. */
  lemma PmJobsFacts(muse: Muse, f: Filter, recent: string -> bool, now: string,
                    companyUpsert: seq<CompanyRow> -> Option<string>,
                    jobUpsert: seq<JobRow> -> Option<string>)
    ensures var o := PmJobsRun(muse, f, recent, now, companyUpsert, jobUpsert);
      var filtered := Filtered(o.collected.jobs, Kept(recent));
      && o.collected.requests == AllRequests(muse, TargetLevels)
      && ((f.Corrected? || PagesRepeatFree(muse)) ==>
            && NoDuplicates(Ids(o.collected.jobs))
            && NoDuplicates(Ids(filtered))
            && (forall i, k :: 0 <= i < k < |filtered| ==> JobRows(filtered)[i].id != JobRows(filtered)[k].id))
  {
    var c := Levels(muse, f, TargetLevels);
    LevelsRequests(muse, f, TargetLevels);
    if f.Corrected? || PagesRepeatFree(muse) {
      LevelsDeduped(muse, f, TargetLevels);
      FilteredDistinct(c.jobs, Kept(recent));
      JobRowIdsDistinct(Filtered(c.jobs, Kept(recent)));
    }
  }

  /** When no page repeats an id, the scrape as written and the corrected
      one gather, request, pause and write alike. */
  lemma PmJobsRunAgrees(muse: Muse, recent: string -> bool, now: string,
                        companyUpsert: seq<CompanyRow> -> Option<string>,
                        jobUpsert: seq<JobRow> -> Option<string>)
    requires PagesRepeatFree(muse)
    ensures PmJobsRun(muse, AsWritten, recent, now, companyUpsert, jobUpsert)
         == PmJobsRun(muse, Corrected, recent, now, companyUpsert, jobUpsert)
  {
    LevelsAgree(muse, TargetLevels);
  }

  lemma {:induction false} LevelsAgree(muse: Muse, levels: seq<string>)
    requires PagesRepeatFree(muse)
    ensures Levels(muse, AsWritten, levels) == Levels(muse, Corrected, levels)
  {
    if levels != [] {
      LevelsAgree(muse, levels[..|levels| - 1]);
      PageLoopAgrees(muse, levels[|levels| - 1], 0, Levels(muse, Corrected, levels[..|levels| - 1]));
    }
  }

  lemma {:induction false} PageLoopAgrees(muse: Muse, level: string, page: nat, c: Collected)
    requires PagesRepeatFree(muse)
    ensures PageLoop(muse, AsWritten, level, page, c) == PageLoop(muse, Corrected, level, page, c)
    decreases MaxPages - page
  {
    if page < MaxPages {
      var resp := muse(level, page);
      assert RepeatFree(resp);
      if resp.Ok? {
        FreshAsWrittenAgrees(resp.value.results, c.seen);
      }
      var got := AfterPage(Corrected, c, level, page, resp);
      assert AfterPage(AsWritten, c, level, page, resp) == got;
      PageLoopStep(muse, AsWritten, level, page, c);
      PageLoopStep(muse, Corrected, level, page, c);
      if Continues(resp, page) {
        PageLoopAgrees(muse, level, page + 1, got.(pauses := got.pauses + [DelayMs]));
      }
    }
  }

  /** A page listing the same new job twice: the step as written gathers it
      twice, the corrected step once. */
  lemma PageAsWrittenGathersRepeats(j: MuseJob, level: string)
    ensures AfterPage(AsWritten, Collected([], {}, [], []), level, 0, Ok(MuseResponse([j, j], 1))).jobs == [j, j]
    ensures AfterPage(Corrected, Collected([], {}, [], []), level, 0, Ok(MuseResponse([j, j], 1))).jobs == [j]
  {
    FreshAsWrittenKeepsRepeats(j);
    assert FreshAsWritten([j, j], {}) == [j, j];
  }
}
