/**
  The outcomes step of the PM-jobs run (agent/steps/generatePMOutcomes.ts):
  for every company scraped on the date, ask the model to distil the
  company's PM job descriptions into outcomes, and store at most five of
  them per company with the ids of the jobs each one appears in. The rows of
  the date are cleared first, so a re-run replaces them.
 */
module PmOutcomes {
  import opened Wrappers
  import opened Json
  import opened Text
  import opened Groq
  import opened Clusters

  /** A company scraped on the date. */
  datatype Company = Company(id: string, name: string)

  /** A job with a description, as the per-company query returns it (at
      most ten: the limit is the database's). */
  datatype Job = Job(id: string, title: string, description: string)

  /** One stored outcome. */
  datatype OutcomeRow = OutcomeRow(companyId: string, companyName: string, scrapedDate: string, cluster: ClusterRow)

  const OutcomeMaxTokens: nat := 1500
  const CompanyDelayMs: nat := 800

  /** Each description is cut to this many characters in the prompt. */
  const DescriptionLimit: nat := 1200

  // ---------------------------------------------------------------------
  // clusterJobOutcomes
  // ---------------------------------------------------------------------

  /** `[i] Title: title` and, on the next line, the first 1200 characters of
      the description. */
  function JobEntry(i: nat, j: Job): string {
    IndexTag(i) + "Title: " + j.title + "\n" + Take(j.description, DescriptionLimit)
  }

  function JobEntries(jobs: seq<Job>): (entries: seq<string>)
    ensures |entries| == |jobs|
    ensures forall i :: 0 <= i < |jobs| ==> entries[i] == JobEntry(i, jobs[i])
  {
    seq(|jobs|, i requires 0 <= i < |jobs| => JobEntry(i, jobs[i]))
  }

  const JobSeparator: string := "\n\n---\n\n"

  function OutcomePrompt(companyName: string, jobs: seq<Job>): string {
    "Company: " + companyName + "\n\nJob descriptions (" + NatToString(|jobs|) + "):\n\n"
      + Join(JobEntries(jobs), JobSeparator)
      + "\n\nGenerate 3-5 MECE PM outcomes for this company. Return JSON array."
  }

  function OutcomeRequest(companyName: string, jobs: seq<Job>): Request {
    Request(OutcomeClustering, OutcomeMaxTokens, OutcomePrompt(companyName, jobs))
  }

  /** Entry `k` of the prompt opens with `[k] Title: ` and the job's title,
      and carries a prefix of the description no longer than 1200
      characters (all of it when it is shorter); the entries are separated
      by `---`. */
  lemma JobEntryShape(jobs: seq<Job>, k: nat)
    requires k < |jobs|
    ensures var e := JobEntries(jobs)[k];
      var shown := e[|IndexTag(k) + "Title: " + jobs[k].title + "\n"|..];
      && StartsWith(e, IndexTag(k) + "Title: " + jobs[k].title + "\n")
      && |shown| <= DescriptionLimit
      && StartsWith(jobs[k].description, shown)
      && (|jobs[k].description| <= DescriptionLimit ==> shown == jobs[k].description)
    ensures 0 < k ==>
      Join(JobEntries(jobs), JobSeparator)
        == Join(JobEntries(jobs)[..k], JobSeparator) + JobSeparator + Join(JobEntries(jobs)[k..], JobSeparator)
  {
    var head := IndexTag(k) + "Title: " + jobs[k].title + "\n";
    var e := JobEntries(jobs)[k];
    assert e == head + Take(jobs[k].description, DescriptionLimit);
    assert e[..|head|] == head;
    assert e[|head|..] == Take(jobs[k].description, DescriptionLimit);
    if 0 < k {
      JoinSplit(JobEntries(jobs), JobSeparator, k);
    }
  }

  /** `clusterJobOutcomes(companyName, jobs)` as the `call`-th model call:
      the error it throws, or the decoded outcomes. */
  function ClusterJobOutcomes(companyName: string, jobs: seq<Job>, llm: Llm, parse: Parser, call: nat)
    : Result<seq<Cluster>>
  {
    match llm(OutcomeRequest(companyName, jobs), call)
    case Failed(msg) => Err(msg)
    case Replied(content) =>
      Ok(DecodeClusters(parse(StripFences(RawText(content))), "outcomes", "job_indices"))
  }

  // ---------------------------------------------------------------------
  // generatePMOutcomes
  // ---------------------------------------------------------------------

  /** The ids of the fetched jobs, by position. */
  function JobIds(jobs: seq<Job>): (ids: seq<string>)
    ensures |ids| == |jobs|
    ensures forall i :: 0 <= i < |jobs| ==> ids[i] == jobs[i].id
  {
    seq(|jobs|, i requires 0 <= i < |jobs| => jobs[i].id)
  }

  function StoredRows(c: Company, scrapeDate: string, rows: seq<ClusterRow>): (r: seq<OutcomeRow>)
    ensures |r| == |rows|
    ensures forall k :: 0 <= k < |rows| ==> r[k] == OutcomeRow(c.id, c.name, scrapeDate, rows[k])
  {
    seq(|rows|, k requires 0 <= k < |rows| => OutcomeRow(c.id, c.name, scrapeDate, rows[k]))
  }

  /** `clusterJobOutcomes(companyName, jobs)` as the `call`-th model call
      of the run. */
  type Clusterer = (string, seq<Job>, nat) -> Result<seq<Cluster>>

  /** What lies outside the step: the clustering call, the per-company
      job query (`None` for an error or no data) and the outcome of each
      company's insert. */
  datatype Env = Env(
    cluster: Clusterer,
    jobsOf: string -> Option<seq<Job>>,
    insertOk: (string, seq<OutcomeRow>) -> bool)

  /** The environment of a run: clustering asks the model `llm` and reads
      its reply with `parse`. */
  function Wired(llm: Llm, parse: Parser, jobsOf: string -> Option<seq<Job>>,
                 insertOk: (string, seq<OutcomeRow>) -> bool): (env: Env)
    ensures forall name, jobs, n :: env.cluster(name, jobs, n) == ClusterJobOutcomes(name, jobs, llm, parse, n)
    ensures env.jobsOf == jobsOf && env.insertOk == insertOk
  {
    Env((name: string, jobs: seq<Job>, n: nat) => ClusterJobOutcomes(name, jobs, llm, parse, n), jobsOf, insertOk)
  }

  /** The running total, the number of model calls so far and the writes. */
  datatype State = State(total: nat, calls: nat, writes: seq<Write<OutcomeRow>>)

  function Start(scrapeDate: string): State {
    State(0, 0, [Cleared(scrapeDate)])
  }

  /** One pass of the loop over companies. A company without jobs (or whose
      job query failed) is skipped without the delay; otherwise the model
      is called once. */
  function CompanyStep(scrapeDate: string, env: Env, c: Company, s: State): State {
    var jobs := env.jobsOf(c.id);
    if jobs.None? || jobs.value == [] then s
    else
      AfterReply(scrapeDate, env, c, JobIds(jobs.value),
        env.cluster(c.name, jobs.value, s.calls),
        State(s.total, s.calls + 1, s.writes))
  }

  /** A reply that decodes to nothing skips the company without the delay;
      a thrown error (from the model) is caught and followed by the delay. */
  function AfterReply(scrapeDate: string, env: Env, c: Company, ids: seq<string>,
                      clustered: Result<seq<Cluster>>, s: State): State {
    if clustered.Err? then Pause(s)
    else if clustered.value == [] then s
    else AfterRows(scrapeDate, env, c, ClusterRows(clustered.value, ids), s)
  }

  /** Mapping an index may throw (caught, then the delay); otherwise the rows
      are inserted, counted only if the insert succeeds, and the delay
      follows. */
  function AfterRows(scrapeDate: string, env: Env, c: Company, rows: Option<seq<ClusterRow>>, s: State): State {
    if rows.None? then Pause(s)
    else
      var stored := StoredRows(c, scrapeDate, rows.value);
      var ok := env.insertOk(c.id, stored);
      Pause(State(if ok then s.total + |stored| else s.total, s.calls, s.writes + [Inserted(stored, ok)]))
  }

  /** The delay at the end of a pass. */
  function Pause(s: State): State {
    State(s.total, s.calls, s.writes + [Slept(CompanyDelayMs)])
  }

  function RunCompanies(scrapeDate: string, env: Env, companies: seq<Company>): State {
    if companies == [] then Start(scrapeDate)
    else CompanyStep(scrapeDate, env, companies[|companies| - 1],
                     RunCompanies(scrapeDate, env, companies[..|companies| - 1]))
  }

  /** The whole step: the error of the company query, or the number of
      stored outcomes, together with the writes. */
  function Generated(scrapeDate: string, companiesQuery: Result<seq<Company>>, env: Env)
    : (Result<nat>, seq<Write<OutcomeRow>>)
  {
    if companiesQuery.Err? then (Err("Failed to fetch companies: " + companiesQuery.error), [])
    else if companiesQuery.value == [] then (Ok(0), [])
    else
      var s := RunCompanies(scrapeDate, env, companiesQuery.value);
      (Ok(s.total), s.writes)
  }

  /** The body of the loop over companies, for one company. */
  method ProcessCompany(scrapeDate: string, env: Env, c: Company,
                        total: nat, calls: nat, writes: seq<Write<OutcomeRow>>)
    returns (total': nat, calls': nat, writes': seq<Write<OutcomeRow>>)
    ensures State(total', calls', writes') == CompanyStep(scrapeDate, env, c, State(total, calls, writes))
  {
    total', calls', writes' := total, calls, writes;
    var jobs := env.jobsOf(c.id);
    if jobs.None? || |jobs.value| == 0 {
      return;
    }
    var ids := JobIds(jobs.value);
    var outcomes := env.cluster(c.name, jobs.value, calls);
    calls' := calls + 1;
    if outcomes.Err? {
      writes' := writes + [Slept(CompanyDelayMs)];
      return;
    }
    if |outcomes.value| == 0 {
      return;
    }
    var rows := ClusterRows(outcomes.value, ids);
    if rows.Some? {
      var stored := StoredRows(c, scrapeDate, rows.value);
      var ok := env.insertOk(c.id, stored);
      writes' := writes' + [Inserted(stored, ok)];
      if ok {
        total' := total + |stored|;
      }
    }
    writes' := writes' + [Slept(CompanyDelayMs)];
  }

  /** `generatePMOutcomes(scrapeDate)`. `companiesQuery` is the result of the
      query for the companies scraped on the date (no data counts as no
      companies). */
  method GeneratePmOutcomes(scrapeDate: string, companiesQuery: Result<seq<Company>>, env: Env)
    returns (r: Result<nat>, writes: seq<Write<OutcomeRow>>)
    ensures (r, writes) == Generated(scrapeDate, companiesQuery, env)
  {
    if companiesQuery.Err? {
      return Err("Failed to fetch companies: " + companiesQuery.error), [];
    }
    var companies := companiesQuery.value;
    if |companies| == 0 {
      return Ok(0), [];
    }
    writes := [Cleared(scrapeDate)];
    var total: nat := 0;
    var calls: nat := 0;
    for i := 0 to |companies|
      invariant State(total, calls, writes) == RunCompanies(scrapeDate, env, companies[..i])
    {
      assert companies[..i + 1][..i] == companies[..i];
      total, calls, writes := ProcessCompany(scrapeDate, env, companies[i], total, calls, writes);
    }
    assert companies[..|companies|] == companies;
    return Ok(total), writes;
  }

  // ---------------------------------------------------------------------
  // Properties
  // ---------------------------------------------------------------------

  /** An outcome row points only at jobs of its own company. */
  predicate Grounded(env: Env, row: OutcomeRow) {
    var jobs := env.jobsOf(row.companyId);
    jobs.Some? && forall x :: x in row.cluster.ids ==> x in JobIds(jobs.value)
  }

  /** What every state of the loop satisfies: the clear comes first and
      only once; every insert holds one to five rows of the date, each
      grounded, with a job count no smaller than its id list; and the total
      is the number of rows the successful inserts stored. */
  predicate Consistent(scrapeDate: string, env: Env, s: State) {
    && |s.writes| >= 1 && s.writes[0] == Cleared(scrapeDate)
    && s.total == StoredCount(s.writes)
    && forall k :: 1 <= k < |s.writes| ==> GoodWrite(scrapeDate, env, s.writes[k])
  }

  predicate GoodWrite(scrapeDate: string, env: Env, w: Write<OutcomeRow>) {
    !w.Cleared? && (w.Inserted? ==> GoodInsert(scrapeDate, env, w.rows))
  }

  predicate GoodInsert(scrapeDate: string, env: Env, rows: seq<OutcomeRow>) {
    1 <= |rows| <= MaxRows && forall row :: row in rows ==> GoodRow(scrapeDate, env, row)
  }

  predicate GoodRow(scrapeDate: string, env: Env, row: OutcomeRow) {
    row.scrapedDate == scrapeDate && Grounded(env, row) && |row.cluster.ids| <= row.cluster.count
  }

  lemma CompanyStepConsistent(scrapeDate: string, env: Env, c: Company, s: State)
    requires Consistent(scrapeDate, env, s)
    ensures Consistent(scrapeDate, env, CompanyStep(scrapeDate, env, c, s))
  {
    var jobs := env.jobsOf(c.id);
    if jobs.Some? && jobs.value != [] {
      var clustered := env.cluster(c.name, jobs.value, s.calls);
      var s1 := State(s.total, s.calls + 1, s.writes);
      if clustered.Ok? && clustered.value != [] {
        RowsKeepConsistent(scrapeDate, env, c, clustered.value, s1);
      } else if clustered.Err? {
        PauseKeepsConsistent(scrapeDate, env, s1);
      }
    }
  }

  lemma RowsKeepConsistent(scrapeDate: string, env: Env, c: Company, clusters: seq<Cluster>, s: State)
    requires Consistent(scrapeDate, env, s)
    requires clusters != [] && env.jobsOf(c.id).Some?
    ensures Consistent(scrapeDate, env,
      AfterRows(scrapeDate, env, c, ClusterRows(clusters, JobIds(env.jobsOf(c.id).value)), s))
  {
    var ids := JobIds(env.jobsOf(c.id).value);
    var rows := ClusterRows(clusters, ids);
    if rows.Some? {
      ClusterRowsShape(clusters, ids);
      var stored := StoredRows(c, scrapeDate, rows.value);
      forall row | row in stored ensures GoodRow(scrapeDate, env, row) {
        var k :| 0 <= k < |stored| && stored[k] == row;
        assert row.cluster == rows.value[k];
      }
      InsertKeepsConsistent(scrapeDate, env, s, stored, env.insertOk(c.id, stored));
    } else {
      PauseKeepsConsistent(scrapeDate, env, s);
    }
  }

  lemma PauseKeepsConsistent(scrapeDate: string, env: Env, s: State)
    requires Consistent(scrapeDate, env, s)
    ensures Consistent(scrapeDate, env, Pause(s))
  {
    StoredCountAppend(s.writes, Slept(CompanyDelayMs));
  }

  lemma InsertKeepsConsistent(scrapeDate: string, env: Env, s: State, stored: seq<OutcomeRow>, ok: bool)
    requires Consistent(scrapeDate, env, s)
    requires GoodInsert(scrapeDate, env, stored)
    ensures Consistent(scrapeDate, env,
      Pause(State(if ok then s.total + |stored| else s.total, s.calls, s.writes + [Inserted(stored, ok)])))
  {
    StoredCountAppend(s.writes, Inserted(stored, ok));
    PauseKeepsConsistent(scrapeDate, env,
      State(if ok then s.total + |stored| else s.total, s.calls, s.writes + [Inserted(stored, ok)]));
  }

  lemma {:induction false} RunCompaniesConsistent(scrapeDate: string, env: Env, companies: seq<Company>)
    ensures Consistent(scrapeDate, env, RunCompanies(scrapeDate, env, companies))
  {
    if companies != [] {
      RunCompaniesConsistent(scrapeDate, env, companies[..|companies| - 1]);
      CompanyStepConsistent(scrapeDate, env, companies[|companies| - 1],
                            RunCompanies(scrapeDate, env, companies[..|companies| - 1]));
    } else {
      var w: Write<OutcomeRow> := Cleared(scrapeDate);
      StoredCountAppend([], w);
      assert [] + [w] == [w];
    }
  }

  /** A company without jobs, or whose job query failed, changes nothing:
      no rows, no model call, no delay. */
  lemma NoJobsNoRows(scrapeDate: string, env: Env, c: Company, s: State)
    requires env.jobsOf(c.id).None? || env.jobsOf(c.id).value == []
    ensures CompanyStep(scrapeDate, env, c, s) == s
  {
  }

  /** The companies with jobs, each of which costs one model call. */
  function WithJobs(env: Env, companies: seq<Company>): nat {
    if companies == [] then 0
    else
      var j := env.jobsOf(companies[|companies| - 1].id);
      WithJobs(env, companies[..|companies| - 1]) + (if j.Some? && j.value != [] then 1 else 0)
  }

  lemma {:induction false} RunCompaniesCalls(scrapeDate: string, env: Env, companies: seq<Company>)
    ensures RunCompanies(scrapeDate, env, companies).calls == WithJobs(env, companies)
  {
    if companies != [] {
      RunCompaniesCalls(scrapeDate, env, companies[..|companies| - 1]);
    }
  }

  /** At most five rows per company are counted. */
  lemma {:induction false} RunCompaniesBound(scrapeDate: string, env: Env, companies: seq<Company>)
    ensures RunCompanies(scrapeDate, env, companies).total <= MaxRows * |companies|
  {
    if companies != [] {
      var init := companies[..|companies| - 1];
      RunCompaniesBound(scrapeDate, env, init);
      var s := RunCompanies(scrapeDate, env, init);
      var c := companies[|companies| - 1];
      var jobs := env.jobsOf(c.id);
      if jobs.Some? && jobs.value != [] {
        var clustered := env.cluster(c.name, jobs.value, s.calls);
        if clustered.Ok? && clustered.value != [] {
          ClusterRowsShape(clustered.value, JobIds(jobs.value));
        }
      }
    }
  }

  /** The step's result: the company query's error, with nothing written;
      no writes when there are no companies; otherwise one model call per
      company with jobs, the clear first, and a total equal to the rows
      successfully stored, five at most per company. */
  lemma GeneratedFacts(scrapeDate: string, companiesQuery: Result<seq<Company>>, env: Env)
    ensures var (r, writes) := Generated(scrapeDate, companiesQuery, env);
      && (companiesQuery.Err? <==> r.Err?)
      && (companiesQuery.Err? ==> r.error == "Failed to fetch companies: " + companiesQuery.error && writes == [])
      && (companiesQuery.Ok? && companiesQuery.value == [] ==> r == Ok(0) && writes == [])
      && (companiesQuery.Ok? && companiesQuery.value != [] ==>
            && Consistent(scrapeDate, env, State(r.value, WithJobs(env, companiesQuery.value), writes))
            && r.value == StoredCount(writes)
            && r.value <= MaxRows * |companiesQuery.value|)
  {
    if companiesQuery.Ok? && companiesQuery.value != [] {
      RunCompaniesConsistent(scrapeDate, env, companiesQuery.value);
      RunCompaniesCalls(scrapeDate, env, companiesQuery.value);
      RunCompaniesBound(scrapeDate, env, companiesQuery.value);
    }
  }
}
