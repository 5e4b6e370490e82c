/**
  Step 5 of the daily run (agent/steps/generateOpportunities.ts): for every
  app with complaints on the run date, ask the model to group the app's
  complaints into opportunities, and store at most five of them per app with
  the ids of the complaints each one covers. The rows of the run date are
  cleared first, so a re-run replaces them.
 */
module Opportunities {
  import opened Wrappers
  import opened Json
  import opened Text
  import opened Tally
  import opened Groq
  import opened Clusters

  /** A complaint of the run date as the per-app query returns it (highest
      severity first, at most 100: the ordering and the limit are the
      database's). */
  datatype StoredComplaint = StoredComplaint(id: string, text: string, category: string, severity: int)

  /** One row of the `apps` lookup. */
  datatype AppName = AppName(appId: string, name: string)

  /** One stored opportunity. */
  datatype OpportunityRow = OpportunityRow(appId: string, runDate: string, cluster: ClusterRow)

  const OpportunityMaxTokens: nat := 2048
  const AppDelayMs: nat := 1000

  // ---------------------------------------------------------------------
  // clusterComplaints
  // ---------------------------------------------------------------------

  /** `[i] [category] (severity s) text`. */
  function ComplaintLine(i: nat, c: StoredComplaint): (line: string)
    ensures StartsWith(line, IndexTag(i))
  {
    var line := IndexTag(i) + "[" + c.category + "] (severity " + IntToString(c.severity) + ") " + c.text;
    assert line[..|IndexTag(i)|] == IndexTag(i);
    line
  }

  function ComplaintLines(complaints: seq<StoredComplaint>): (lines: seq<string>)
    ensures |lines| == |complaints|
    ensures forall i :: 0 <= i < |complaints| ==> lines[i] == ComplaintLine(i, complaints[i])
  {
    seq(|complaints|, i requires 0 <= i < |complaints| => ComplaintLine(i, complaints[i]))
  }

  function ClusterPrompt(appName: string, complaints: seq<StoredComplaint>): string {
    "App: " + appName + "\n\nComplaints (" + NatToString(|complaints|) + " total):\n"
      + Join(ComplaintLines(complaints), "\n")
      + "\n\nGroup these into 3-5 MECE product opportunities. Return JSON array."
  }

  function ClusterRequest(appName: string, complaints: seq<StoredComplaint>): Request {
    Request(OpportunityClustering, OpportunityMaxTokens, ClusterPrompt(appName, complaints))
  }

  /** Line `i` of the prompt is complaint `i`, tagged with its position, so
      an index the model returns names the complaint at that position. */
  lemma PromptTagsPositions(complaints: seq<StoredComplaint>, k: nat)
    requires k < |complaints|
    ensures StartsWith(ComplaintLines(complaints)[k], IndexTag(k))
    ensures 0 < k ==>
      Join(ComplaintLines(complaints), "\n")
        == Join(ComplaintLines(complaints)[..k], "\n") + "\n" + Join(ComplaintLines(complaints)[k..], "\n")
    ensures StartsWith(Join(ComplaintLines(complaints)[k..], "\n"), ComplaintLine(k, complaints[k]))
  {
    var lines := ComplaintLines(complaints);
    if 0 < k {
      JoinSplit(lines, "\n", k);
    }
    JoinAt(lines[k..], "\n", 0);
  }

  /** `clusterComplaints(appName, complaints)` as the `call`-th model call:
      the error it throws, or the decoded opportunities. */
  function ClusterComplaints(appName: string, complaints: seq<StoredComplaint>, llm: Llm, parse: Parser, call: nat)
    : Result<seq<Cluster>>
  {
    match llm(ClusterRequest(appName, complaints), call)
    case Failed(msg) => Err(msg)
    case Replied(content) =>
      Ok(DecodeClusters(parse(StripFences(RawText(content))), "opportunities", "complaint_indices"))
  }

  // ---------------------------------------------------------------------
  // generateOpportunities
  // ---------------------------------------------------------------------

  /** `appNameMap.get(appId) ?? appId`, where the map is built from the
      lookup rows in order (a later row for the same app wins). */
  function NameOf(names: seq<AppName>, appId: string): (r: string)
    ensures (forall k :: 0 <= k < |names| ==> names[k].appId != appId) ==> r == appId
    ensures forall k ::
      (0 <= k < |names| && names[k].appId == appId && forall k' :: k < k' < |names| ==> names[k'].appId != appId)
        ==> r == names[k].name
  {
    if names == [] then appId
    else
      var init := names[..|names| - 1];
      var last := names[|names| - 1];
      assert forall k :: 0 <= k < |init| ==> init[k] == names[k];
      if last.appId == appId then last.name else NameOf(init, appId)
  }

  /** The ids of the fetched complaints, by position. */
  function ComplaintIds(complaints: seq<StoredComplaint>): (ids: seq<string>)
    ensures |ids| == |complaints|
    ensures forall i :: 0 <= i < |complaints| ==> ids[i] == complaints[i].id
  {
    seq(|complaints|, i requires 0 <= i < |complaints| => complaints[i].id)
  }

  function StoredRows(appId: string, runDate: string, rows: seq<ClusterRow>): (r: seq<OpportunityRow>)
    ensures |r| == |rows|
    ensures forall k :: 0 <= k < |rows| ==> r[k] == OpportunityRow(appId, runDate, rows[k])
  {
    seq(|rows|, k requires 0 <= k < |rows| => OpportunityRow(appId, runDate, rows[k]))
  }

  /** `clusterComplaints(appName, complaints)` as the `call`-th model call
      of the run. */
  type Clusterer = (string, seq<StoredComplaint>, nat) -> Result<seq<Cluster>>

  /** What lies outside the step: the clustering call, the per-app
      complaint query (`None` for an error or no data) and the outcome of
      each app's insert. */
  datatype Env = Env(
    cluster: Clusterer,
    complaintsOf: string -> Option<seq<StoredComplaint>>,
    insertOk: (string, seq<OpportunityRow>) -> bool)

  /** The environment of a run: clustering asks the model `llm` and reads
      its reply with `parse`. */
  function Wired(llm: Llm, parse: Parser, complaintsOf: string -> Option<seq<StoredComplaint>>,
                 insertOk: (string, seq<OpportunityRow>) -> bool): (env: Env)
    ensures forall name, complaints, n :: env.cluster(name, complaints, n) == ClusterComplaints(name, complaints, llm, parse, n)
    ensures env.complaintsOf == complaintsOf && env.insertOk == insertOk
  {
    Env((name: string, complaints: seq<StoredComplaint>, n: nat) => ClusterComplaints(name, complaints, llm, parse, n),
        complaintsOf, insertOk)
  }

  /** The running total, the number of model calls so far and the writes. */
  datatype State = State(total: nat, calls: nat, writes: seq<Write<OpportunityRow>>)

  function Start(runDate: string): State {
    State(0, 0, [Cleared(runDate)])
  }

  /** One pass of the loop over apps. An app without complaints is skipped
      without the delay; otherwise the model is called once. */
  function AppStep(runDate: string, names: seq<AppName>, env: Env, appId: string, s: State): State {
    var complaints := env.complaintsOf(appId);
    if complaints.None? || complaints.value == [] then s
    else
      AfterReply(runDate, env, appId, ComplaintIds(complaints.value),
        env.cluster(NameOf(names, appId), complaints.value, s.calls),
        State(s.total, s.calls + 1, s.writes))
  }

  /** A reply that decodes to nothing skips the app without the delay; a
      thrown error (from the model) is caught and followed by the delay. */
  function AfterReply(runDate: string, env: Env, appId: string, ids: seq<string>,
                      clustered: Result<seq<Cluster>>, s: State): State {
    if clustered.Err? then Pause(s)
    else if clustered.value == [] then s
    else AfterRows(runDate, env, appId, ClusterRows(clustered.value, ids), s)
  }

  /** Mapping an index may throw (caught, then the delay); otherwise the rows
      are inserted, counted only if the insert succeeds, and the delay
      follows. */
  function AfterRows(runDate: string, env: Env, appId: string, rows: Option<seq<ClusterRow>>, s: State): State {
    if rows.None? then Pause(s)
    else
      var stored := StoredRows(appId, runDate, rows.value);
      var ok := env.insertOk(appId, stored);
      Pause(State(if ok then s.total + |stored| else s.total, s.calls, s.writes + [Inserted(stored, ok)]))
  }

  /** The delay at the end of a pass. */
  function Pause(s: State): State {
    State(s.total, s.calls, s.writes + [Slept(AppDelayMs)])
  }

  function RunApps(runDate: string, names: seq<AppName>, env: Env, appIds: seq<string>): State {
    if appIds == [] then Start(runDate)
    else AppStep(runDate, names, env, appIds[|appIds| - 1], RunApps(runDate, names, env, appIds[..|appIds| - 1]))
  }

  /** The whole step: the error of the app query, or the number of stored
      opportunities, together with the writes. */
  function Generated(runDate: string, appsQuery: Result<seq<string>>, names: seq<AppName>, env: Env)
    : (Result<nat>, seq<Write<OpportunityRow>>)
  {
    if appsQuery.Err? then (Err("Failed to fetch apps: " + appsQuery.error), [])
    else
      var appIds := Distinct(appsQuery.value);
      if appIds == [] then (Ok(0), [])
      else
        var s := RunApps(runDate, names, env, appIds);
        (Ok(s.total), s.writes)
  }

  /** The body of the loop over apps, for one app. */
  method ProcessApp(runDate: string, names: seq<AppName>, env: Env, appId: string,
                    total: nat, calls: nat, writes: seq<Write<OpportunityRow>>)
    returns (total': nat, calls': nat, writes': seq<Write<OpportunityRow>>)
    ensures State(total', calls', writes') == AppStep(runDate, names, env, appId, State(total, calls, writes))
  {
    total', calls', writes' := total, calls, writes;
    var appName := NameOf(names, appId);
    var complaints := env.complaintsOf(appId);
    if complaints.None? || |complaints.value| == 0 {
      return;
    }
    var ids := ComplaintIds(complaints.value);
    var clustered := env.cluster(appName, complaints.value, calls);
    calls' := calls + 1;
    if clustered.Err? {
      writes' := writes + [Slept(AppDelayMs)];
      return;
    }
    if |clustered.value| == 0 {
      return;
    }
    var rows := ClusterRows(clustered.value, ids);
    if rows.Some? {
      var stored := StoredRows(appId, runDate, rows.value);
      var ok := env.insertOk(appId, stored);
      writes' := writes' + [Inserted(stored, ok)];
      if ok {
        total' := total + |stored|;
      }
    }
    writes' := writes' + [Slept(AppDelayMs)];
  }

  /** `generateOpportunities(runDate)`. `appsQuery` is the `app_id` column of
      the run date's complaints, `names` the `apps` lookup (empty when it
      fails: its error is ignored). */
  method GenerateOpportunities(runDate: string, appsQuery: Result<seq<string>>, names: seq<AppName>, env: Env)
    returns (r: Result<nat>, writes: seq<Write<OpportunityRow>>)
    ensures (r, writes) == Generated(runDate, appsQuery, names, env)
  {
    if appsQuery.Err? {
      return Err("Failed to fetch apps: " + appsQuery.error), [];
    }
    var appIds := Distinct(appsQuery.value);
    if |appIds| == 0 {
      return Ok(0), [];
    }
    writes := [Cleared(runDate)];
    var total: nat := 0;
    var calls: nat := 0;
    for i := 0 to |appIds|
      invariant State(total, calls, writes) == RunApps(runDate, names, env, appIds[..i])
    {
      assert appIds[..i + 1][..i] == appIds[..i];
      total, calls, writes := ProcessApp(runDate, names, env, appIds[i], total, calls, writes);
    }
    assert appIds[..|appIds|] == appIds;
    return Ok(total), writes;
  }

  // ---------------------------------------------------------------------
  // Properties
  // ---------------------------------------------------------------------

  /** An opportunity row points only at complaints of its own app. */
  predicate Grounded(env: Env, row: OpportunityRow) {
    var complaints := env.complaintsOf(row.appId);
    complaints.Some? && forall x :: x in row.cluster.ids ==> x in ComplaintIds(complaints.value)
  }

  /** What every state of the loop satisfies: the clear comes first and
      only once; every insert holds one to five rows of the run date, each
      grounded, with a count no smaller than its id list; and the total is
      the number of rows the successful inserts stored. */
  predicate Consistent(runDate: string, env: Env, s: State) {
    && |s.writes| >= 1 && s.writes[0] == Cleared(runDate)
    && s.total == StoredCount(s.writes)
    && forall k :: 1 <= k < |s.writes| ==> GoodWrite(runDate, env, s.writes[k])
  }

  predicate GoodWrite(runDate: string, env: Env, w: Write<OpportunityRow>) {
    !w.Cleared? && (w.Inserted? ==> GoodInsert(runDate, env, w.rows))
  }

  predicate GoodInsert(runDate: string, env: Env, rows: seq<OpportunityRow>) {
    1 <= |rows| <= MaxRows && forall row :: row in rows ==> GoodRow(runDate, env, row)
  }

  predicate GoodRow(runDate: string, env: Env, row: OpportunityRow) {
    row.runDate == runDate && Grounded(env, row) && |row.cluster.ids| <= row.cluster.count
  }

  lemma AppStepConsistent(runDate: string, names: seq<AppName>, env: Env, appId: string, s: State)
    requires Consistent(runDate, env, s)
    ensures Consistent(runDate, env, AppStep(runDate, names, env, appId, s))
  {
    var complaints := env.complaintsOf(appId);
    if complaints.Some? && complaints.value != [] {
      var clustered := env.cluster(NameOf(names, appId), complaints.value, s.calls);
      var s1 := State(s.total, s.calls + 1, s.writes);
      ReplyKeepsConsistent(runDate, env, appId, clustered, s1);
      AppStepReply(runDate, names, env, appId, s);
    }
  }

  /** An app with complaints is handled by its reply. */
  lemma AppStepReply(runDate: string, names: seq<AppName>, env: Env, appId: string, s: State)
    requires env.complaintsOf(appId).Some? && env.complaintsOf(appId).value != []
    ensures var complaints := env.complaintsOf(appId).value;
      AppStep(runDate, names, env, appId, s)
        == AfterReply(runDate, env, appId, ComplaintIds(complaints),
             env.cluster(NameOf(names, appId), complaints, s.calls),
             State(s.total, s.calls + 1, s.writes))
  {
  }

  /** Whatever the model replies, handling the reply keeps the run
      consistent. */
  lemma ReplyKeepsConsistent(runDate: string, env: Env, appId: string, clustered: Result<seq<Cluster>>, s: State)
    requires Consistent(runDate, env, s) && env.complaintsOf(appId).Some?
    ensures Consistent(runDate, env, AfterReply(runDate, env, appId, ComplaintIds(env.complaintsOf(appId).value), clustered, s))
  {
    if clustered.Ok? && clustered.value != [] {
      RowsKeepConsistent(runDate, env, appId, clustered.value, s);
    } else if clustered.Err? {
      PauseKeepsConsistent(runDate, env, s);
    }
  }

  lemma RowsKeepConsistent(runDate: string, env: Env, appId: string, clusters: seq<Cluster>, s: State)
    requires Consistent(runDate, env, s)
    requires clusters != [] && env.complaintsOf(appId).Some?
    ensures Consistent(runDate, env,
      AfterRows(runDate, env, appId, ClusterRows(clusters, ComplaintIds(env.complaintsOf(appId).value)), s))
  {
    var ids := ComplaintIds(env.complaintsOf(appId).value);
    var rows := ClusterRows(clusters, ids);
    if rows.Some? {
      ClusterRowsShape(clusters, ids);
      var stored := StoredRows(appId, runDate, rows.value);
      forall row | row in stored ensures GoodRow(runDate, env, row) {
        var k :| 0 <= k < |stored| && stored[k] == row;
        assert row.cluster == rows.value[k];
      }
      InsertKeepsConsistent(runDate, env, s, stored, env.insertOk(appId, stored));
    } else {
      PauseKeepsConsistent(runDate, env, s);
    }
  }

  lemma PauseKeepsConsistent(runDate: string, env: Env, s: State)
    requires Consistent(runDate, env, s)
    ensures Consistent(runDate, env, Pause(s))
  {
    StoredCountAppend(s.writes, Slept(AppDelayMs));
  }

  lemma InsertKeepsConsistent(runDate: string, env: Env, s: State, stored: seq<OpportunityRow>, ok: bool)
    requires Consistent(runDate, env, s)
    requires GoodInsert(runDate, env, stored)
    ensures Consistent(runDate, env,
      Pause(State(if ok then s.total + |stored| else s.total, s.calls, s.writes + [Inserted(stored, ok)])))
  {
    StoredCountAppend(s.writes, Inserted(stored, ok));
    PauseKeepsConsistent(runDate, env,
      State(if ok then s.total + |stored| else s.total, s.calls, s.writes + [Inserted(stored, ok)]));
  }

  lemma {:induction false} RunAppsConsistent(runDate: string, names: seq<AppName>, env: Env, appIds: seq<string>)
    ensures Consistent(runDate, env, RunApps(runDate, names, env, appIds))
  {
    if appIds != [] {
      RunAppsConsistent(runDate, names, env, appIds[..|appIds| - 1]);
      AppStepConsistent(runDate, names, env, appIds[|appIds| - 1], RunApps(runDate, names, env, appIds[..|appIds| - 1]));
    } else {
      var w: Write<OpportunityRow> := Cleared(runDate);
      StoredCountAppend([], w);
      assert [] + [w] == [w];
    }
  }

  /** The apps with complaints to cluster, each of which costs one model
      call. */
  function Queried(env: Env, appIds: seq<string>): nat {
    if appIds == [] then 0
    else
      var c := env.complaintsOf(appIds[|appIds| - 1]);
      Queried(env, appIds[..|appIds| - 1]) + (if c.Some? && c.value != [] then 1 else 0)
  }

  lemma {:induction false} RunAppsCalls(runDate: string, names: seq<AppName>, env: Env, appIds: seq<string>)
    ensures RunApps(runDate, names, env, appIds).calls == Queried(env, appIds)
  {
    if appIds != [] {
      RunAppsCalls(runDate, names, env, appIds[..|appIds| - 1]);
    }
  }

  /** The step's result: the app query's error, with nothing written; no
      writes at all when no app has complaints; otherwise one model call per
      distinct app that has complaints, the clear first, and a total equal
      to the rows successfully stored, five at most per app. */
  lemma GeneratedFacts(runDate: string, appsQuery: Result<seq<string>>, names: seq<AppName>, env: Env)
    ensures var (r, writes) := Generated(runDate, appsQuery, names, env);
      && (appsQuery.Err? <==> r.Err?)
      && (appsQuery.Err? ==> r.error == "Failed to fetch apps: " + appsQuery.error && writes == [])
      && (appsQuery.Ok? && appsQuery.value == [] ==> r == Ok(0) && writes == [])
      && (appsQuery.Ok? && appsQuery.value != [] ==>
            && Consistent(runDate, env, State(r.value, Queried(env, Distinct(appsQuery.value)), writes))
            && r.value == StoredCount(writes)
            && r.value <= MaxRows * |Distinct(appsQuery.value)|)
  {
    if appsQuery.Ok? && appsQuery.value != [] {
      var appIds := Distinct(appsQuery.value);
      assert appsQuery.value[0] in appIds;
      RunAppsConsistent(runDate, names, env, appIds);
      RunAppsCalls(runDate, names, env, appIds);
      RunAppsBound(runDate, names, env, appIds);
    }
  }

  /** At most five rows per app are counted. */
  lemma {:induction false} RunAppsBound(runDate: string, names: seq<AppName>, env: Env, appIds: seq<string>)
    ensures RunApps(runDate, names, env, appIds).total <= MaxRows * |appIds|
  {
    if appIds != [] {
      var init := appIds[..|appIds| - 1];
      RunAppsBound(runDate, names, env, init);
      var s := RunApps(runDate, names, env, init);
      var appId := appIds[|appIds| - 1];
      var complaints := env.complaintsOf(appId);
      if complaints.Some? && complaints.value != [] {
        ReplyBound(runDate, env, appId, ComplaintIds(complaints.value),
          env.cluster(NameOf(names, appId), complaints.value, s.calls),
          State(s.total, s.calls + 1, s.writes));
      }
    }
  }

  /** Handling one reply adds at most five rows to the total. */
  lemma ReplyBound(runDate: string, env: Env, appId: string, ids: seq<string>, clustered: Result<seq<Cluster>>, s: State)
    ensures AfterReply(runDate, env, appId, ids, clustered, s).total <= s.total + MaxRows
  {
    if clustered.Ok? && clustered.value != [] {
      ClusterRowsShape(clustered.value, ids);
    }
  }

  /** The apps are the distinct app ids of the run's complaints, each once,
      in order of first appearance. */
  lemma AppIdsDistinct(column: seq<string>)
    ensures NoDuplicates(Distinct(column))
    ensures forall a :: a in column <==> a in Distinct(column)
  {
    forall a | a in column ensures a in Distinct(column) {
      var i :| 0 <= i < |column| && column[i] == a;
    }
    forall a | a in Distinct(column) ensures a in column {
      var i :| 0 <= i < |Distinct(column)| && Distinct(column)[i] == a;
    }
  }
}
