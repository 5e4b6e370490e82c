/**
  The review-scraping step (agent/steps/fetchReviews.ts): for every app, the
  fifty most recent store reviews are fetched and the low-rating ones (one
  to three stars) turned into review records; the apps are handled in
  batches of ten, each batch's records are upserted together, and the
  number of newly inserted reviews is summed.
 */
module FetchReviews {
  import opened Wrappers
  import opened Text
  import opened Tally

  const Concurrency: nat := 10
  const MaxRating: int := 3
  const ReviewsPerApp: nat := 50
  const PauseMs: nat := 500

  // ---------------------------------------------------------------------
  // One app
  // ---------------------------------------------------------------------

  /** The fields of an app record this step reads. */
  datatype App = App(appId: string, name: string)

  /** A review as the store scraper returns it. */
  datatype StoreReview = StoreReview(id: string, userName: string, score: int, title: string, text: string, updated: string)

  /** A row of the reviews table; `reviewDate` is `None` where the source
      leaves it undefined. */
  datatype ReviewRecord = ReviewRecord(
    appId: string, itunesId: string, rating: int, title: string, body: string, author: string,
    reviewDate: Option<string>)

  /** The parameters of the store query for one app: the most recent
      reviews, first page, fifty of them, US store. */
  datatype Query = Query(appId: string, country: string, sortRecent: bool, page: nat, num: nat)

  /** What the step depends on: the store scraper (an error is a rejected
      promise), the conversion of a date string to ISO form (`None` where
      the date is invalid and `toISOString` throws), and the outcome of
      upserting a batch's records, by batch index. */
  datatype Env = Env(
    store: Query -> Result<seq<StoreReview>>,
    toIso: string -> Option<string>,
    upsert: (nat, seq<ReviewRecord>) -> Reply)

  /** The error and the `count` an upsert answers with. */
  datatype Reply = Reply(error: Option<string>, count: Option<nat>)

  function QueryFor(app: App): (q: Query)
    ensures q.appId == app.appId && q.country == "us" && q.sortRecent
    ensures q.page == 1 && q.num == ReviewsPerApp
  {
    Query(app.appId, "us", true, 1, ReviewsPerApp)
  }

  /** The reviews with at most three stars, in their order. */
  function LowRated(raw: seq<StoreReview>): (r: seq<StoreReview>)
    ensures |r| <= |raw|
    ensures forall x :: x in r <==> x in raw && x.score <= MaxRating
  {
    if raw == [] then []
    else
      var init := LowRated(raw[..|raw| - 1]);
      var last := raw[|raw| - 1];
      assert raw == raw[..|raw| - 1] + [last];
      if last.score <= MaxRating then init + [last] else init
  }

  /** The filter keeps the order and every occurrence: it distributes over
      concatenation. */
  lemma {:induction false} LowRatedAppend(a: seq<StoreReview>, b: seq<StoreReview>)
    ensures LowRated(a + b) == LowRated(a) + LowRated(b)
    decreases |b|
  {
    if b == [] {
      assert a + b == a;
    } else {
      var init := b[..|b| - 1];
      assert (a + b)[..|a + b| - 1] == a + init;
      LowRatedAppend(a, init);
    }
  }

  /** One review is kept exactly when it has at most three stars. */
  lemma LowRatedOne(x: StoreReview)
    ensures LowRated([x]) == if x.score <= MaxRating then [x] else []
  {
  }

  /** `updated ? new Date(updated).toISOString() : undefined`; an invalid
      date makes the conversion throw. */
  function ReviewDate(updated: string, env: Env): (r: Result<Option<string>>)
    ensures updated == "" ==> r == Ok(None)
    ensures updated != "" ==> (r.Err? <==> env.toIso(updated).None?)
    ensures updated != "" && r.Ok? ==> r.value == env.toIso(updated)
  {
    if updated == "" then Ok(None)
    else match env.toIso(updated)
      case None => Err("Invalid time value")
      case Some(d) => Ok(Some(d))
  }

  /** The record for one kept review. */
  function ToRecord(app: App, r: StoreReview, env: Env): (rec: Result<ReviewRecord>)
    ensures rec.Err? <==> ReviewDate(r.updated, env).Err?
    ensures rec.Ok? ==> rec.value.appId == app.appId && rec.value.itunesId == r.id
    ensures rec.Ok? ==> rec.value.rating == r.score && rec.value.body == r.text
    ensures rec.Ok? ==> rec.value.title == r.title && rec.value.author == r.userName
    ensures rec.Ok? ==> rec.value.reviewDate == ReviewDate(r.updated, env).value
  {
    match ReviewDate(r.updated, env)
      case Err(e) => Err(e)
      case Ok(date) => Ok(ReviewRecord(app.appId, r.id, r.score, r.title, r.text, r.userName, date))
  }

  /** The records of `kept`, in order, or the first conversion that throws
      (which abandons the whole `map`). */
  function Records(app: App, kept: seq<StoreReview>, env: Env): (r: Result<seq<ReviewRecord>>)
    ensures r.Ok? <==> forall k :: 0 <= k < |kept| ==> ToRecord(app, kept[k], env).Ok?
    ensures r.Ok? ==> |r.value| == |kept|
    ensures r.Ok? ==> forall k :: 0 <= k < |kept| ==> r.value[k] == ToRecord(app, kept[k], env).value
  {
    if kept == [] then Ok([])
    else
      var init := kept[..|kept| - 1];
      var last := ToRecord(app, kept[|kept| - 1], env);
      match Records(app, init, env)
        case Err(e) => Err(e)
        case Ok(recs) =>
          if last.Err? then Err(last.error) else Ok(recs + [last.value])
  }

  /** `fetchReviewsForApp`: the records of the app's low-rating reviews;
      a failure of any kind is reported and yields no records. */
  function ReviewsForApp(app: App, env: Env): seq<ReviewRecord> {
    match env.store(QueryFor(app))
      case Err(_) => []
      case Ok(raw) =>
        match Records(app, LowRated(raw), env)
          case Err(_) => []
          case Ok(recs) => recs
  }

  /** Every record comes from a review of this app with at most three stars
      and carries its rating, body and id; a failed fetch gives no records. */
  lemma ReviewsForAppOrigin(app: App, env: Env)
    ensures env.store(QueryFor(app)).Err? ==> ReviewsForApp(app, env) == []
    ensures forall rec :: rec in ReviewsForApp(app, env) ==>
      rec.appId == app.appId && rec.rating <= MaxRating &&
      exists r :: r in env.store(QueryFor(app)).value && r.score <= MaxRating &&
        rec.rating == r.score && rec.body == r.text && rec.itunesId == r.id
  {
    var q := env.store(QueryFor(app));
    if q.Ok? && Records(app, LowRated(q.value), env).Ok? {
      var kept := LowRated(q.value);
      var recs := Records(app, kept, env).value;
      forall rec | rec in recs
        ensures rec.appId == app.appId && rec.rating <= MaxRating &&
          exists r :: r in q.value && r.score <= MaxRating &&
            rec.rating == r.score && rec.body == r.text && rec.itunesId == r.id
      {
        RecordOrigin(app, kept, env, rec);
      }
    }
  }

  lemma RecordOrigin(app: App, kept: seq<StoreReview>, env: Env, rec: ReviewRecord)
    requires Records(app, kept, env).Ok? && rec in Records(app, kept, env).value
    ensures rec.appId == app.appId
    ensures exists r :: r in kept && rec.rating == r.score && rec.body == r.text && rec.itunesId == r.id
  {
    var recs := Records(app, kept, env).value;
    var k :| 0 <= k < |recs| && recs[k] == rec;
    assert kept[k] in kept;
  }

  /** When the fetch succeeds and every kept date converts, there is exactly
      one record per kept review, in order. */
  lemma ReviewsForAppComplete(app: App, env: Env, raw: seq<StoreReview>)
    requires env.store(QueryFor(app)) == Ok(raw)
    requires forall r :: r in LowRated(raw) ==> ToRecord(app, r, env).Ok?
    ensures |ReviewsForApp(app, env)| == |LowRated(raw)|
    ensures forall k :: 0 <= k < |LowRated(raw)| ==>
      ReviewsForApp(app, env)[k].rating == LowRated(raw)[k].score <= MaxRating &&
      ReviewsForApp(app, env)[k].body == LowRated(raw)[k].text &&
      ReviewsForApp(app, env)[k].itunesId == LowRated(raw)[k].id
  {
    var kept := LowRated(raw);
    assert forall k :: 0 <= k < |kept| ==> kept[k] in kept;
  }

  /** One app's records, as the batch's `map` applies it. */
  function PerApp(env: Env): (f: App -> seq<ReviewRecord>)
    ensures forall app :: f(app) == ReviewsForApp(app, env)
  {
    app => ReviewsForApp(app, env)
  }

  /** The records of a batch's apps, flattened in app order
      (`batchResults.flat()`). */
  function Flat(apps: seq<App>, env: Env): seq<ReviewRecord> {
    FlatMap(apps, PerApp(env))
  }

  /** An app whose fetch fails contributes nothing and takes nothing away:
      the other apps' records are flattened as if it were absent. */
  lemma FailedAppSkipped(a: seq<App>, app: App, b: seq<App>, env: Env)
    requires env.store(QueryFor(app)).Err?
    ensures Flat(a + [app] + b, env) == Flat(a, env) + Flat(b, env)
  {
    FlatMapSkip(a, app, b, PerApp(env));
  }

  // ---------------------------------------------------------------------
  // The batch loop
  // ---------------------------------------------------------------------

  /** One upserted batch: its index, the records sent, the reply, the
      progress line printed after it (apps done, reviews inserted so far),
      and the pause in milliseconds taken after it. */
  datatype Batch = Batch(number: nat, records: seq<ReviewRecord>, reply: Reply, processed: nat, insertedSoFar: nat,
                         pauseMs: nat)

  /** The running total and the batches upserted so far. */
  datatype Run = Run(total: nat, log: seq<Batch>)

  const Start: Run := Run(0, [])

  /** What an upsert adds to the total: `count ?? 0`, and nothing when it
      reports an error. */
  function Credit(reply: Reply): nat {
    if reply.error.Some? then 0 else if reply.count.Some? then reply.count.value else 0
  }

  /** The sum of the credits of `log`. */
  function Credited(log: seq<Batch>): nat {
    if log == [] then 0 else Credited(log[..|log| - 1]) + Credit(log[|log| - 1].reply)
  }

  /** All the records sent, in order. */
  function Sent(log: seq<Batch>): seq<ReviewRecord> {
    if log == [] then [] else Sent(log[..|log| - 1]) + log[|log| - 1].records
  }

  /** One iteration for the batch starting at app `start` of `n`: a batch
      without records is skipped; otherwise its records are upserted, the
      total is credited, the progress is logged, and a pause follows. */
  function Step(run: Run, start: nat, batch: seq<App>, n: nat, env: Env): (r: Run)
    ensures Flat(batch, env) == [] ==> r == run
    ensures Flat(batch, env) != [] ==>
      var reply := env.upsert(start / Concurrency, Flat(batch, env));
      r.total == run.total + Credit(reply) &&
      r.log == run.log + [Batch(start / Concurrency, Flat(batch, env), reply, Min(start + Concurrency, n), r.total, PauseMs)]
  {
    var all := Flat(batch, env);
    if all == [] then run
    else
      var reply := env.upsert(start / Concurrency, all);
      var total := if reply.error.None? then run.total + (if reply.count.Some? then reply.count.value else 0) else run.total;
      Run(total, run.log + [Batch(start / Concurrency, all, reply, Min(start + Concurrency, n), total, PauseMs)])
  }

  /** The iterations over `batches`, the first of which has index `k`, out
      of `n` apps. */
  function Steps(batches: seq<seq<App>>, k: nat, n: nat, run: Run, env: Env): Run
    decreases |batches|
  {
    if batches == [] then run
    else Steps(batches[1..], k + 1, n, Step(run, Concurrency * k, batches[0], n, env), env)
  }

  /** `fetchReviews`: the apps cut into consecutive batches of ten, each
      handled in turn. */
  function Reviewed(apps: seq<App>, env: Env): Run {
    Steps(Chunks(apps, Concurrency), 0, |apps|, Start, env)
  }

  /** The batch starting at app `i` is the first ten-app chunk of what is
      left, and the batches after it are the chunks of what follows it. */
  lemma ChunksFrom(apps: seq<App>, i: nat)
    requires i < |apps|
    ensures var end := Min(i + Concurrency, |apps|);
      Chunks(apps[i..], Concurrency) == [apps[i..end]] + Chunks(apps[end..], Concurrency)
  {
    var end := Min(i + Concurrency, |apps|);
    ChunksHead(apps[i..], Concurrency);
    assert apps[i..][..end - i] == apps[i..end];
    assert apps[i..][end - i..] == apps[end..];
  }

  /** The batches from app `i` on, as the loop visits them: the one
      starting at `i`, then those from `i + 10`. */
  function StepsFrom(apps: seq<App>, i: nat, run: Run, env: Env): Run
    decreases |apps| - i
  {
    if i >= |apps| then run
    else StepsFrom(apps, i + Concurrency, Step(run, i, apps[i..Min(i + Concurrency, |apps|)], |apps|, env), env)
  }

  /** Visiting the batches from app `i` on is handling the ten-app chunks
      of what is left. */
  lemma {:induction false} StepsFromChunks(apps: seq<App>, i: nat, k: nat, run: Run, env: Env)
    requires i == Concurrency * k
    ensures StepsFrom(apps, i, run, env) == Steps(Chunks(apps[Min(i, |apps|)..], Concurrency), k, |apps|, run, env)
    decreases |apps| - i
  {
    if i >= |apps| {
      assert apps[Min(i, |apps|)..] == [];
    } else {
      assert Min(i, |apps|) == i;
      ChunksFrom(apps, i);
      var after := Step(run, i, apps[i..Min(i + Concurrency, |apps|)], |apps|, env);
      StepsFromChunks(apps, i + Concurrency, k + 1, after, env);
      assert Min(i + Concurrency, |apps|) == Min(Min(i + Concurrency, |apps|), |apps|);
    }
  }

  /** The loop from the first app is the whole step. */
  lemma StepsFromStart(apps: seq<App>, env: Env)
    ensures StepsFrom(apps, 0, Start, env) == Reviewed(apps, env)
  {
    StepsFromChunks(apps, 0, 0, Start, env);
    assert apps[Min(0, |apps|)..] == apps;
  }

  /** The body of the loop for the batch starting at app `i`: slice,
      flatten, skip when empty, otherwise upsert, credit, log and pause. */
  method HandleBatch(apps: seq<App>, i: nat, env: Env, total: nat, log: seq<Batch>)
    returns (total': nat, log': seq<Batch>)
    requires i < |apps|
    ensures Run(total', log') == Step(Run(total, log), i, apps[i..Min(i + Concurrency, |apps|)], |apps|, env)
  {
    var n := |apps|;
    var batch := apps[i..Min(i + Concurrency, n)];
    total', log' := total, log;
    var allReviews := Flat(batch, env);
    if allReviews != [] {
      var reply := env.upsert(i / Concurrency, allReviews);
      if reply.error.None? {
        total' := total' + if reply.count.Some? then reply.count.value else 0;
      }
      var processed := Min(i + Concurrency, n);
      var pause := PauseMs;
      log' := log' + [Batch(i / Concurrency, allReviews, reply, processed, total', pause)];
    }
  }

  /** The loop as the source writes it: the batch is `apps.slice(i, i + 10)`
      for `i = 0, 10, 20, …`, and the batches are flattened, upserted and
      counted in turn. Returns the total and the batches upserted. */
  method FetchReviews(apps: seq<App>, env: Env) returns (totalInserted: nat, log: seq<Batch>)
    ensures Run(totalInserted, log) == Reviewed(apps, env)
  {
    totalInserted, log := 0, [];
    ghost var target := StepsFrom(apps, 0, Start, env);
    StepsFromStart(apps, env);
    var i := 0;
    while i < |apps|
      invariant StepsFrom(apps, i, Run(totalInserted, log), env) == target
      decreases |apps| - i
    {
      totalInserted, log := HandleBatch(apps, i, env, totalInserted, log);
      i := i + Concurrency;
    }
  }

  // ---------------------------------------------------------------------
  // Properties of the loop
  // ---------------------------------------------------------------------

  /** The total is what the upserts so far were credited with, and each
      progress line shows the total up to and including its batch. */
  predicate Tallied(run: Run) {
    run.total == Credited(run.log) &&
    forall j :: 0 <= j < |run.log| ==> run.log[j].insertedSoFar == Credited(run.log[..j + 1])
  }

  lemma StepTallied(run: Run, start: nat, batch: seq<App>, n: nat, env: Env)
    requires Tallied(run)
    ensures Tallied(Step(run, start, batch, n, env))
  {
    var r := Step(run, start, batch, n, env);
    if Flat(batch, env) != [] {
      assert r.log[..|r.log| - 1] == run.log;
      forall j | 0 <= j < |r.log| ensures r.log[j].insertedSoFar == Credited(r.log[..j + 1]) {
        if j < |run.log| {
          assert r.log[..j + 1] == run.log[..j + 1];
        } else {
          assert r.log[..j + 1] == r.log;
        }
      }
    }
  }

  lemma {:induction false} StepsTallied(batches: seq<seq<App>>, k: nat, n: nat, run: Run, env: Env)
    requires Tallied(run)
    ensures Tallied(Steps(batches, k, n, run, env))
    decreases |batches|
  {
    if batches != [] {
      StepTallied(run, Concurrency * k, batches[0], n, env);
      StepsTallied(batches[1..], k + 1, n, Step(run, Concurrency * k, batches[0], n, env), env);
    }
  }

  /** The records sent are the batches' records, in batch order; a skipped
      batch had none to send. */
  lemma {:induction false} StepsSent(batches: seq<seq<App>>, k: nat, n: nat, run: Run, env: Env)
    ensures Sent(Steps(batches, k, n, run, env).log) == Sent(run.log) + Flat(Concat(batches), env)
    decreases |batches|
  {
    if batches != [] {
      var next := Step(run, Concurrency * k, batches[0], n, env);
      StepsSent(batches[1..], k + 1, n, next, env);
      FlatMapAppend(batches[0], Concat(batches[1..]), PerApp(env));
      if Flat(batches[0], env) != [] {
        assert next.log[..|next.log| - 1] == run.log;
      }
    }
  }

  /** Every logged batch had records and was followed by a `PauseMs`
      pause, its index lies in the range handled and grows from batch to
      batch, and its progress value is the number of apps up to the end of
      that batch. */
  predicate Logged(log: seq<Batch>, n: nat) {
    (forall j :: 0 <= j < |log| ==> log[j].records != [] && log[j].pauseMs == PauseMs) &&
    (forall j :: 0 <= j < |log| ==> log[j].processed == Min(Concurrency * (log[j].number + 1), n)) &&
    (forall i, j :: 0 <= i < j < |log| ==> log[i].number < log[j].number)
  }

  /** The indexes logged so far are all below `k`. */
  predicate Below(log: seq<Batch>, k: nat) {
    forall j :: 0 <= j < |log| ==> log[j].number < k
  }

  lemma StepLogged(run: Run, k: nat, batch: seq<App>, n: nat, env: Env)
    requires Logged(run.log, n) && Below(run.log, k)
    ensures var r := Step(run, Concurrency * k, batch, n, env);
      Logged(r.log, n) && Below(r.log, k + 1) && |r.log| <= |run.log| + 1
  {
    var r := Step(run, Concurrency * k, batch, n, env);
    if Flat(batch, env) != [] {
      assert (Concurrency * k) / Concurrency == k;
      assert Concurrency * k + Concurrency == Concurrency * (k + 1);
      AppendLogged(run.log, r.log[|run.log|], n, k);
    }
  }

  /** A line for batch `k` with records and the progress after it keeps the
      log well formed. */
  lemma AppendLogged(log: seq<Batch>, b: Batch, n: nat, k: nat)
    requires Logged(log, n) && Below(log, k)
    requires b.number == k && b.records != [] && b.pauseMs == PauseMs && b.processed == Min(Concurrency * (k + 1), n)
    ensures Logged(log + [b], n) && Below(log + [b], k + 1)
  {
  }

  lemma {:induction false} StepsLogged(batches: seq<seq<App>>, k: nat, n: nat, run: Run, env: Env)
    requires Logged(run.log, n) && Below(run.log, k)
    ensures var r := Steps(batches, k, n, run, env);
      Logged(r.log, n) && Below(r.log, k + |batches|) && |r.log| <= |run.log| + |batches|
    decreases |batches|
  {
    if batches != [] {
      StepLogged(run, k, batches[0], n, env);
      StepsLogged(batches[1..], k + 1, n, Step(run, Concurrency * k, batches[0], n, env), env);
    }
  }

  /** What the step promises overall: the batches are ten-app chunks
      covering the apps in order; the total is the sum of `count ?? 0` over
      the upserts that reported no error; every record of every app is sent
      exactly once, in app order, with apps whose fetch failed contributing
      none; only batches with records are upserted, at most one upsert per
      batch; each progress line shows `min(i + 10, apps.length)`; and every
      upserted batch, the last one included, is followed by a `PauseMs`
      pause. */
  lemma ReviewedFacts(apps: seq<App>, env: Env)
    ensures Concat(Chunks(apps, Concurrency)) == apps
    ensures Reviewed(apps, env).total == Credited(Reviewed(apps, env).log)
    ensures Sent(Reviewed(apps, env).log) == Flat(apps, env)
    ensures |Reviewed(apps, env).log| <= |Chunks(apps, Concurrency)|
    ensures Logged(Reviewed(apps, env).log, |apps|)
    ensures forall j :: 0 <= j < |Reviewed(apps, env).log| ==>
      Reviewed(apps, env).log[j].number < |Chunks(apps, Concurrency)| &&
      Reviewed(apps, env).log[j].insertedSoFar == Credited(Reviewed(apps, env).log[..j + 1])
  {
    var batches := Chunks(apps, Concurrency);
    var r := Reviewed(apps, env);
    ChunksConcat(apps, Concurrency);
    StepsTallied(batches, 0, |apps|, Start, env);
    StepsSent(batches, 0, |apps|, Start, env);
    StepsLogged(batches, 0, |apps|, Start, env);
  }
}
