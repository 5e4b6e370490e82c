/**
  The complaint-analysis step (agent/steps/analyzeComplaints.ts): the
  reviews scraped today that have no complaints for the run date yet are
  cut into batches of twenty, each batch is sent to the language model
  (retrying on rate limits, with the wait the error message suggests), the
  complaints found are tied back to their reviews and stored, and the
  count of complaints is returned.
 */
module AnalyzeComplaints {
  import opened Wrappers
  import opened Json
  import opened Text
  import opened Tally
  import opened Groq

  const BatchSize: nat := 20
  const BatchDelayMs: nat := 6000
  const MaxRetries: nat := 5
  const DefaultWaitMs: nat := 15000

  // ---------------------------------------------------------------------
  // Reviews
  // ---------------------------------------------------------------------

  /** A review as the query returns it; `appCategory` is the joined app's
      category, `None` when that is missing or null. */
  datatype FetchedReview = FetchedReview(
    id: string, appId: string, appCategory: Option<string>, rating: int, title: Option<string>, body: string)

  /** A review with its app category flattened. */
  datatype ReviewRow = ReviewRow(
    id: string, appId: string, appCategory: string, rating: int, title: Option<string>, body: string)

  /** `r.apps?.app_category ?? 'Unknown'`. */
  function FlattenRow(r: FetchedReview): (row: ReviewRow)
    ensures row.id == r.id && row.appId == r.appId && row.rating == r.rating
    ensures row.title == r.title && row.body == r.body
    ensures row.appCategory == (if r.appCategory.Some? then r.appCategory.value else "Unknown")
  {
    ReviewRow(r.id, r.appId, if r.appCategory.Some? then r.appCategory.value else "Unknown", r.rating, r.title, r.body)
  }

  function FlattenRows(reviews: seq<FetchedReview>): (rows: seq<ReviewRow>)
    ensures |rows| == |reviews|
    ensures forall i :: 0 <= i < |reviews| ==> rows[i] == FlattenRow(reviews[i])
  {
    seq(|reviews|, i requires 0 <= i < |reviews| => FlattenRow(reviews[i]))
  }

  /** The review ids that already have complaints for the run date:
      `existing ?? []`, so a failed lookup counts as none. */
  function Existing(query: Option<seq<string>>): seq<string> {
    if query.Some? then query.value else []
  }

  /** The rows whose id is not among `processed`, in their order. */
  function ToProcess(rows: seq<ReviewRow>, processed: seq<string>): (r: seq<ReviewRow>)
    ensures |r| <= |rows|
    ensures forall x :: x in r <==> x in rows && x.id !in processed
  {
    if rows == [] then []
    else
      var init := ToProcess(rows[..|rows| - 1], processed);
      var last := rows[|rows| - 1];
      assert rows == rows[..|rows| - 1] + [last];
      if last.id in processed then init else init + [last]
  }

  /** The filter keeps the order: it distributes over concatenation. */
  lemma {:induction false} ToProcessAppend(a: seq<ReviewRow>, b: seq<ReviewRow>, processed: seq<string>)
    ensures ToProcess(a + b, processed) == ToProcess(a, processed) + ToProcess(b, processed)
    decreases |b|
  {
    if b == [] {
      assert a + b == a;
    } else {
      var init := b[..|b| - 1];
      assert (a + b)[..|a + b| - 1] == a + init;
      ToProcessAppend(a, init, processed);
    }
  }

  /** With nothing processed yet (or a failed lookup) every row is kept. */
  lemma {:induction false} NothingProcessed(rows: seq<ReviewRow>)
    ensures ToProcess(rows, []) == rows
  {
    if rows != [] {
      NothingProcessed(rows[..|rows| - 1]);
    }
  }

  /** Filtering twice changes nothing. */
  lemma {:induction false} ToProcessIdempotent(rows: seq<ReviewRow>, processed: seq<string>)
    ensures ToProcess(ToProcess(rows, processed), processed) == ToProcess(rows, processed)
  {
    if rows != [] {
      var init, last := rows[..|rows| - 1], rows[|rows| - 1];
      ToProcessIdempotent(init, processed);
      if last.id !in processed {
        ToProcessAppend(ToProcess(init, processed), [last], processed);
        assert [last][..0] == [];
      }
    }
  }

  // ---------------------------------------------------------------------
  // Batches
  // ---------------------------------------------------------------------

  /** The loop that pushes `items.slice(i, i + 20)` for `i = 0, 20, 40, ...`. */
  method MakeBatches<T>(items: seq<T>) returns (batches: seq<seq<T>>)
    ensures batches == Chunks(items, BatchSize)
  {
    batches := [];
    var i := 0;
    while i < |items|
      invariant batches + Chunks(items[Min(i, |items|)..], BatchSize) == Chunks(items, BatchSize)
    {
      var end := Min(i + BatchSize, |items|);
      var rest := items[i..];
      ChunksHead(rest, BatchSize);
      assert rest[..if |rest| <= BatchSize then |rest| else BatchSize] == items[i..end];
      assert rest[if |rest| <= BatchSize then |rest| else BatchSize..] == items[end..];
      batches := batches + [items[i..end]];
      i := i + BatchSize;
    }
    assert items[|items|..] == [];
  }

  /** The batches partition the reviews to process: they concatenate back to
      them, all but the last hold twenty reviews, the last one to twenty,
      and there are `ceil(n / 20)` of them. */
  lemma BatchesPartition<T>(items: seq<T>)
    ensures Concat(Chunks(items, BatchSize)) == items
    ensures |Chunks(items, BatchSize)| * BatchSize >= |items|
    ensures |Chunks(items, BatchSize)| == 0 || (|Chunks(items, BatchSize)| - 1) * BatchSize < |items|
    ensures forall k :: 0 <= k < |Chunks(items, BatchSize)| ==> 1 <= |Chunks(items, BatchSize)[k]| <= BatchSize
    ensures forall k :: 0 <= k < |Chunks(items, BatchSize)| - 1 ==> |Chunks(items, BatchSize)[k]| == BatchSize
  {
    ChunksConcat(items, BatchSize);
    ChunksShape(items, BatchSize);
  }

  /** The prompt entries of a batch: index `i` is the review's position in
      the batch, and a missing title is sent as the empty string. */
  function ReviewInputs(batch: seq<ReviewRow>): (inputs: seq<ReviewInput>)
    ensures |inputs| == |batch|
    ensures forall i :: 0 <= i < |batch| ==>
      && inputs[i].index == i
      && inputs[i].rating == batch[i].rating
      && inputs[i].title == (if batch[i].title.Some? then batch[i].title.value else "")
      && inputs[i].body == batch[i].body
  {
    seq(|batch|, i requires 0 <= i < |batch| =>
      ReviewInput(i, batch[i].rating, if batch[i].title.Some? then batch[i].title.value else "", batch[i].body))
  }

  // ---------------------------------------------------------------------
  // Rate limits
  // ---------------------------------------------------------------------

  /** The message of a rate-limit error mentions HTTP 429 or
      `rate_limit_exceeded`. */
  predicate IsRateLimit(msg: string) {
    Includes(msg, "429") || Includes(msg, "rate_limit_exceeded")
  }

  const HintPrefix: string := "try again in "

  /** The number of a wait hint, `whole + fraction / 10^places`; `places` is
      0 when there is no decimal point. */
  datatype Seconds = Seconds(whole: nat, fraction: nat, places: nat)

  predicate AllDigits(s: string) {
    forall i :: 0 <= i < |s| ==> IsDigit(s[i])
  }

  /** The length of the run of decimal digits of `s` from offset `i`. */
  function DigitRun(s: string, i: nat): (n: nat)
    requires i <= |s|
    ensures i + n <= |s|
    decreases |s| - i
  {
    if i == |s| || !IsDigit(s[i]) then 0 else 1 + DigitRun(s, i + 1)
  }

  /** The value of the digits `s[i..j]`. */
  function ValueOf(s: string, i: nat, j: nat): nat
    requires i <= j <= |s|
    decreases j - i
  {
    if i == j then 0 else ValueOf(s, i, j - 1) * 10 + (if IsDigit(s[j - 1]) then DigitValue(s[j - 1]) else 0)
  }

  /** What `(\d+(?:\.\d+)?)s` matches at offset `i` of `s`: greedy digits,
      then either `s`, or a point, at least one digit and `s`. (A point not
      followed by digits and `s` is not part of any match here: backing off
      the greedy digits only puts a digit before the `s`.) */
  function HintAt(s: string, i: nat): Option<Seconds>
    requires i <= |s|
  {
    var n := DigitRun(s, i);
    var p := i + n;
    if n == 0 || p == |s| then None
    else if s[p] == 's' then Some(Seconds(ValueOf(s, i, p), 0, 0))
    else if s[p] == '.' then
      var m := DigitRun(s, p + 1);
      var q := p + 1 + m;
      if m > 0 && q < |s| && s[q] == 's' then Some(Seconds(ValueOf(s, i, p), ValueOf(s, p + 1, q), m))
      else None
    else None
  }

  /** Digits followed by `s` read as whole seconds. */
  lemma HintOfWholeSeconds(a: string, d: string, t: string)
    requires d != [] && AllDigits(d)
    ensures HintAt(a + d + "s" + t, |a|) == Some(Seconds(DigitsValue(d), 0, 0))
  {
    var s := a + d + "s" + t;
    DigitRunOf(s, |a|, d);
    ValueOfDigits(s, |a|, d);
  }

  /** Digits, a point, digits and `s` read as a fractional number. */
  lemma HintOfFraction(a: string, d: string, f: string, t: string)
    requires d != [] && AllDigits(d) && f != [] && AllDigits(f)
    ensures HintAt(a + d + "." + f + "s" + t, |a|) == Some(Seconds(DigitsValue(d), DigitsValue(f), |f|))
  {
    FractionLayout(a, d, f, t);
    FractionAt(a + d + "." + f + "s" + t, |a|, d, f);
  }

  /** Where the parts of `a + d + "." + f + "s" + t` lie. */
  lemma FractionLayout(a: string, d: string, f: string, t: string)
    ensures var s := a + d + "." + f + "s" + t;
      var p := |a| + |d|;
      && p + 1 + |f| < |s|
      && s[|a|..p] == d && s[p] == '.'
      && s[p + 1..p + 1 + |f|] == f && s[p + 1 + |f|] == 's'
  {
    var w := a + d;
    var y := w + "." + f;
    var s := y + "s" + t;
    var p := |a| + |d|;
    assert w[|a|..] == d;
    assert y[..p] == w;
    assert y[p + 1..] == f;
    assert s[..|y|] == y;
    assert s[|a|..p] == y[..p][|a|..];
    assert s[p + 1..p + 1 + |f|] == y[p + 1..];
  }

  /** The digits `d`, a point, the digits `f` and `s` at offset `i`. */
  lemma FractionAt(s: string, i: nat, d: string, f: string)
    requires d != [] && AllDigits(d) && f != [] && AllDigits(f)
    requires i + |d| + 1 + |f| < |s|
    requires s[i..i + |d|] == d && s[i + |d|] == '.'
    requires s[i + |d| + 1..i + |d| + 1 + |f|] == f && s[i + |d| + 1 + |f|] == 's'
    ensures HintAt(s, i) == Some(Seconds(DigitsValue(d), DigitsValue(f), |f|))
  {
    FractionDigitRuns(s, i, d, f);
    FractionRuns(s, i, |d|, |f|);
    FractionValues(s, i, d, f);
  }

  lemma FractionDigitRuns(s: string, i: nat, d: string, f: string)
    requires AllDigits(d) && AllDigits(f)
    requires i + |d| + 1 + |f| < |s|
    requires s[i..i + |d|] == d && s[i + |d|] == '.'
    requires s[i + |d| + 1..i + |d| + 1 + |f|] == f && s[i + |d| + 1 + |f|] == 's'
    ensures DigitRun(s, i) == |d| && DigitRun(s, i + |d| + 1) == |f|
  {
    DigitRunOf(s, i, d);
    DigitRunOf(s, i + |d| + 1, f);
  }

  lemma FractionValues(s: string, i: nat, d: string, f: string)
    requires AllDigits(d) && AllDigits(f)
    requires i + |d| + 1 + |f| < |s|
    requires s[i..i + |d|] == d && s[i + |d| + 1..i + |d| + 1 + |f|] == f
    ensures ValueOf(s, i, i + |d|) == DigitsValue(d)
    ensures ValueOf(s, i + |d| + 1, i + |d| + 1 + |f|) == DigitsValue(f)
  {
    ValueOfDigits(s, i, d);
    ValueOfDigits(s, i + |d| + 1, f);
  }

  /** Runs of `n` and `m` digits around a point, then `s`. */
  lemma FractionRuns(s: string, i: nat, n: nat, m: nat)
    requires i + n + 1 + m < |s| && n > 0 && m > 0
    requires DigitRun(s, i) == n && s[i + n] == '.'
    requires DigitRun(s, i + n + 1) == m && s[i + n + 1 + m] == 's'
    ensures HintAt(s, i) == Some(Seconds(ValueOf(s, i, i + n), ValueOf(s, i + n + 1, i + n + 1 + m), m))
  {
  }

  /** The digit run at offset `i` is `d` when `d` is followed by a non-digit. */
  lemma {:induction false} DigitRunOf(s: string, i: nat, d: string)
    requires AllDigits(d) && i + |d| < |s| && s[i..i + |d|] == d && !IsDigit(s[i + |d|])
    ensures DigitRun(s, i) == |d|
    decreases |d|
  {
    if d != [] {
      assert s[i] == d[0];
      assert s[i + 1..i + 1 + |d[1..]|] == d[1..];
      DigitRunOf(s, i + 1, d[1..]);
    }
  }

  /** The value read at offset `i` is that of the digits `d` found there. */
  lemma {:induction false} ValueOfDigits(s: string, i: nat, d: string)
    requires AllDigits(d) && i + |d| <= |s| && s[i..i + |d|] == d
    ensures ValueOf(s, i, i + |d|) == DigitsValue(d)
    decreases |d|
  {
    if d != [] {
      var d' := d[..|d| - 1];
      assert s[i..i + |d'|] == d';
      ValueOfDigits(s, i, d');
      assert s[i + |d| - 1] == d[|d| - 1];
    }
  }

  /** A hint starts at offset `i`: the prefix, then a number and `s`. */
  predicate HintFoundAt(msg: string, i: nat) {
    OccursAt(msg, HintPrefix, i) && HintAt(msg, i + |HintPrefix|).Some?
  }

  /** The offset of the first hint at or after `from`. */
  function FirstHint(msg: string, from: nat): (r: Option<nat>)
    ensures r.Some? ==> r.value + |HintPrefix| <= |msg|
    decreases |msg| - from
  {
    if from >= |msg| then None
    else if HintFoundAt(msg, from) then Some(from)
    else FirstHint(msg, from + 1)
  }

  /** The search stops at the leftmost hint at or after `from`, or finds
      none when there is none. */
  lemma FirstHintSpec(msg: string, from: nat)
    ensures var r := FirstHint(msg, from);
      && (r.Some? ==> from <= r.value && HintFoundAt(msg, r.value))
      && (r.Some? ==> forall j: nat :: from <= j < r.value ==> !HintFoundAt(msg, j))
      && (r.None? ==> forall j: nat :: from <= j ==> !HintFoundAt(msg, j))
  {
    FirstHintFound(msg, from);
    FirstHintSkipped(msg, from);
    FirstHintAbsent(msg, from);
  }

  lemma {:induction false} FirstHintFound(msg: string, from: nat)
    ensures var r := FirstHint(msg, from);
      r.Some? ==> from <= r.value && HintFoundAt(msg, r.value)
    decreases |msg| - from
  {
    if from < |msg| && !HintFoundAt(msg, from) {
      FirstHintFound(msg, from + 1);
    }
  }

  lemma {:induction false} FirstHintSkipped(msg: string, from: nat)
    ensures var r := FirstHint(msg, from);
      r.Some? ==> forall j: nat :: from <= j < r.value ==> !HintFoundAt(msg, j)
    decreases |msg| - from
  {
    if from < |msg| && !HintFoundAt(msg, from) {
      FirstHintSkipped(msg, from + 1);
    }
  }

  lemma {:induction false} FirstHintAbsent(msg: string, from: nat)
    ensures FirstHint(msg, from).None? ==> forall j: nat :: from <= j ==> !HintFoundAt(msg, j)
    decreases |msg| - from
  {
    if from < |msg| && !HintFoundAt(msg, from) {
      FirstHintAbsent(msg, from + 1);
    }
  }

  /** The number of the first match of `/try again in (\d+(?:\.\d+)?)s/` in
      `msg` (where the regular expression's leftmost match begins). */
  function FindHint(msg: string): Option<Seconds> {
    var p := FirstHint(msg, 0);
    if p.None? then None else HintAt(msg, p.value + |HintPrefix|)
  }

  /** The hint found is the one at the leftmost offset where the prefix is
      followed by a number and `s`; there is none exactly when no offset
      has one. */
  lemma FindHintLeftmost(msg: string, i: nat)
    requires HintFoundAt(msg, i)
    requires forall j: nat :: j < i ==> !HintFoundAt(msg, j)
    ensures FindHint(msg) == HintAt(msg, i + |HintPrefix|)
  {
    FirstHintSpec(msg, 0);
  }

  lemma FindHintNone(msg: string)
    ensures FindHint(msg).None? <==> forall i: nat :: !HintFoundAt(msg, i)
  {
    FirstHintSpec(msg, 0);
  }

  function Pow10(k: nat): (p: nat)
    ensures p >= 1
  {
    if k == 0 then 1 else 10 * Pow10(k - 1)
  }

  /** `Math.ceil(a / b)` for a non-negative `a`: the least `q` with
      `a <= q * b`. */
  function CeilDiv(a: nat, b: nat): (q: nat)
    requires b > 0
    ensures a <= q * b
    ensures q == 0 || (q - 1) * b < a
  {
    var q := (a + b - 1) / b;
    assert q * b <= a + b - 1 < q * b + b;
    q
  }

  lemma CeilDivExact(m: nat, b: nat)
    requires b > 0
    ensures CeilDiv(m * b, b) == m
  {
    var q := CeilDiv(m * b, b);
  }

  /** The hinted seconds in thousandths, as a fraction over `10^places`. */
  function HintNumerator(h: Seconds): nat {
    (h.whole * Pow10(h.places) + h.fraction) * 1000
  }

  /** `Math.ceil(parseFloat(x) * 1000) + 500`, in exact arithmetic: the least
      whole number of milliseconds not below the hinted time, plus 500. */
  function HintWaitMs(h: Seconds): (ms: nat)
    ensures 500 <= ms
    ensures HintNumerator(h) <= (ms - 500) * Pow10(h.places)
    ensures ms == 500 || (ms - 501) * Pow10(h.places) < HintNumerator(h)
  {
    CeilDiv(HintNumerator(h), Pow10(h.places)) + 500
  }

  /** The wait before a retry: from the first hint in the message, or 15 s
      when there is none. */
  function WaitMs(msg: string): nat {
    var h := FindHint(msg);
    if h.Some? then HintWaitMs(h.value) else DefaultWaitMs
  }

  /** No hint anywhere: 15 seconds; a hint: at least half a second. */
  lemma WaitDefault(msg: string)
    ensures WaitMs(msg) == DefaultWaitMs <== forall i: nat :: !OccursAt(msg, HintPrefix, i)
    ensures WaitMs(msg) >= 500
  {
    FindHintNone(msg);
  }

  /** A message that opens with a hint of whole seconds waits that many
      seconds and half a second more. */
  lemma WholeSecondsWait(x: nat, t: string)
    ensures WaitMs(HintPrefix + NatToString(x) + "s" + t) == x * 1000 + 500
  {
    var msg := HintPrefix + NatToString(x) + "s" + t;
    assert HintAt(msg, |HintPrefix|) == Some(Seconds(x, 0, 0)) by {
      HintOfWholeSeconds(HintPrefix, NatToString(x), t);
      NatToStringRoundTrip(x);
    }
    assert WaitMs(msg) == HintWaitMs(Seconds(x, 0, 0)) by {
      LeadingHint(msg, NatToString(x) + "s" + t, Seconds(x, 0, 0));
    }
    WholeSecondsWaitMs(x);
  }

  lemma WholeSecondsWaitMs(x: nat)
    ensures HintWaitMs(Seconds(x, 0, 0)) == x * 1000 + 500
  {
    assert HintNumerator(Seconds(x, 0, 0)) == x * 1000 * 1;
    CeilDivExact(x * 1000, 1);
  }

  /** One decimal is carried exactly: `try again in 1.5s` waits 2000 ms. */
  lemma TenthsWait(x: nat, d: nat, t: string)
    requires d < 10
    ensures WaitMs(HintPrefix + NatToString(x) + "." + [DigitChar(d)] + "s" + t) == x * 1000 + d * 100 + 500
  {
    var f := [DigitChar(d)];
    var msg := HintPrefix + NatToString(x) + "." + f + "s" + t;
    assert HintAt(msg, |HintPrefix|) == Some(Seconds(x, d, 1)) by {
      HintOfFraction(HintPrefix, NatToString(x), f, t);
      NatToStringRoundTrip(x);
      assert f[..0] == [];
      assert DigitsValue(f) == d;
    }
    assert WaitMs(msg) == HintWaitMs(Seconds(x, d, 1)) by {
      LeadingHint(msg, NatToString(x) + "." + f + "s" + t, Seconds(x, d, 1));
    }
    TenthsWaitMs(x, d);
  }

  lemma TenthsWaitMs(x: nat, d: nat)
    ensures HintWaitMs(Seconds(x, d, 1)) == x * 1000 + d * 100 + 500
  {
    assert Pow10(1) == 10;
    assert HintNumerator(Seconds(x, d, 1)) == (x * 1000 + d * 100) * 10;
    CeilDivExact(x * 1000 + d * 100, 10);
  }

  /** A message that opens with the prefix and a number waits by that
      number. */
  lemma LeadingHint(msg: string, tail: string, h: Seconds)
    requires msg == HintPrefix + tail && HintAt(msg, |HintPrefix|) == Some(h)
    ensures WaitMs(msg) == HintWaitMs(h)
  {
    assert msg[0..|HintPrefix|] == HintPrefix;
    FindHintLeftmost(msg, 0);
  }

  /** The outcome of the retry loop for one batch: the last extraction's
      result, the call counter after it, and the rate-limit messages of the
      attempts that were retried, in order. */
  datatype Attempts = Attempts(result: Result<seq<ExtractedComplaint>>, calls: nat, limited: seq<string>)

  type Extractor = nat -> Result<seq<ExtractedComplaint>>

  function Extraction(inputs: seq<ReviewInput>, llm: Llm, parse: Parser): Extractor {
    (n: nat) => ExtractComplaints(inputs, llm, parse, n)
  }

  function RetryFrom(extract: Extractor, call: nat, attempt: nat, limited: seq<string>): (a: Attempts)
    requires attempt <= MaxRetries
    ensures call + 1 <= a.calls <= call + 1 + MaxRetries - attempt
    ensures |a.limited| == |limited| + a.calls - call - 1
    decreases MaxRetries - attempt
  {
    var e := extract(call);
    if e.Ok? || !IsRateLimit(e.error) || attempt >= MaxRetries then Attempts(e, call + 1, limited)
    else RetryFrom(extract, call + 1, attempt + 1, limited + [e.error])
  }

  function Retried(extract: Extractor, call: nat): (a: Attempts)
    ensures call + 1 <= a.calls <= call + 1 + MaxRetries
    ensures |a.limited| == a.calls - call - 1
  {
    RetryFrom(extract, call, 0, [])
  }

  predicate RateLimitedAt(extract: Extractor, call: nat, msg: string) {
    extract(call) == Err(msg) && IsRateLimit(msg)
  }

  /** The loop ends with the last extraction's result, which is a success,
      an error that is not a rate limit, or the error of the last allowed
      call. */
  lemma {:induction false} RetryFromResult(extract: Extractor, call: nat, attempt: nat, limited: seq<string>)
    requires attempt <= MaxRetries
    ensures var a := RetryFrom(extract, call, attempt, limited);
      && a.result == extract(a.calls - 1)
      && (a.result.Err? ==> !IsRateLimit(a.result.error) || a.calls == call + 1 + MaxRetries - attempt)
    decreases MaxRetries - attempt
  {
    var e := extract(call);
    if !(e.Ok? || !IsRateLimit(e.error) || attempt >= MaxRetries) {
      RetryFromResult(extract, call + 1, attempt + 1, limited + [e.error]);
    }
  }

  /** Every call before the last failed with a rate limit, whose message is
      recorded in order after those already there (the first of those
      already there was recorded for call `base`). */
  lemma {:induction false} RetryFromLimited(extract: Extractor, base: nat, call: nat, attempt: nat, limited: seq<string>)
    requires attempt <= MaxRetries && call == base + |limited|
    ensures var a := RetryFrom(extract, call, attempt, limited);
      && a.limited[..|limited|] == limited
      && forall k :: |limited| <= k < |a.limited| ==> RateLimitedAt(extract, base + k, a.limited[k])
    decreases MaxRetries - attempt
  {
    var e := extract(call);
    if !(e.Ok? || !IsRateLimit(e.error) || attempt >= MaxRetries) {
      var limited' := limited + [e.error];
      RetryFromLimited(extract, base, call + 1, attempt + 1, limited');
      var a := RetryFrom(extract, call + 1, attempt + 1, limited');
      assert a.limited[..|limited'|] == limited';
      assert a.limited[..|limited|] == limited'[..|limited|];
      assert a.limited[|limited|] == limited'[|limited|];
    } else {
      assert limited[..|limited|] == limited;
    }
  }

  lemma RetriedOutcome(extract: Extractor, call: nat)
    ensures var a := Retried(extract, call);
      && a.result == extract(a.calls - 1)
      && (a.result.Err? ==> !IsRateLimit(a.result.error) || a.calls == call + 1 + MaxRetries)
      && forall j :: 0 <= j < |a.limited| ==> RateLimitedAt(extract, call + j, a.limited[j])
  {
    var none: seq<string> := [];
    RetryFromResult(extract, call, 0, none);
    RetryFromLimited(extract, call, call, 0, none);
  }

  lemma NoRetryOtherErrors(extract: Extractor, call: nat)
    requires extract(call).Err? && !IsRateLimit(extract(call).error)
    ensures Retried(extract, call) == Attempts(extract(call), call + 1, [])
  {
  }

  /** The waits the rate-limit messages hint at, in order. */
  function Waits(limited: seq<string>): (w: seq<nat>)
    ensures |w| == |limited|
  {
    if limited == [] then [] else Waits(limited[..|limited| - 1]) + [WaitMs(limited[|limited| - 1])]
  }

  lemma WaitsSnoc(limited: seq<string>, msg: string)
    ensures Waits(limited + [msg]) == Waits(limited) + [WaitMs(msg)]
  {
    assert (limited + [msg])[..|limited|] == limited;
  }

  /** A rate-limited call with retries left is retried. */
  lemma RetryFromStep(extract: Extractor, call: nat, attempt: nat, limited: seq<string>)
    requires attempt < MaxRetries && extract(call).Err? && IsRateLimit(extract(call).error)
    ensures RetryFrom(extract, call, attempt, limited) == RetryFrom(extract, call + 1, attempt + 1, limited + [extract(call).error])
  {
  }

  method ExtractWithRetry(extract: Extractor, call: nat)
    returns (r: Result<seq<ExtractedComplaint>>, calls: nat, waits: seq<nat>)
    ensures var a := Retried(extract, call); r == a.result && calls == a.calls && waits == Waits(a.limited)
  {
    calls, waits := call, [];
    var attempt: nat := 0;
    ghost var limited: seq<string> := [];
    ghost var goal := Retried(extract, call);
    while true
      invariant attempt <= MaxRetries && calls == call + attempt
      invariant RetryFrom(extract, calls, attempt, limited) == goal
      invariant waits == Waits(limited)
      decreases MaxRetries - attempt
    {
      var e := extract(calls);
      if e.Ok? || !IsRateLimit(e.error) || attempt >= MaxRetries {
        RetryFromLast(extract, calls, attempt, limited);
        return e, calls + 1, waits;
      }
      RetryFromStep(extract, calls, attempt, limited);
      WaitsSnoc(limited, e.error);
      waits := waits + [WaitMs(e.error)];
      limited := limited + [e.error];
      attempt := attempt + 1;
      calls := calls + 1;
    }
  }

  /** A call that succeeds, fails otherwise, or has no retry left ends the
      loop. */
  lemma RetryFromLast(extract: Extractor, call: nat, attempt: nat, limited: seq<string>)
    requires attempt <= MaxRetries
    requires extract(call).Ok? || !IsRateLimit(extract(call).error) || attempt >= MaxRetries
    ensures RetryFrom(extract, call, attempt, limited) == Attempts(extract(call), call + 1, limited)
  {
  }

  // ---------------------------------------------------------------------
  // Complaints
  // ---------------------------------------------------------------------

  /** A stored complaint. */
  datatype ComplaintRecord = ComplaintRecord(
    reviewId: string, appId: string, appCategory: string,
    complaintCategory: string, complaintText: string, severity: real, runDate: string)

  /** `Math.min(5, Math.max(1, s))`. */
  function Clamp(s: real): (r: real)
    ensures 1.0 <= r <= 5.0
    ensures 1.0 <= s <= 5.0 ==> r == s
    ensures s < 1.0 ==> r == 1.0
    ensures s > 5.0 ==> r == 5.0
  {
    if s > 5.0 then 5.0 else if s < 1.0 then 1.0 else s
  }

  /** The record for complaint `c` of review `review`. */
  function Record(review: ReviewRow, c: ExtractedComplaint, runDate: string): ComplaintRecord {
    ComplaintRecord(review.id, review.appId, review.appCategory, c.complaintCategory, c.complaintText,
                    Clamp(c.severity), runDate)
  }

  /** `batch[c.review_index]`, and the record for it when it exists. */
  function MapComplaint(batch: seq<ReviewRow>, c: ExtractedComplaint, runDate: string): Option<ComplaintRecord> {
    if IsIndex(c.reviewIndex, |batch|) then Some(Record(batch[IndexOf(c.reviewIndex, |batch|)], c, runDate))
    else None
  }

  /** The complaints of a batch mapped to records, dropping those whose
      index names no review of the batch. */
  function MapComplaints(batch: seq<ReviewRow>, extracted: seq<ExtractedComplaint>, runDate: string)
    : (r: seq<ComplaintRecord>)
    ensures |r| <= |extracted|
  {
    if extracted == [] then []
    else
      var init := MapComplaints(batch, extracted[..|extracted| - 1], runDate);
      var m := MapComplaint(batch, extracted[|extracted| - 1], runDate);
      if m.Some? then init + [m.value] else init
  }

  /** A record is the mapping of one of the complaints, and every complaint
      whose index names a review of the batch is mapped. */
  lemma {:induction false} MapComplaintsSpec(batch: seq<ReviewRow>, extracted: seq<ExtractedComplaint>, runDate: string)
    ensures forall rec :: rec in MapComplaints(batch, extracted, runDate) ==>
      exists c :: c in extracted && MapComplaint(batch, c, runDate) == Some(rec)
    ensures forall c :: c in extracted && IsIndex(c.reviewIndex, |batch|) ==>
      Record(batch[IndexOf(c.reviewIndex, |batch|)], c, runDate) in MapComplaints(batch, extracted, runDate)
  {
    if extracted != [] {
      var init := extracted[..|extracted| - 1];
      var last := extracted[|extracted| - 1];
      MapComplaintsSpec(batch, init, runDate);
      assert extracted == init + [last];
    }
  }

  /** The complaints whose `review_index` names a review of a batch of
      `n`, in order. */
  function InRange(extracted: seq<ExtractedComplaint>, n: nat): (r: seq<ExtractedComplaint>)
    ensures forall c :: c in r ==> c in extracted && IsIndex(c.reviewIndex, n)
  {
    if extracted == [] then []
    else (if IsIndex(extracted[0].reviewIndex, n) then [extracted[0]] else []) + InRange(extracted[1..], n)
  }

  lemma {:induction false} InRangeSnoc(init: seq<ExtractedComplaint>, last: ExtractedComplaint, n: nat)
    ensures InRange(init + [last], n) == InRange(init, n) + if IsIndex(last.reviewIndex, n) then [last] else []
  {
    if init == [] {
      assert [] + [last] == [last];
      assert [last][1..] == [];
    } else {
      assert (init + [last])[1..] == init[1..] + [last];
      InRangeSnoc(init[1..], last, n);
    }
  }

  /** The records are exactly one per complaint whose index names a review
      of the batch, in the complaints' order, each for the review it names. */
  lemma {:induction false} MapComplaintsInOrder(batch: seq<ReviewRow>, extracted: seq<ExtractedComplaint>, runDate: string)
    ensures var kept := InRange(extracted, |batch|);
      var r := MapComplaints(batch, extracted, runDate);
      && |r| == |kept|
      && forall i :: 0 <= i < |kept| ==> r[i] == Record(batch[IndexOf(kept[i].reviewIndex, |batch|)], kept[i], runDate)
  {
    if extracted != [] {
      var init := extracted[..|extracted| - 1];
      var last := extracted[|extracted| - 1];
      assert extracted == init + [last];
      MapComplaintsInOrder(batch, init, runDate);
      InRangeSnoc(init, last, |batch|);
    }
  }

  /** Every record comes from a review of the batch: its ids and app
      category are that review's, its severity is clamped into [1, 5] and
      its run date is the run's. */
  predicate FromBatch(batch: seq<ReviewRow>, runDate: string, rec: ComplaintRecord) {
    && rec.runDate == runDate
    && 1.0 <= rec.severity <= 5.0
    && exists k :: 0 <= k < |batch| && rec.reviewId == batch[k].id && rec.appId == batch[k].appId
                   && rec.appCategory == batch[k].appCategory
  }

  lemma MappedFromBatch(batch: seq<ReviewRow>, extracted: seq<ExtractedComplaint>, runDate: string)
    ensures forall rec :: rec in MapComplaints(batch, extracted, runDate) ==> FromBatch(batch, runDate, rec)
  {
    MapComplaintsSpec(batch, extracted, runDate);
    forall rec | rec in MapComplaints(batch, extracted, runDate) ensures FromBatch(batch, runDate, rec) {
      var c :| c in extracted && MapComplaint(batch, c, runDate) == Some(rec);
      var k := IndexOf(c.reviewIndex, |batch|);
      assert rec.reviewId == batch[k].id;
    }
  }

  // ---------------------------------------------------------------------
  // The batch loop
  // ---------------------------------------------------------------------

  /** What the loop does besides computing: inserts (with their outcome),
      the waits of the retry loop, and the pause between batches. */
  datatype Effect = Stored(records: seq<ComplaintRecord>, ok: bool) | Backoff(ms: nat) | Paced(ms: nat)

  /** The extraction of a batch's inputs, and the outcome of inserting a
      batch's records (by batch number). */
  datatype Env = Env(extract: seq<ReviewInput> -> Extractor, insertOk: (nat, seq<ComplaintRecord>) -> bool)

  /** The environment of a run: extraction asks the model `llm` and reads
      its reply with `parse`. */
  function Wired(llm: Llm, parse: Parser, insertOk: (nat, seq<ComplaintRecord>) -> bool): (env: Env)
    ensures forall inputs, n :: env.extract(inputs)(n) == ExtractComplaints(inputs, llm, parse, n)
    ensures env.insertOk == insertOk
  {
    Env((inputs: seq<ReviewInput>) => Extraction(inputs, llm, parse), insertOk)
  }

  /** The running total, the model calls so far, the effects, and the error
      that aborted the loop, if any. */
  datatype Run = Run(total: nat, calls: nat, effects: seq<Effect>, failure: Option<string>)

  function Backoffs(waits: seq<nat>): (r: seq<Effect>)
    ensures |r| == |waits|
    ensures forall j :: 0 <= j < |waits| ==> r[j] == Backoff(waits[j])
  {
    seq(|waits|, j requires 0 <= j < |waits| => Backoff(waits[j]))
  }

  /** Batch `i` of `batches`. Once an error has been thrown nothing more
      happens. */
  function BatchStep(runDate: string, env: Env, batches: seq<seq<ReviewRow>>, i: nat, s: Run): Run
    requires i < |batches|
  {
    if s.failure.Some? then s
    else AfterAttempts(runDate, env, batches, i, s, Retried(env.extract(ReviewInputs(batches[i])), s.calls))
  }

  /** Batch `i` once its retry loop is over: the waits were taken; an error
      that survived the retries is thrown; otherwise the records are inserted
      when there are any and counted whatever the insert's outcome, and the
      pause follows unless this was the last batch. */
  function AfterAttempts(runDate: string, env: Env, batches: seq<seq<ReviewRow>>, i: nat, s: Run, a: Attempts): Run
    requires i < |batches|
  {
    var waited := s.effects + Backoffs(Waits(a.limited));
    if a.result.Err? then Run(s.total, a.calls, waited, Some(a.result.error))
    else
      var records := MapComplaints(batches[i], a.result.value, runDate);
      var stored := if records == [] then [] else [Stored(records, env.insertOk(i, records))];
      var paced := if i + 1 < |batches| then [Paced(BatchDelayMs)] else [];
      Run(s.total + |records|, a.calls, waited + stored + paced, None)
  }

  /** The first `k` batches. */
  function RunBatches(runDate: string, env: Env, batches: seq<seq<ReviewRow>>, k: nat): Run
    requires k <= |batches|
  {
    if k == 0 then Run(0, 0, [], None)
    else BatchStep(runDate, env, batches, k - 1, RunBatches(runDate, env, batches, k - 1))
  }

  /** The whole step: the thrown error or the number of complaints found,
      with the effects. */
  function Analyzed(runDate: string, reviewsQuery: Result<seq<FetchedReview>>,
                    existingQuery: Option<seq<string>>, env: Env): (Result<nat>, seq<Effect>)
  {
    if reviewsQuery.Err? then (Err("Failed to fetch reviews for analysis: " + reviewsQuery.error), [])
    else if reviewsQuery.value == [] then (Ok(0), [])
    else
      var toProcess := ToProcess(FlattenRows(reviewsQuery.value), Existing(existingQuery));
      var batches := Chunks(toProcess, BatchSize);
      var s := RunBatches(runDate, env, batches, |batches|);
      (if s.failure.Some? then Err(s.failure.value) else Ok(s.total), s.effects)
  }

  /** The body of the batch loop for batch `i`. */
  method ProcessBatch(runDate: string, env: Env, batches: seq<seq<ReviewRow>>, i: nat,
                      total: nat, calls: nat, effects: seq<Effect>)
    returns (total': nat, calls': nat, effects': seq<Effect>, failure: Option<string>)
    requires i < |batches|
    ensures Run(total', calls', effects', failure)
         == BatchStep(runDate, env, batches, i, Run(total, calls, effects, None))
  {
    var inputs := ReviewInputs(batches[i]);
    var extracted, waits;
    extracted, calls', waits := ExtractWithRetry(env.extract(inputs), calls);
    effects' := effects + Backoffs(waits);
    total' := total;
    if extracted.Err? {
      failure := Some(extracted.error);
      return;
    }
    failure := None;
    var records := MapComplaints(batches[i], extracted.value, runDate);
    if |records| > 0 {
      var ok := env.insertOk(i, records);
      effects' := effects' + [Stored(records, ok)];
    }
    total' := total + |records|;
    if i + 1 < |batches| {
      effects' := effects' + [Paced(BatchDelayMs)];
    }
  }

  /** `analyzeComplaints(runDate)`. `reviewsQuery` is the result of the
      query for today's reviews (no data counts as none), `existingQuery`
      that of the lookup of the review ids already analyzed for the date
      (`None` when it fails), `llm` the model, `parse` `JSON.parse` and
      `insertOk` the outcome of each insert. An error thrown by the model is
      returned as `Err`, with the effects that happened before it. */
  method Analyze(runDate: string, reviewsQuery: Result<seq<FetchedReview>>, existingQuery: Option<seq<string>>,
                 llm: Llm, parse: Parser, insertOk: (nat, seq<ComplaintRecord>) -> bool)
    returns (r: Result<nat>, effects: seq<Effect>)
    ensures (r, effects) == Analyzed(runDate, reviewsQuery, existingQuery, Wired(llm, parse, insertOk))
  {
    var env := Wired(llm, parse, insertOk);
    if reviewsQuery.Err? {
      return Err("Failed to fetch reviews for analysis: " + reviewsQuery.error), [];
    }
    if |reviewsQuery.value| == 0 {
      return Ok(0), [];
    }
    var rows := FlattenRows(reviewsQuery.value);
    var toProcess := ToProcess(rows, Existing(existingQuery));
    var batches := MakeBatches(toProcess);
    var total: nat := 0;
    var calls: nat := 0;
    effects := [];
    for i := 0 to |batches|
      invariant Run(total, calls, effects, None) == RunBatches(runDate, env, batches, i)
    {
      var failure;
      total, calls, effects, failure := ProcessBatch(runDate, env, batches, i, total, calls, effects);
      if failure.Some? {
        RunBatchesStopped(runDate, env, batches, i + 1, |batches|);
        return Err(failure.value), effects;
      }
    }
    return Ok(total), effects;
  }

  // ---------------------------------------------------------------------
  // Properties
  // ---------------------------------------------------------------------

  /** Once an error is thrown the later batches are not processed. */
  lemma {:induction false} RunBatchesStopped(runDate: string, env: Env, batches: seq<seq<ReviewRow>>, k: nat, m: nat)
    requires k <= m <= |batches|
    requires RunBatches(runDate, env, batches, k).failure.Some?
    ensures RunBatches(runDate, env, batches, m) == RunBatches(runDate, env, batches, k)
    decreases m - k
  {
    if k < m {
      RunBatchesStopped(runDate, env, batches, k, m - 1);
    }
  }

  /** The number of records the inserts carried, whatever their outcome. */
  function RecordsSent(effects: seq<Effect>): nat {
    if effects == [] then 0
    else RecordsSent(effects[..|effects| - 1])
         + (if effects[|effects| - 1].Stored? then |effects[|effects| - 1].records| else 0)
  }

  lemma {:induction false} RecordsSentAppend(a: seq<Effect>, b: seq<Effect>)
    ensures RecordsSent(a + b) == RecordsSent(a) + RecordsSent(b)
    decreases |b|
  {
    if b == [] {
      assert a + b == a;
    } else {
      assert (a + b)[..|a + b| - 1] == a + b[..|b| - 1];
      RecordsSentAppend(a, b[..|b| - 1]);
    }
  }

  lemma {:induction false} BackoffsSendNothing(waits: seq<nat>)
    ensures RecordsSent(Backoffs(waits)) == 0
  {
    if waits != [] {
      BackoffsSendNothing(waits[..|waits| - 1]);
      assert Backoffs(waits)[..|waits| - 1] == Backoffs(waits[..|waits| - 1]);
    }
  }

  /** The number of pauses between batches. */
  function PacedCount(effects: seq<Effect>): nat {
    if effects == [] then 0
    else PacedCount(effects[..|effects| - 1]) + (if effects[|effects| - 1].Paced? then 1 else 0)
  }

  lemma {:induction false} PacedCountAppend(a: seq<Effect>, b: seq<Effect>)
    ensures PacedCount(a + b) == PacedCount(a) + PacedCount(b)
    decreases |b|
  {
    if b == [] {
      assert a + b == a;
    } else {
      assert (a + b)[..|a + b| - 1] == a + b[..|b| - 1];
      PacedCountAppend(a, b[..|b| - 1]);
    }
  }

  lemma {:induction false} BackoffsArePaceless(waits: seq<nat>)
    ensures PacedCount(Backoffs(waits)) == 0
  {
    if waits != [] {
      BackoffsArePaceless(waits[..|waits| - 1]);
      assert Backoffs(waits)[..|waits| - 1] == Backoffs(waits[..|waits| - 1]);
    }
  }

  /** The total counts every record sent to an insert, and no insert is
      empty. */
  predicate Counted(s: Run) {
    && s.total == RecordsSent(s.effects)
    && forall e :: e in s.effects && e.Stored? ==> e.records != []
  }

  /** Every stored record comes from a review of one of the batches, with the
      run date and a severity in [1, 5]. */
  predicate Grounded(batches: seq<seq<ReviewRow>>, runDate: string, effects: seq<Effect>) {
    forall e :: e in effects && e.Stored? ==>
      forall rec :: rec in e.records ==> exists b :: 0 <= b < |batches| && FromBatch(batches[b], runDate, rec)
  }

  /** Backing off sends nothing and stores nothing. */
  lemma BackoffsCounted(s: Run, waits: seq<nat>, calls: nat, failure: Option<string>)
    requires Counted(s)
    ensures Counted(Run(s.total, calls, s.effects + Backoffs(waits), failure))
  {
    BackoffsSendNothing(waits);
    RecordsSentAppend(s.effects, Backoffs(waits));
  }

  /** A non-empty insert, then possibly a pause, adds its records to the
      total. */
  lemma StoredCounted(s: Run, records: seq<ComplaintRecord>, ok: bool, pace: bool, calls: nat)
    requires Counted(s)
    ensures var stored := if records == [] then [] else [Stored(records, ok)];
            var paced := if pace then [Paced(BatchDelayMs)] else [];
            Counted(Run(s.total + |records|, calls, s.effects + stored + paced, None))
  {
    var stored := if records == [] then [] else [Stored(records, ok)];
    var paced := if pace then [Paced(BatchDelayMs)] else [];
    RecordsSentAppend(s.effects, stored);
    RecordsSentAppend(s.effects + stored, paced);
    assert RecordsSent(stored) == |records| by {
      if stored != [] {
        assert stored[..0] == [];
      }
    }
    assert RecordsSent(paced) == 0 by {
      if paced != [] {
        assert paced[..0] == [];
      }
    }
  }

  lemma AttemptsCounted(runDate: string, env: Env, batches: seq<seq<ReviewRow>>, i: nat, s: Run, a: Attempts)
    requires i < |batches| && Counted(s)
    ensures Counted(AfterAttempts(runDate, env, batches, i, s, a))
  {
    var waits := Waits(a.limited);
    if a.result.Ok? {
      BackoffsCounted(s, waits, a.calls, None);
      var records := MapComplaints(batches[i], a.result.value, runDate);
      StoredCounted(Run(s.total, a.calls, s.effects + Backoffs(waits), None),
                    records, env.insertOk(i, records), i + 1 < |batches|, a.calls);
    } else {
      BackoffsCounted(s, waits, a.calls, Some(a.result.error));
    }
  }

  /** The total counts every mapped record, also those of failed inserts
      (an insert error is only logged), and no insert is empty. */
  lemma {:induction false} RunBatchesTotal(runDate: string, env: Env, batches: seq<seq<ReviewRow>>, k: nat)
    requires k <= |batches|
    ensures Counted(RunBatches(runDate, env, batches, k))
  {
    if k > 0 {
      RunBatchesTotal(runDate, env, batches, k - 1);
      StepCounted(runDate, env, batches, k - 1, RunBatches(runDate, env, batches, k - 1));
    }
  }

  lemma StepCounted(runDate: string, env: Env, batches: seq<seq<ReviewRow>>, i: nat, s: Run)
    requires i < |batches| && Counted(s)
    ensures Counted(BatchStep(runDate, env, batches, i, s))
  {
    if s.failure.None? {
      AttemptsCounted(runDate, env, batches, i, s, Retried(env.extract(ReviewInputs(batches[i])), s.calls));
    }
  }

  lemma AttemptsPaced(runDate: string, env: Env, batches: seq<seq<ReviewRow>>, i: nat, s: Run, a: Attempts)
    requires i < |batches| && PacedCount(s.effects) == i
    requires AfterAttempts(runDate, env, batches, i, s, a).failure.None?
    ensures PacedCount(AfterAttempts(runDate, env, batches, i, s, a).effects) == if i + 1 < |batches| then i + 1 else i
  {
    var records := MapComplaints(batches[i], a.result.value, runDate);
    EffectsPaced(s.effects, Waits(a.limited), records, env.insertOk(i, records), i + 1 < |batches|);
  }

  /** Backing off and storing add no pause; the pause adds one. */
  lemma EffectsPaced(effects: seq<Effect>, waits: seq<nat>, records: seq<ComplaintRecord>, ok: bool, pace: bool)
    ensures PacedCount(effects + Backoffs(waits)
                       + (if records == [] then [] else [Stored(records, ok)])
                       + (if pace then [Paced(BatchDelayMs)] else []))
         == PacedCount(effects) + if pace then 1 else 0
  {
    BackoffsArePaceless(waits);
    PacedCountAppend(effects, Backoffs(waits));
    var stored := if records == [] then [] else [Stored(records, ok)];
    var paced := if pace then [Paced(BatchDelayMs)] else [];
    var waited := effects + Backoffs(waits);
    PacedCountAppend(waited, stored);
    PacedCountAppend(waited + stored, paced);
    assert PacedCount(stored) == 0 by {
      if stored != [] {
        assert stored[..0] == [];
      }
    }
    assert PacedCount(paced) == |paced| by {
      if paced != [] {
        assert paced[..0] == [];
      }
    }
  }

  /** Without an error, there is one pause between consecutive batches and
      none after the last: `k` pauses after `k` batches, `n - 1` after all
      `n`. */
  lemma RunBatchesPaced(runDate: string, env: Env, batches: seq<seq<ReviewRow>>, k: nat)
    requires k <= |batches|
    requires RunBatches(runDate, env, batches, k).failure.None?
    ensures PacedCount(RunBatches(runDate, env, batches, k).effects)
         == if k == |batches| && k > 0 then k - 1 else k
  {
    RunBatchesPacedSoFar(runDate, env, batches, k);
  }

  /** A run after `k` of `n` batches either failed or paused as often as the
      batches so far call for. */
  predicate PacedSoFar(s: Run, k: nat, n: nat) {
    s.failure.None? ==> PacedCount(s.effects) == if k == n && k > 0 then k - 1 else k
  }

  lemma {:induction false} RunBatchesPacedSoFar(runDate: string, env: Env, batches: seq<seq<ReviewRow>>, k: nat)
    requires k <= |batches|
    ensures PacedSoFar(RunBatches(runDate, env, batches, k), k, |batches|)
  {
    if k > 0 {
      RunBatchesPacedSoFar(runDate, env, batches, k - 1);
      StepPaced(runDate, env, batches, k - 1, RunBatches(runDate, env, batches, k - 1));
    }
  }

  lemma StepPaced(runDate: string, env: Env, batches: seq<seq<ReviewRow>>, i: nat, s: Run)
    requires i < |batches| && PacedSoFar(s, i, |batches|)
    ensures PacedSoFar(BatchStep(runDate, env, batches, i, s), i + 1, |batches|)
  {
    if s.failure.None? {
      var a := Retried(env.extract(ReviewInputs(batches[i])), s.calls);
      if AfterAttempts(runDate, env, batches, i, s, a).failure.None? {
        AttemptsPaced(runDate, env, batches, i, s, a);
      }
    }
  }

  /** Each batch costs one to six model calls (five retries at most). */
  lemma {:induction false} RunBatchesCalls(runDate: string, env: Env, batches: seq<seq<ReviewRow>>, k: nat)
    requires k <= |batches|
    ensures RunBatches(runDate, env, batches, k).calls <= (MaxRetries + 1) * k
    ensures RunBatches(runDate, env, batches, k).failure.None? ==> RunBatches(runDate, env, batches, k).calls >= k
  {
    RunBatchesCallsSoFar(runDate, env, batches, k);
  }

  /** A run after `k` batches made at most six calls a batch, and at least
      one a batch unless it failed. */
  predicate CallsSoFar(s: Run, k: nat) {
    s.calls <= (MaxRetries + 1) * k && (s.failure.None? ==> s.calls >= k)
  }

  lemma {:induction false} RunBatchesCallsSoFar(runDate: string, env: Env, batches: seq<seq<ReviewRow>>, k: nat)
    requires k <= |batches|
    ensures CallsSoFar(RunBatches(runDate, env, batches, k), k)
  {
    if k > 0 {
      RunBatchesCallsSoFar(runDate, env, batches, k - 1);
      StepCalls(runDate, env, batches, k - 1, RunBatches(runDate, env, batches, k - 1));
    }
  }

  lemma StepCalls(runDate: string, env: Env, batches: seq<seq<ReviewRow>>, i: nat, s: Run)
    requires i < |batches| && CallsSoFar(s, i)
    ensures CallsSoFar(BatchStep(runDate, env, batches, i, s), i + 1)
  {
  }

  lemma AttemptsGrounded(runDate: string, env: Env, batches: seq<seq<ReviewRow>>, i: nat, s: Run, a: Attempts)
    requires i < |batches| && Grounded(batches, runDate, s.effects)
    ensures Grounded(batches, runDate, AfterAttempts(runDate, env, batches, i, s, a).effects)
  {
    if a.result.Ok? {
      MappedFromBatch(batches[i], a.result.value, runDate);
    }
  }

  /** Every stored record comes from a review of one of the batches, with the
      run date and a severity in [1, 5]. */
  lemma {:induction false} RunBatchesGrounded(runDate: string, env: Env, batches: seq<seq<ReviewRow>>, k: nat)
    requires k <= |batches|
    ensures Grounded(batches, runDate, RunBatches(runDate, env, batches, k).effects)
  {
    if k > 0 {
      RunBatchesGrounded(runDate, env, batches, k - 1);
      StepGrounded(runDate, env, batches, k - 1, RunBatches(runDate, env, batches, k - 1));
    }
  }

  lemma StepGrounded(runDate: string, env: Env, batches: seq<seq<ReviewRow>>, i: nat, s: Run)
    requires i < |batches| && Grounded(batches, runDate, s.effects)
    ensures Grounded(batches, runDate, BatchStep(runDate, env, batches, i, s).effects)
  {
    if s.failure.None? {
      AttemptsGrounded(runDate, env, batches, i, s, Retried(env.extract(ReviewInputs(batches[i])), s.calls));
    }
  }

  /** The review ids of a batch's records were not analyzed for the date
      before this run: a stored record's review is one of today's reviews
      and its id was not among the existing ones. */
  lemma AnalyzedFacts(runDate: string, reviewsQuery: Result<seq<FetchedReview>>,
                      existingQuery: Option<seq<string>>, env: Env)
    ensures var (r, effects) := Analyzed(runDate, reviewsQuery, existingQuery, env);
      && (reviewsQuery.Err? ==> r == Err("Failed to fetch reviews for analysis: " + reviewsQuery.error) && effects == [])
      && (reviewsQuery.Ok? && reviewsQuery.value == [] ==> r == Ok(0) && effects == [])
      && (r.Ok? ==> r.value == RecordsSent(effects))
      && (forall e :: e in effects && e.Stored? ==> forall rec :: rec in e.records ==>
            && rec.runDate == runDate && 1.0 <= rec.severity <= 5.0
            && rec.reviewId !in Existing(existingQuery)
            && exists j :: 0 <= j < |reviewsQuery.value| && reviewsQuery.value[j].id == rec.reviewId)
  {
    if reviewsQuery.Ok? && reviewsQuery.value != [] {
      var rows := FlattenRows(reviewsQuery.value);
      var toProcess := ToProcess(rows, Existing(existingQuery));
      var batches := Chunks(toProcess, BatchSize);
      var s := RunBatches(runDate, env, batches, |batches|);
      RunBatchesTotal(runDate, env, batches, |batches|);
      RunBatchesGrounded(runDate, env, batches, |batches|);
      ChunksConcat(toProcess, BatchSize);
      forall e, rec | e in s.effects && e.Stored? && rec in e.records
        ensures rec.reviewId !in Existing(existingQuery)
        ensures exists j :: 0 <= j < |reviewsQuery.value| && reviewsQuery.value[j].id == rec.reviewId
      {
        var b :| 0 <= b < |batches| && FromBatch(batches[b], runDate, rec);
        var k :| 0 <= k < |batches[b]| && rec.reviewId == batches[b][k].id;
        ConcatContains(batches, b, batches[b][k]);
        RowOfToday(reviewsQuery.value, Existing(existingQuery), batches[b][k]);
      }
    }
  }

  /** A row left to process is a flattened review of today whose id was not
      analyzed before. */
  lemma RowOfToday(reviews: seq<FetchedReview>, existing: seq<string>, row: ReviewRow)
    requires row in ToProcess(FlattenRows(reviews), existing)
    ensures row.id !in existing
    ensures exists j :: 0 <= j < |reviews| && reviews[j].id == row.id
  {
    var rows := FlattenRows(reviews);
    var j :| 0 <= j < |rows| && rows[j] == row;
    assert reviews[j].id == row.id;
  }
}
