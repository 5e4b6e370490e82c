/**
  The aggregation step (`agent/steps/aggregate.ts`): the day's complaints
  are read back, counted by complaint category and by app category, grouped
  by the first hundred characters of their text, and summarised in one
  daily row with the twenty most frequent complaints.

  The three dictionaries are built by loops that update them in place; they
  are methods here, each proved equal to a function of the rows, and the
  promised sums are lemmas about those functions. `Object` key order (the
  order of first insertion) is kept as a separate sequence where it
  matters, for the order of `Object.entries` that the top-20 sort starts
  from.
 */
module Aggregate {
  import opened Wrappers
  import opened Json
  import opened Text
  import opened Tally

  /** Characters of a complaint's text that make its grouping key. */
  const KeyLength: nat := 100
  /** Entries kept in `top_complaints`. */
  const TopCount: nat := 20

  // ---------------------------------------------------------------------
  // Rows
  // ---------------------------------------------------------------------

  /** A row of `complaints` joined with `apps(name)`: `apps` is the joined
      value as it arrives (`None` for `undefined`). */
  datatype FetchedComplaint = FetchedComplaint(
    appId: string, appCategory: string, complaintCategory: string, complaintText: string,
    severity: real, apps: Option<Json>)

  /** The row the step works on; `appName` is a JSON value because the
      joined `name` is passed through as it is. */
  datatype ComplaintRow = ComplaintRow(
    appId: string, appCategory: string, complaintCategory: string, complaintText: string,
    severity: real, appName: Json)

  /** An object with a `name` that is not `null`. */
  predicate Named(v: Json) {
    v.JObject? && "name" in v.fields && !v.fields["name"].JNull?
  }

  /** `extractAppName(apps, fallback)`: a falsy value gives the fallback; an
      array gives its first element's `name`; anything else its own `name`;
      a missing or `null` name gives the fallback. */
  function ExtractAppName(apps: Option<Json>, fallback: string): (r: Json)
    ensures !Truthy(apps) ==> r == JString(fallback)
    ensures Truthy(apps) && apps.value.JArray? ==>
      r == if apps.value.items != [] && Named(apps.value.items[0]) then apps.value.items[0].fields["name"]
           else JString(fallback)
    ensures Truthy(apps) && !apps.value.JArray? ==>
      r == if Named(apps.value) then apps.value.fields["name"] else JString(fallback)
  {
    if !Truthy(apps) then JString(fallback)
    else
      var holder := if apps.value.JArray? then (if apps.value.items == [] then None else Some(apps.value.items[0]))
                    else apps;
      var name := if holder.Some? then Member(holder.value, "name") else None;
      Coalesce(name, Some(JString(fallback))).value
  }

  function ToRow(c: FetchedComplaint): (r: ComplaintRow)
    ensures r.appName == ExtractAppName(c.apps, c.appId)
  {
    ComplaintRow(c.appId, c.appCategory, c.complaintCategory, c.complaintText, c.severity,
                 ExtractAppName(c.apps, c.appId))
  }

  /** `(complaints ?? []).map(...)`. */
  function ToRows(fetched: seq<FetchedComplaint>): (rows: seq<ComplaintRow>)
    ensures |rows| == |fetched|
    ensures forall i :: 0 <= i < |rows| ==> rows[i] == ToRow(fetched[i])
  {
    seq(|fetched|, i requires 0 <= i < |fetched| => ToRow(fetched[i]))
  }

  // ---------------------------------------------------------------------
  // by_complaint_category
  // ---------------------------------------------------------------------

  function Categories(rows: seq<ComplaintRow>): (r: seq<string>)
    ensures |r| == |rows|
    ensures forall i :: 0 <= i < |rows| ==> r[i] == rows[i].complaintCategory
  {
    seq(|rows|, i requires 0 <= i < |rows| => rows[i].complaintCategory)
  }

  lemma CategoriesAppend(rows: seq<ComplaintRow>, r: ComplaintRow)
    ensures Categories(rows + [r]) == Categories(rows) + [r.complaintCategory]
  {
  }

  lemma CategoriesSnoc(rows: seq<ComplaintRow>, i: nat)
    requires i < |rows|
    ensures Categories(rows[..i + 1]) == Categories(rows[..i]) + [rows[i].complaintCategory]
  {
  }

  /** One more occurrence of `x` in the dictionary counting `s`:
      `h[x] = (h[x] ?? 0) + 1`. */
  lemma HistogramBump<T>(s: seq<T>, x: T)
    ensures Histogram(s)[x := Get(Histogram(s), x) + 1] == Histogram(s + [x])
  {
    HistogramSnoc(s, x);
    assert Get(Histogram(s), x) == Occurrences(s, x);
  }

  /** The `byComplaintCategory` loop. */
  method CountByComplaintCategory(rows: seq<ComplaintRow>) returns (counts: map<string, nat>)
    ensures counts == Histogram(Categories(rows))
  {
    counts := map[];
    for i := 0 to |rows|
      invariant counts == Histogram(Categories(rows[..i]))
    {
      var c := rows[i].complaintCategory;
      CategoriesSnoc(rows, i);
      HistogramBump(Categories(rows[..i]), c);
      counts := counts[c := Get(counts, c) + 1];
    }
    assert rows[..|rows|] == rows;
  }

  /** Every row is counted once under its complaint category. */
  lemma ByComplaintCategoryTotal(rows: seq<ComplaintRow>)
    ensures SumOver(Distinct(Categories(rows)), Histogram(Categories(rows))) == |rows|
  {
    HistogramTotal(Categories(rows));
  }

  // ---------------------------------------------------------------------
  // by_app_category
  // ---------------------------------------------------------------------

  function AppCategories(rows: seq<ComplaintRow>): (r: seq<string>)
    ensures |r| == |rows|
    ensures forall i :: 0 <= i < |rows| ==> r[i] == rows[i].appCategory
  {
    seq(|rows|, i requires 0 <= i < |rows| => rows[i].appCategory)
  }

  /** The rows of app category `ac`, in order. */
  function InAppCategory(rows: seq<ComplaintRow>, ac: string): (r: seq<ComplaintRow>)
    ensures |r| <= |rows|
  {
    if rows == [] then []
    else
      var init := InAppCategory(rows[..|rows| - 1], ac);
      var last := rows[|rows| - 1];
      if last.appCategory == ac then init + [last] else init
  }

  /** Exactly the rows of that category are kept. */
  lemma {:induction false} InAppCategoryMembers(rows: seq<ComplaintRow>, ac: string)
    ensures forall x :: x in InAppCategory(rows, ac) <==> x in rows && x.appCategory == ac
  {
    if rows != [] {
      var init := rows[..|rows| - 1];
      InAppCategoryMembers(init, ac);
      assert rows == init + [rows[|rows| - 1]];
    }
  }

  /** One row counted into the nested dictionary: its app category gets an
      empty dictionary if it has none yet, and its complaint category one
      more count there. */
  function CountRow(h: map<string, map<string, nat>>, r: ComplaintRow): map<string, map<string, nat>> {
    var inner := if r.appCategory in h then h[r.appCategory] else map[];
    h[r.appCategory := inner[r.complaintCategory := Get(inner, r.complaintCategory) + 1]]
  }

  /** The dictionary the `byAppCategory` loop builds over `rows`. */
  function ByAppCategory(rows: seq<ComplaintRow>): map<string, map<string, nat>> {
    if rows == [] then map[] else CountRow(ByAppCategory(rows[..|rows| - 1]), rows[|rows| - 1])
  }

  lemma InAppCategorySnoc(rows: seq<ComplaintRow>, r: ComplaintRow, ac: string)
    ensures InAppCategory(rows + [r], ac) == InAppCategory(rows, ac) + (if r.appCategory == ac then [r] else [])
  {
    assert (rows + [r])[..|rows|] == rows;
  }

  /** The nested dictionary has a key for each app category of the rows,
      and under it the complaint categories of that category's rows
      counted. */
  predicate CountsCategory(rows: seq<ComplaintRow>, h: map<string, map<string, nat>>, ac: string) {
    && (ac in h <==> ac in AppCategories(rows))
    && (ac in h ==> h[ac] == Histogram(Categories(InAppCategory(rows, ac))))
  }

  lemma {:induction false} ByAppCategoryMeaning(rows: seq<ComplaintRow>, ac: string)
    ensures CountsCategory(rows, ByAppCategory(rows), ac)
  {
    if rows != [] {
      var init, r := rows[..|rows| - 1], rows[|rows| - 1];
      assert rows == init + [r];
      ByAppCategoryMeaning(init, ac);
      if r.appCategory == ac {
        CountRowOwn(init, ByAppCategory(init), r);
      } else {
        CountRowOther(init, ByAppCategory(init), r, ac);
      }
    }
  }

  lemma CountRowOwn(rows: seq<ComplaintRow>, h: map<string, map<string, nat>>, r: ComplaintRow)
    requires CountsCategory(rows, h, r.appCategory)
    ensures CountsCategory(rows + [r], CountRow(h, r), r.appCategory)
  {
    var ac, c := r.appCategory, r.complaintCategory;
    var mine := InAppCategory(rows, ac);
    var inner := if ac in h then h[ac] else map[];
    assert inner == Histogram(Categories(mine)) by {
      if ac !in h {
        NoneInCategory(rows, ac);
        assert Categories(mine) == [];
      }
    }
    assert AppCategories(rows + [r])[|rows|] == ac;
    InAppCategorySnoc(rows, r, ac);
    CategoriesAppend(mine, r);
    HistogramBump(Categories(mine), c);
    assert ac in CountRow(h, r) && CountRow(h, r)[ac] == inner[c := Get(inner, c) + 1];
    assert InAppCategory(rows + [r], ac) == mine + [r];
    assert Categories(mine + [r]) == Categories(mine) + [c];
    assert ac in AppCategories(rows + [r]);
  }

  lemma {:induction false} NoneInCategory(rows: seq<ComplaintRow>, ac: string)
    requires ac !in AppCategories(rows)
    ensures InAppCategory(rows, ac) == []
  {
    if rows != [] {
      var init := rows[..|rows| - 1];
      assert AppCategories(rows) == AppCategories(init) + [rows[|rows| - 1].appCategory];
      NoneInCategory(init, ac);
    }
  }

  lemma CountRowOther(rows: seq<ComplaintRow>, h: map<string, map<string, nat>>, r: ComplaintRow, ac: string)
    requires r.appCategory != ac && CountsCategory(rows, h, ac)
    ensures CountsCategory(rows + [r], CountRow(h, r), ac)
  {
    assert AppCategories(rows + [r]) == AppCategories(rows) + [r.appCategory];
    InAppCategorySnoc(rows, r, ac);
  }

  /** The `byAppCategory` loop. */
  method CountByAppCategory(rows: seq<ComplaintRow>) returns (counts: map<string, map<string, nat>>)
    ensures counts == ByAppCategory(rows)
  {
    counts := map[];
    for i := 0 to |rows|
      invariant counts == ByAppCategory(rows[..i])
    {
      var ac, cc := rows[i].appCategory, rows[i].complaintCategory;
      if ac !in counts {
        counts := counts[ac := map[]];
      }
      var cat := counts[ac];
      assert rows[..i + 1][..i] == rows[..i];
      counts := counts[ac := cat[cc := Get(cat, cc) + 1]];
    }
    assert rows[..|rows|] == rows;
  }

  /** The number of rows of app category `ac`. */
  lemma {:induction false} InAppCategoryCount(rows: seq<ComplaintRow>, ac: string)
    ensures |InAppCategory(rows, ac)| == Occurrences(AppCategories(rows), ac)
  {
    if rows != [] {
      var init := rows[..|rows| - 1];
      InAppCategoryCount(init, ac);
      assert AppCategories(rows) == AppCategories(init) + [rows[|rows| - 1].appCategory];
    }
  }

  /** `sum(byAppCategory[ac])` for each app category, the inner dictionary's
      values summed in its key order. */
  function InnerTotals(rows: seq<ComplaintRow>): map<string, nat> {
    map ac | ac in ByAppCategory(rows) :: SumOver(Distinct(Categories(InAppCategory(rows, ac))), ByAppCategory(rows)[ac])
  }

  /** Each app category's counts sum to its number of rows, and the sums over
      all app categories to the number of rows. */
  lemma ByAppCategoryTotal(rows: seq<ComplaintRow>)
    ensures forall ac :: ac in InnerTotals(rows) ==> InnerTotals(rows)[ac] == |InAppCategory(rows, ac)|
    ensures SumOver(Distinct(AppCategories(rows)), InnerTotals(rows)) == |rows|
  {
    var t := InnerTotals(rows);
    forall ac | ac in t
      ensures t[ac] == |InAppCategory(rows, ac)|
    {
      ByAppCategoryMeaning(rows, ac);
      HistogramTotal(Categories(InAppCategory(rows, ac)));
    }
    forall ac
      ensures ac in t <==> ac in AppCategories(rows)
    {
      ByAppCategoryMeaning(rows, ac);
    }
    forall ac | ac in t
      ensures t[ac] == Histogram(AppCategories(rows))[ac]
    {
      InAppCategoryCount(rows, ac);
    }
    assert t == Histogram(AppCategories(rows));
    HistogramTotal(AppCategories(rows));
  }

  // ---------------------------------------------------------------------
  // complaintFreq
  // ---------------------------------------------------------------------

  /** An entry of `complaintFreq`: the count and the first row's app name
      and complaint category. */
  datatype Freq = Freq(count: nat, app: Json, category: string)

  /** `complaint_text.slice(0, 100).toLowerCase()`. */
  function Key(r: ComplaintRow): string {
    Lower(Take(r.complaintText, KeyLength))
  }

  function Keys(rows: seq<ComplaintRow>): (r: seq<string>)
    ensures |r| == |rows|
    ensures forall i :: 0 <= i < |rows| ==> r[i] == Key(rows[i])
  {
    seq(|rows|, i requires 0 <= i < |rows| => Key(rows[i]))
  }

  /** One row counted into `complaintFreq`: a new key gets an entry with
      count 0 and the row's app name and category, then the count goes
      up by one. */
  function AddRow(freq: map<string, Freq>, r: ComplaintRow): map<string, Freq> {
    var k := Key(r);
    var e := if k in freq then freq[k] else Freq(0, r.appName, r.complaintCategory);
    freq[k := e.(count := e.count + 1)]
  }

  /** The dictionary the `complaintFreq` loop builds over `rows`. */
  function Frequencies(rows: seq<ComplaintRow>): map<string, Freq> {
    if rows == [] then map[] else AddRow(Frequencies(rows[..|rows| - 1]), rows[|rows| - 1])
  }

  /** Key `k` of `freq` as the rows `rows` determine it: present exactly when
      some row has that key, counting the rows that have it, with the app
      name and category of the first of them. */
  predicate CountsKey(rows: seq<ComplaintRow>, freq: map<string, Freq>, k: string) {
    && (k in freq <==> k in Keys(rows))
    && (k in freq ==>
          var first := rows[FirstIndex(Keys(rows), k)];
          freq[k] == Freq(Occurrences(Keys(rows), k), first.appName, first.complaintCategory))
  }

  lemma {:induction false} FrequenciesMeaning(rows: seq<ComplaintRow>, k: string)
    ensures CountsKey(rows, Frequencies(rows), k)
  {
    if rows != [] {
      var init, r := rows[..|rows| - 1], rows[|rows| - 1];
      assert rows == init + [r];
      FrequenciesMeaning(init, k);
      AddRowKeeps(init, Frequencies(init), r, k);
    }
  }

  lemma AddRowKeeps(rows: seq<ComplaintRow>, freq: map<string, Freq>, r: ComplaintRow, k: string)
    requires CountsKey(rows, freq, k)
    ensures CountsKey(rows + [r], AddRow(freq, r), k)
  {
    var keys := Keys(rows);
    assert Keys(rows + [r]) == keys + [Key(r)];
    SnocFacts(keys, Key(r), k);
    if k in keys {
      var j := FirstIndex(keys, k);
      assert (rows + [r])[j] == rows[j];
    }
  }

  /** `AddRow` as the loop writes it: insert a zero entry when the key is
      missing, then raise that key's count. */
  lemma AddRowInserts(freq: map<string, Freq>, r: ComplaintRow)
    ensures var k := Key(r);
            var f := if k in freq then freq else freq[k := Freq(0, r.appName, r.complaintCategory)];
            AddRow(freq, r) == f[k := f[k].(count := f[k].count + 1)]
  {
  }

  /** One more row: its key is appended to the key order exactly when it
      was not a key yet. */
  lemma FrequenciesStep(rows: seq<ComplaintRow>, i: nat)
    requires i < |rows|
    ensures Frequencies(rows[..i + 1]) == AddRow(Frequencies(rows[..i]), rows[i])
    ensures Distinct(Keys(rows[..i + 1]))
         == Distinct(Keys(rows[..i])) + (if Key(rows[i]) in Frequencies(rows[..i]) then [] else [Key(rows[i])])
  {
    var key := Key(rows[i]);
    assert rows[..i + 1][..i] == rows[..i];
    FrequenciesMeaning(rows[..i], key);
    assert Keys(rows[..i + 1]) == Keys(rows[..i]) + [key];
    DistinctSnoc(Keys(rows[..i]), key);
  }

  /** The body of the `complaintFreq` loop for row `r`. */
  method AddComplaint(freq: map<string, Freq>, order: seq<string>, r: ComplaintRow)
    returns (freq': map<string, Freq>, order': seq<string>)
    ensures freq' == AddRow(freq, r)
    ensures order' == order + if Key(r) in freq then [] else [Key(r)]
  {
    var key := Key(r);
    AddRowInserts(freq, r);
    freq', order' := freq, order;
    if key !in freq' {
      freq' := freq'[key := Freq(0, r.appName, r.complaintCategory)];
      order' := order' + [key];
    }
    freq' := freq'[key := freq'[key].(count := freq'[key].count + 1)];
  }

  /** The `complaintFreq` loop, with the order in which keys were first
      inserted (the order `Object.entries` lists them in). */
  method CountFrequencies(rows: seq<ComplaintRow>) returns (freq: map<string, Freq>, order: seq<string>)
    ensures freq == Frequencies(rows)
    ensures order == Distinct(Keys(rows))
  {
    freq, order := map[], [];
    for i := 0 to |rows|
      invariant freq == Frequencies(rows[..i])
      invariant order == Distinct(Keys(rows[..i]))
    {
      FrequenciesStep(rows, i);
      freq, order := AddComplaint(freq, order, rows[i]);
    }
    assert rows[..|rows|] == rows;
  }

  /** The counts of `complaintFreq`. */
  function CountsOf(freq: map<string, Freq>): map<string, nat> {
    map k | k in freq :: freq[k].count
  }

  /** Every row is counted under exactly one key: the counts sum to the
      number of rows. */
  lemma FrequenciesTotal(rows: seq<ComplaintRow>)
    ensures SumOver(Distinct(Keys(rows)), CountsOf(Frequencies(rows))) == |rows|
  {
    var c := CountsOf(Frequencies(rows));
    forall k
      ensures k in c <==> k in Histogram(Keys(rows))
      ensures k in c ==> c[k] == Histogram(Keys(rows))[k]
    {
      FrequenciesMeaning(rows, k);
    }
    assert c == Histogram(Keys(rows));
    HistogramTotal(Keys(rows));
  }

  // ---------------------------------------------------------------------
  // top_complaints
  // ---------------------------------------------------------------------

  /** `[text, meta]`, an element of `Object.entries(complaintFreq)`. */
  datatype Entry = Entry(text: string, meta: Freq)

  /** `Object.entries(freq)` with the keys in the order `order`. */
  function EntriesOf(order: seq<string>, freq: map<string, Freq>): (r: seq<Entry>)
    requires forall k :: k in order ==> k in freq
    ensures |r| == |order|
    ensures forall i :: 0 <= i < |r| ==> r[i] == Entry(order[i], freq[order[i]])
  {
    seq(|order|, i requires 0 <= i < |order| => Entry(order[i], freq[order[i]]))
  }

  predicate ByCountDescending(s: seq<Entry>) {
    forall i, j :: 0 <= i < j < |s| ==> s[i].meta.count >= s[j].meta.count
  }

  /** `e` placed before the first entry whose count is not above its own. */
  function InsertByCount(e: Entry, s: seq<Entry>): seq<Entry> {
    if s == [] || s[0].meta.count <= e.meta.count then [e] + s else [s[0]] + InsertByCount(e, s[1..])
  }

  /** `.sort((a, b) => b[1].count - a[1].count)`: a stable sort by count,
      largest first (an entry is inserted ahead of the later entries with
      the same count). */
  function SortByCount(s: seq<Entry>): seq<Entry> {
    if s == [] then [] else InsertByCount(s[0], SortByCount(s[1..]))
  }

  lemma {:induction false} InsertByCountPermutes(e: Entry, s: seq<Entry>)
    ensures multiset(InsertByCount(e, s)) == multiset(s) + multiset{e}
  {
    if !(s == [] || s[0].meta.count <= e.meta.count) {
      InsertByCountPermutes(e, s[1..]);
      assert s == [s[0]] + s[1..];
    }
  }

  /** Inserting adds `e` and nothing but `e`. */
  lemma {:induction false} InsertByCountMembers(e: Entry, s: seq<Entry>)
    ensures forall x :: x in InsertByCount(e, s) ==> x == e || x in s
  {
    if !(s == [] || s[0].meta.count <= e.meta.count) {
      InsertByCountMembers(e, s[1..]);
    }
  }

  /** An entry counted at least as high as every entry of a sorted `t` can
      go in front of it. */
  lemma ConsSorted(x: Entry, t: seq<Entry>)
    requires ByCountDescending(t)
    requires forall y :: y in t ==> y.meta.count <= x.meta.count
    ensures ByCountDescending([x] + t)
  {
    var r := [x] + t;
    forall i, j | 0 <= i < j < |r| ensures r[i].meta.count >= r[j].meta.count {
      assert r[j] == t[j - 1];
      if 0 < i { assert r[i] == t[i - 1]; }
    }
  }

  /** The head of a sorted sequence is counted at least as high as the rest. */
  lemma HeadHighest(s: seq<Entry>)
    requires ByCountDescending(s) && s != []
    ensures forall y :: y in s ==> y.meta.count <= s[0].meta.count
  {
    forall y | y in s ensures y.meta.count <= s[0].meta.count {
      var k :| 0 <= k < |s| && s[k] == y;
    }
  }

  lemma {:induction false} InsertByCountSpec(e: Entry, s: seq<Entry>)
    requires ByCountDescending(s)
    ensures ByCountDescending(InsertByCount(e, s))
    ensures multiset(InsertByCount(e, s)) == multiset(s) + multiset{e}
    decreases |s|
  {
    InsertByCountPermutes(e, s);
    if s == [] {
    } else if s[0].meta.count <= e.meta.count {
      HeadHighest(s);
      ConsSorted(e, s);
    } else {
      var rest := s[1..];
      assert ByCountDescending(rest) by {
        forall i, j | 0 <= i < j < |rest| ensures rest[i].meta.count >= rest[j].meta.count {
          assert rest[i] == s[i + 1] && rest[j] == s[j + 1];
        }
      }
      InsertByCountSpec(e, rest);
      InsertByCountMembers(e, rest);
      HeadHighest(s);
      assert forall y :: y in rest ==> y in s;
      ConsSorted(s[0], InsertByCount(e, rest));
    }
  }

  /** The sort orders by count and only reorders. */
  lemma {:induction false} SortByCountSpec(s: seq<Entry>)
    ensures ByCountDescending(SortByCount(s))
    ensures multiset(SortByCount(s)) == multiset(s)
  {
    if s != [] {
      SortByCountSpec(s[1..]);
      InsertByCountSpec(s[0], SortByCount(s[1..]));
      assert s == [s[0]] + s[1..];
    }
  }

  /** An element of `top_complaints`. */
  datatype TopComplaint = TopComplaint(text: string, category: string, count: nat, app: Json)

  /** Every key of `complaintFreq` is listed once in its key order and
      nothing else is. */
  lemma FrequenciesKeys(rows: seq<ComplaintRow>)
    ensures forall k :: k in Distinct(Keys(rows)) <==> k in Frequencies(rows)
  {
    forall k ensures k in Distinct(Keys(rows)) <==> k in Frequencies(rows) {
      FrequenciesMeaning(rows, k);
      if k in Keys(rows) {
        var i :| 0 <= i < |Keys(rows)| && Keys(rows)[i] == k;
      }
    }
  }

  /** `Object.entries(complaintFreq)`. */
  function Entries(rows: seq<ComplaintRow>): seq<Entry> {
    FrequenciesKeys(rows);
    EntriesOf(Distinct(Keys(rows)), Frequencies(rows))
  }

  /** The entries of `complaintFreq` sorted by count. */
  function Ranked(rows: seq<ComplaintRow>): seq<Entry> {
    SortByCount(Entries(rows))
  }

  /** Entries with distinct texts are distinct. */
  lemma EntriesDistinct(order: seq<string>, freq: map<string, Freq>)
    requires forall k :: k in order ==> k in freq
    requires NoDuplicates(order)
    ensures NoDuplicates(EntriesOf(order, freq))
  {
  }

  /** `ranked` holds each key of `freq` once, with its entry, largest count
      first. */
  predicate RanksAll(ranked: seq<Entry>, freq: map<string, Freq>) {
    && ByCountDescending(ranked)
    && NoDuplicates(ranked)
    && (forall k :: k in freq ==> Entry(k, freq[k]) in ranked)
    && (forall e :: e in ranked ==> e.text in freq && e.meta == freq[e.text])
  }

  lemma RankedPermutes(rows: seq<ComplaintRow>)
    ensures multiset(Ranked(rows)) == multiset(Entries(rows))
    ensures ByCountDescending(Ranked(rows))
  {
    SortByCountSpec(Entries(rows));
  }

  /** The ranking of the rows ranks every key of `complaintFreq`. */
  lemma RankedSpec(rows: seq<ComplaintRow>)
    ensures RanksAll(Ranked(rows), Frequencies(rows))
    ensures |Ranked(rows)| == |Distinct(Keys(rows))|
  {
    FrequenciesKeys(rows);
    RankedPermutes(rows);
    SortedEntriesRankAll(Distinct(Keys(rows)), Frequencies(rows), Ranked(rows));
  }

  /** A sorted permutation of the entries of distinct keys holding every key
      of `freq` ranks all of them. */
  lemma SortedEntriesRankAll(order: seq<string>, freq: map<string, Freq>, ranked: seq<Entry>)
    requires forall k :: k in order <==> k in freq
    requires NoDuplicates(order)
    requires multiset(ranked) == multiset(EntriesOf(order, freq))
    requires ByCountDescending(ranked)
    ensures RanksAll(ranked, freq) && |ranked| == |order|
  {
    var entries := EntriesOf(order, freq);
    EntriesDistinct(order, freq);
    PermutationNoDuplicates(entries, ranked);
    assert |ranked| == |entries| by {
      assert |multiset(ranked)| == |multiset(entries)|;
    }
    forall k | k in freq ensures Entry(k, freq[k]) in ranked {
      var i :| 0 <= i < |order| && order[i] == k;
      assert entries[i] in multiset(entries);
    }
    forall e | e in ranked ensures e.text in freq && e.meta == freq[e.text] {
      assert e in multiset(entries);
    }
  }

  /** `.slice(0, 20).map(...)`. */
  function Top(ranked: seq<Entry>): (top: seq<TopComplaint>)
    ensures |top| == Min(TopCount, |ranked|)
    ensures forall i :: 0 <= i < |top| ==>
      top[i] == TopComplaint(ranked[i].text, ranked[i].meta.category, ranked[i].meta.count, ranked[i].meta.app)
  {
    var kept := Take(ranked, TopCount);
    seq(|kept|, i requires 0 <= i < |kept| => TopComplaint(kept[i].text, kept[i].meta.category, kept[i].meta.count, kept[i].meta.app))
  }

  /** `top_complaints`. */
  function TopComplaints(rows: seq<ComplaintRow>): seq<TopComplaint> {
    Top(Ranked(rows))
  }

  lemma TopOrdered(ranked: seq<Entry>)
    requires ByCountDescending(ranked)
    ensures var top := Top(ranked);
      forall i, j :: 0 <= i < j < |top| ==> top[i].count >= top[j].count
  {
  }

  lemma TopDistinct(ranked: seq<Entry>, freq: map<string, Freq>)
    requires RanksAll(ranked, freq)
    ensures var top := Top(ranked);
      forall i, j :: 0 <= i < j < |top| ==> top[i].text != top[j].text
  {
    var top := Top(ranked);
    forall i, j | 0 <= i < j < |top| ensures top[i].text != top[j].text {
      assert ranked[i] in ranked && ranked[j] in ranked;
    }
  }

  lemma TopEntries(ranked: seq<Entry>, freq: map<string, Freq>)
    requires forall e :: e in ranked ==> e.text in freq && e.meta == freq[e.text]
    ensures var top := Top(ranked);
      forall i :: 0 <= i < |top| ==>
        top[i].text in freq && freq[top[i].text] == Freq(top[i].count, top[i].app, top[i].category)
  {
    var top := Top(ranked);
    forall i | 0 <= i < |top|
      ensures top[i].text in freq && freq[top[i].text] == Freq(top[i].count, top[i].app, top[i].category)
    {
      assert ranked[i] in ranked;
    }
  }

  lemma TopNoneAbove(ranked: seq<Entry>, freq: map<string, Freq>)
    requires ByCountDescending(ranked)
    requires forall k :: k in freq ==> Entry(k, freq[k]) in ranked
    ensures var top := Top(ranked);
      forall k :: k in freq && (forall i :: 0 <= i < |top| ==> top[i].text != k) ==>
        forall i :: 0 <= i < |top| ==> top[i].count >= freq[k].count
  {
    var top := Top(ranked);
    forall k | k in freq
      ensures (forall i :: 0 <= i < |top| ==> top[i].text != k) ==>
              forall i :: 0 <= i < |top| ==> top[i].count >= freq[k].count
    {
      var p :| 0 <= p < |ranked| && ranked[p] == Entry(k, freq[k]);
      if p < |top| {
        assert top[p].text == k;
      }
    }
  }

  /** What the first twenty of a full ranking promise: largest count first,
      each a distinct key of `freq` with its count, category and app, and
      no key left out with a count above a listed one. */
  lemma TopSpec(ranked: seq<Entry>, freq: map<string, Freq>)
    requires RanksAll(ranked, freq)
    ensures var top := Top(ranked);
      && (forall i, j :: 0 <= i < j < |top| ==> top[i].count >= top[j].count)
      && (forall i, j :: 0 <= i < j < |top| ==> top[i].text != top[j].text)
      && (forall i :: 0 <= i < |top| ==>
            top[i].text in freq && freq[top[i].text] == Freq(top[i].count, top[i].app, top[i].category))
      && (forall k :: k in freq && (forall i :: 0 <= i < |top| ==> top[i].text != k) ==>
            forall i :: 0 <= i < |top| ==> top[i].count >= freq[k].count)
  {
    TopOrdered(ranked);
    TopDistinct(ranked, freq);
    TopEntries(ranked, freq);
    TopNoneAbove(ranked, freq);
  }

  /** `top_complaints` of the rows: as many entries as there are keys, up
      to twenty, with the properties of `TopSpec` for `complaintFreq`. */
  lemma TopComplaintsSpec(rows: seq<ComplaintRow>)
    ensures var top, freq := TopComplaints(rows), Frequencies(rows);
      && |top| == Min(TopCount, |Distinct(Keys(rows))|)
      && (forall i, j :: 0 <= i < j < |top| ==> top[i].count >= top[j].count)
      && (forall i :: 0 <= i < |top| ==>
            top[i].text in freq && freq[top[i].text] == Freq(top[i].count, top[i].app, top[i].category))
      && (forall k :: k in freq && (forall i :: 0 <= i < |top| ==> top[i].text != k) ==>
            forall i :: 0 <= i < |top| ==> top[i].count >= freq[k].count)
  {
    RankedSpec(rows);
    TopSpec(Ranked(rows), Frequencies(rows));
  }

  // ---------------------------------------------------------------------
  // The summary row
  // ---------------------------------------------------------------------

  /** The row upserted into `daily_summaries`; `completedAt` is the clock
      reading the step is given. */
  datatype Summary = Summary(
    runDate: string, appsScraped: nat, reviewsProcessed: nat, complaintsFound: nat,
    byComplaintCategory: map<string, nat>, byAppCategory: map<string, map<string, nat>>,
    topComplaints: seq<TopComplaint>, status: string, completedAt: string)

  const Complete: string := "complete"

  /** The summary of the rows. */
  function Summarise(runDate: string, appsScraped: nat, reviewsProcessed: nat,
                     rows: seq<ComplaintRow>, now: string): Summary
  {
    Summary(runDate, appsScraped, reviewsProcessed, |rows|,
            Histogram(Categories(rows)), ByAppCategory(rows), TopComplaints(rows), Complete, now)
  }

  /** The whole step: the `complaints` query (`Err` carries its error
      message, `Ok(None)` is a `null` result), then the upsert, whose
      outcome for a given row is `upsertError`. The result is the row
      written, or the message the step throws. */
  function Aggregated(runDate: string, appsScraped: nat, reviewsProcessed: nat,
                      query: Result<Option<seq<FetchedComplaint>>>,
                      upsertError: Summary -> Option<string>, now: string): Result<Summary>
  {
    if query.Err? then Err("Failed to fetch complaints for aggregation: " + query.error)
    else
      var rows := ToRows(if query.value.Some? then query.value.value else []);
      var summary := Summarise(runDate, appsScraped, reviewsProcessed, rows, now);
      if upsertError(summary).Some? then Err("Failed to upsert summary: " + upsertError(summary).value)
      else Ok(summary)
  }

  /** `aggregate(runDate, appsScraped, reviewsProcessed)`. */
  method Aggregate(runDate: string, appsScraped: nat, reviewsProcessed: nat,
                   query: Result<Option<seq<FetchedComplaint>>>,
                   upsertError: Summary -> Option<string>, now: string)
    returns (r: Result<Summary>)
    ensures r == Aggregated(runDate, appsScraped, reviewsProcessed, query, upsertError, now)
  {
    if query.Err? {
      return Err("Failed to fetch complaints for aggregation: " + query.error);
    }
    var rows := ToRows(if query.value.Some? then query.value.value else []);
    var byComplaintCategory := CountByComplaintCategory(rows);
    var byAppCategory := CountByAppCategory(rows);
    var freq, order := CountFrequencies(rows);
    FrequenciesKeys(rows);
    var topComplaints := Top(SortByCount(EntriesOf(order, freq)));
    var summary := Summary(runDate, appsScraped, reviewsProcessed, |rows|, byComplaintCategory,
                           byAppCategory, topComplaints, Complete, now);
    var error := upsertError(summary);
    if error.Some? {
      return Err("Failed to upsert summary: " + error.value);
    }
    return Ok(summary);
  }

  /** The step fails exactly when the query or the upsert does, with the
      message naming which; otherwise the row it writes counts every
      fetched complaint once in each of its three tallies and is marked
      complete. */
  lemma AggregatedFacts(runDate: string, appsScraped: nat, reviewsProcessed: nat,
                        query: Result<Option<seq<FetchedComplaint>>>,
                        upsertError: Summary -> Option<string>, now: string)
    ensures var r := Aggregated(runDate, appsScraped, reviewsProcessed, query, upsertError, now);
      && (query.Err? ==> r == Err("Failed to fetch complaints for aggregation: " + query.error))
      && (query.Ok? && r.Ok? ==>
            var fetched := if query.value.Some? then query.value.value else [];
            var rows := ToRows(fetched);
            && upsertError(r.value) == None
            && r.value.runDate == runDate && r.value.status == Complete && r.value.completedAt == now
            && r.value.complaintsFound == |fetched|
            && SumOver(Distinct(Categories(rows)), r.value.byComplaintCategory) == |fetched|
            && SumOver(Distinct(AppCategories(rows)), InnerTotals(rows)) == |fetched|
            && SumOver(Distinct(Keys(rows)), CountsOf(Frequencies(rows))) == |fetched|
            && |r.value.topComplaints| <= TopCount)
      && (query.Ok? && r.Err? ==>
            var summary := Summarise(runDate, appsScraped, reviewsProcessed,
                                     ToRows(if query.value.Some? then query.value.value else []), now);
            upsertError(summary).Some? && r.error == "Failed to upsert summary: " + upsertError(summary).value)
  {
    if query.Ok? {
      var rows := ToRows(if query.value.Some? then query.value.value else []);
      HistogramTotal(Categories(rows));
      ByAppCategoryTotal(rows);
      FrequenciesTotal(rows);
    }
  }
}
