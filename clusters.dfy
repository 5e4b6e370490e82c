/**
  The part the two clustering steps share (agent/steps/generateOpportunities.ts
  and agent/steps/generatePMOutcomes.ts): decoding the model's list of
  clusters (a bare array or one envelope member, items with a string `title`
  and an index array), and turning at most five clusters into rows whose
  index lists are replaced by the ids of the listed items.
 */
module Clusters {
  import opened Wrappers
  import opened Json
  import opened Text

  /** A cluster as the model reports it: a title, the `description` member
      as written (absent is `None`), and the raw elements of its index
      array. */
  datatype Cluster = Cluster(title: string, description: Option<Json>, indices: seq<Json>)

  /** The shape test: a string `title` and an array under `indicesKey`. */
  function AsCluster(v: Json, indicesKey: string): (r: Option<Cluster>)
    ensures r.Some? <==> AsString(Member(v, "title")).Some? && AsArray(Member(v, indicesKey)).Some?
    ensures r.Some? ==>
      Member(v, "title") == Some(JString(r.value.title))
      && Member(v, indicesKey) == Some(JArray(r.value.indices))
      && r.value.description == Member(v, "description")
  {
    var t := AsString(Member(v, "title"));
    var ix := AsArray(Member(v, indicesKey));
    if t.Some? && ix.Some? then Some(Cluster(t.value, Member(v, "description"), ix.value)) else None
  }

  /** The clusters decoded from a parse result: `Array.isArray(parsed) ?
      parsed : parsed[envelopeKey] ?? []`, filtered by shape; a failed parse
      or a thrown `TypeError` yields none. */
  function DecodeClusters(parsed: Option<Json>, envelopeKey: string, indicesKey: string): seq<Cluster> {
    if parsed.None? then []
    else
      var items := ItemsOf(parsed.value, Member(parsed.value, envelopeKey));
      if items.None? then []
      else
        var kept := KeepShaped(items.value, v => AsCluster(v, indicesKey));
        if kept.None? then [] else kept.value
  }

  /** The decoder reads a bare array, or only the one envelope member, and
      keeps exactly the well-shaped items of it in order. */
  lemma DecodeClustersSources(parsed: Json, envelopeKey: string, indicesKey: string)
    ensures parsed.JArray? && JNull !in parsed.items ==>
      DecodeClusters(Some(parsed), envelopeKey, indicesKey)
        == KeepShaped(parsed.items, v => AsCluster(v, indicesKey)).value
    ensures (parsed.JObject? && envelopeKey in parsed.fields && parsed.fields[envelopeKey].JArray?
             && JNull !in parsed.fields[envelopeKey].items) ==>
      DecodeClusters(Some(parsed), envelopeKey, indicesKey)
        == KeepShaped(parsed.fields[envelopeKey].items, v => AsCluster(v, indicesKey)).value
    ensures parsed.JObject? && (envelopeKey !in parsed.fields || parsed.fields[envelopeKey].JNull?) ==>
      DecodeClusters(Some(parsed), envelopeKey, indicesKey) == []
    ensures parsed.JNull? ==> DecodeClusters(Some(parsed), envelopeKey, indicesKey) == []
  {
  }

  /** A failed parse yields no clusters. */
  lemma ParseFailureYieldsNoClusters(envelopeKey: string, indicesKey: string)
    ensures DecodeClusters(None, envelopeKey, indicesKey) == []
  {
  }

  // ---------------------------------------------------------------------
  // Index lists to id lists
  // ---------------------------------------------------------------------

  /** The filter `i >= 0 && i < len` on one index element, as JavaScript
      compares it: `null` counts as 0 and a boolean as 0 or 1. Strings,
      arrays and objects are taken to fail it. */
  predicate InRange(v: Json, len: nat) {
    match v
    case JNumber(n) => 0.0 <= n && n < len as real
    case JNull => 0 < len
    case JBool(b) => (if b then 1 else 0) < len
    case _ => false
  }

  /** An element that passes the filter but names no item (a fractional
      number, `null`, a boolean): reading `.id` of what it fetches throws. */
  predicate Faulty(v: Json, len: nat) {
    InRange(v, len) && !(v.JNumber? && IsIntegral(v.n))
  }

  /** The id an in-range whole-number index names. */
  function IdAt(v: Json, ids: seq<string>): string
    requires InRange(v, |ids|) && !Faulty(v, |ids|)
  {
    ids[IndexOf(v.n, |ids|)]
  }

  /** The positions of the index list that pass the filter, in order. */
  function KeptPositions(indices: seq<Json>, len: nat): (r: seq<nat>)
    ensures |r| <= |indices|
    ensures forall j :: 0 <= j < |r| ==> r[j] < |indices| && InRange(indices[r[j]], len)
    ensures forall j, j' :: 0 <= j < j' < |r| ==> r[j] < r[j']
    ensures forall k :: 0 <= k < |indices| && InRange(indices[k], len) ==> k in r
  {
    if indices == [] then []
    else
      var init := indices[..|indices| - 1];
      var r := KeptPositions(init, len);
      assert forall j :: 0 <= j < |r| ==> indices[r[j]] == init[r[j]];
      if InRange(indices[|indices| - 1], len) then r + [|indices| - 1] else r
  }

  /** `indices.filter(i => i >= 0 && i < ids.length).map(i => items[i].id)`,
      with `None` for the `TypeError` a faulty element causes. Otherwise the
      ids at exactly the positions that pass the filter, in index-list
      order. */
  function PickIds(indices: seq<Json>, ids: seq<string>): (r: Option<seq<string>>)
    ensures r.None? <==> exists k :: 0 <= k < |indices| && Faulty(indices[k], |ids|)
    ensures r.Some? ==> |r.value| == |KeptPositions(indices, |ids|)|
    ensures r.Some? ==> forall j :: 0 <= j < |r.value| ==>
      r.value[j] == IdAt(indices[KeptPositions(indices, |ids|)[j]], ids)
  {
    if indices == [] then Some([])
    else
      var init := indices[..|indices| - 1];
      var last := indices[|indices| - 1];
      var rest := PickIds(init, ids);
      assert forall k :: 0 <= k < |init| ==> init[k] == indices[k];
      if rest.None? then None
      else if !InRange(last, |ids|) then rest
      else if Faulty(last, |ids|) then None
      else Some(rest.value + [IdAt(last, ids)])
  }

  /** The id lists stay in bounds: they are no longer than the index lists
      and every id is one of the items'. */
  lemma PickIdsBounded(indices: seq<Json>, ids: seq<string>)
    requires PickIds(indices, ids).Some?
    ensures |PickIds(indices, ids).value| <= |indices|
    ensures forall x :: x in PickIds(indices, ids).value ==> x in ids
  {
    var r, kp := PickIds(indices, ids).value, KeptPositions(indices, |ids|);
    forall x | x in r ensures x in ids {
      var j :| 0 <= j < |r| && r[j] == x;
      assert r[j] == ids[IndexOf(indices[kp[j]].n, |ids|)];
    }
  }

  /** With whole-number indices only, every index in range contributes its
      id and nothing else does. */
  lemma PickIdsOfNumbers(ns: seq<nat>, ids: seq<string>)
    ensures var indices := seq(|ns|, k requires 0 <= k < |ns| => JNumber(ns[k] as real));
      && PickIds(indices, ids).Some?
      && |PickIds(indices, ids).value| == |KeptPositions(indices, |ids|)|
      && (forall j :: 0 <= j < |KeptPositions(indices, |ids|)| ==>
            ns[KeptPositions(indices, |ids|)[j]] < |ids|
            && PickIds(indices, ids).value[j] == ids[ns[KeptPositions(indices, |ids|)[j]]])
  {
    var indices := seq(|ns|, k requires 0 <= k < |ns| => JNumber(ns[k] as real));
    assert forall k :: 0 <= k < |indices| ==> !Faulty(indices[k], |ids|) by {
      forall k | 0 <= k < |indices| ensures !Faulty(indices[k], |ids|) {
        assert indices[k] == JNumber(ns[k] as real);
        assert IsIntegral(ns[k] as real);
      }
    }
    var kp := KeptPositions(indices, |ids|);
    forall j | 0 <= j < |kp|
      ensures ns[kp[j]] < |ids| && PickIds(indices, ids).value[j] == ids[ns[kp[j]]]
    {
      assert indices[kp[j]] == JNumber(ns[kp[j]] as real);
      assert IndexOf(ns[kp[j]] as real, |ids|) == ns[kp[j]];
    }
  }

  // ---------------------------------------------------------------------
  // Rows
  // ---------------------------------------------------------------------

  /** At most this many clusters become rows. */
  const MaxRows: nat := 5

  /** The per-cluster part of a stored row: title, description (`?? null`),
      the raw index count and the picked ids. */
  datatype ClusterRow = ClusterRow(title: string, description: Json, count: nat, ids: seq<string>)

  /** `o.description ?? null`. */
  function StoredDescription(d: Option<Json>): (r: Json)
    ensures Nullish(d) ==> r == JNull
    ensures !Nullish(d) ==> r == d.value
  {
    if Nullish(d) then JNull else d.value
  }

  function RowOf(c: Cluster, ids: seq<string>): Option<ClusterRow> {
    var picked := PickIds(c.indices, ids);
    if picked.None? then None
    else Some(ClusterRow(c.title, StoredDescription(c.description), |c.indices|, picked.value))
  }

  function RowsOf(clusters: seq<Cluster>, ids: seq<string>): Option<seq<ClusterRow>> {
    if clusters == [] then Some([])
    else
      var head := RowOf(clusters[0], ids);
      var rest := RowsOf(clusters[1..], ids);
      if head.None? || rest.None? then None else Some([head.value] + rest.value)
  }

  /** `clusters.slice(0, 5).map(...)`: `None` when building a row throws. */
  function ClusterRows(clusters: seq<Cluster>, ids: seq<string>): Option<seq<ClusterRow>> {
    RowsOf(Take(clusters, MaxRows), ids)
  }

  lemma {:induction false} RowsOfShape(clusters: seq<Cluster>, ids: seq<string>)
    ensures RowsOf(clusters, ids).None? <==> exists k :: 0 <= k < |clusters| && RowOf(clusters[k], ids).None?
    ensures RowsOf(clusters, ids).Some? ==>
      |RowsOf(clusters, ids).value| == |clusters|
      && forall k :: 0 <= k < |clusters| ==> RowsOf(clusters, ids).value[k] == RowOf(clusters[k], ids).value
  {
    if clusters != [] {
      RowsOfShape(clusters[1..], ids);
      assert forall k :: 1 <= k < |clusters| ==> clusters[1..][k - 1] == clusters[k];
    }
  }

  /** At most five rows, one per leading cluster, in order, each carrying
      its cluster's title, the unfiltered index count (never below the
      number of ids) and ids of the items only; a faulty index in any of
      the first five clusters yields no rows at all. */
  lemma ClusterRowsShape(clusters: seq<Cluster>, ids: seq<string>)
    ensures ClusterRows(clusters, ids).None? <==>
      exists k :: 0 <= k < Min(MaxRows, |clusters|)
        && exists i :: 0 <= i < |clusters[k].indices| && Faulty(clusters[k].indices[i], |ids|)
    ensures ClusterRows(clusters, ids).Some? ==>
      var rows := ClusterRows(clusters, ids).value;
      && |rows| == Min(MaxRows, |clusters|) && |rows| <= MaxRows
      && forall k :: 0 <= k < |rows| ==>
           && rows[k].title == clusters[k].title
           && rows[k].description == StoredDescription(clusters[k].description)
           && rows[k].count == |clusters[k].indices|
           && |rows[k].ids| <= rows[k].count
           && (forall x :: x in rows[k].ids ==> x in ids)
           && Some(rows[k].ids) == PickIds(clusters[k].indices, ids)
  {
    var top := Take(clusters, MaxRows);
    RowsOfShape(top, ids);
    assert forall k :: 0 <= k < |top| ==> top[k] == clusters[k];
    if ClusterRows(clusters, ids).Some? {
      var rows := ClusterRows(clusters, ids).value;
      forall k | 0 <= k < |rows|
        ensures |rows[k].ids| <= rows[k].count && (forall x :: x in rows[k].ids ==> x in ids)
      {
        PickIdsBounded(clusters[k].indices, ids);
      }
    }
  }

  // ---------------------------------------------------------------------
  // Writes
  // ---------------------------------------------------------------------

  /** What a clustering run does to its table: clears the rows of the date,
      inserts one batch of rows (`ok` is whether the insert reported no
      error), or sleeps. */
  datatype Write<R> = Cleared(date: string) | Inserted(rows: seq<R>, ok: bool) | Slept(ms: nat)

  /** The number of rows the successful inserts stored. */
  function StoredCount<R>(writes: seq<Write<R>>): nat {
    if writes == [] then 0
    else
      var w := writes[|writes| - 1];
      StoredCount(writes[..|writes| - 1]) + (if w.Inserted? && w.ok then |w.rows| else 0)
  }

  lemma StoredCountAppend<R>(writes: seq<Write<R>>, w: Write<R>)
    ensures StoredCount(writes + [w]) == StoredCount(writes) + (if w.Inserted? && w.ok then |w.rows| else 0)
  {
    assert (writes + [w])[..|writes|] == writes;
  }
}
