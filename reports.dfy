/**
 * The report view (frontend/src/pages/ReportsPage.tsx): the scored rows of one
 * brief, the client-side sort chosen by a `SortKey`, and the state the fetch
 * effect keeps. CSV export is in module ReportsCsv.
 */
module Reports {
  import opened Maybe
  import opened Api
  import Radar

  /** One scored influencer as the reports endpoint returns it. */
  datatype Item = Item(
    influencerId: int,
    briefId: int,
    handle: string,
    authenticity: real,
    relevance: real,
    resonance: real,
    expectedRoas: real,
    trustIndex: real,
    topSignals: seq<string>)

  /** The five sort choices; `trust` is the initial one. */
  datatype SortKey = Trust | Auth | Rel | Res | Roas

  const InitialSortKey: SortKey := Trust

  /** The field each comparator `(a, b) => b.f - a.f` orders by. */
  function Metric(k: SortKey, x: Item): real {
    match k
    case Trust => x.trustIndex
    case Auth => x.authenticity
    case Rel => x.relevance
    case Res => x.resonance
    case Roas => x.expectedRoas
  }

  /** Non-increasing in the chosen metric. */
  ghost predicate Descending(k: SortKey, s: seq<Item>) {
    forall i, j :: 0 <= i < j < |s| ==> Metric(k, s[i]) >= Metric(k, s[j])
  }

  /** The rows whose metric equals `v`, in their order in `s`. */
  function WithMetric(k: SortKey, s: seq<Item>, v: real): (r: seq<Item>)
  {
    if s == [] then []
    else (if Metric(k, s[0]) == v then [s[0]] else []) + WithMetric(k, s[1..], v)
  }

  /**
   * Stability: for every value of the metric, the rows carrying it come in the
   * same relative order in `t` as in `s`.
   */
  ghost predicate SameTieOrder(k: SortKey, t: seq<Item>, s: seq<Item>) {
    forall v :: WithMetric(k, t, v) == WithMetric(k, s, v)
  }

  /** Places `x` before the first row whose metric is at most `x`'s. */
  function Insert(k: SortKey, x: Item, s: seq<Item>): (r: seq<Item>)
    ensures multiset(r) == multiset(s) + multiset{x}
  {
    if s == [] || Metric(k, s[0]) <= Metric(k, x) then [x] + s
    else
      assert s == [s[0]] + s[1..];
      [s[0]] + Insert(k, x, s[1..])
  }

  /** Every row `Insert` returns is bounded by any bound on `x` and on the rows of `s`. */
  lemma {:induction false} InsertBounded(k: SortKey, x: Item, s: seq<Item>, m: real)
    requires Metric(k, x) <= m
    requires forall i :: 0 <= i < |s| ==> Metric(k, s[i]) <= m
    ensures forall i :: 0 <= i < |Insert(k, x, s)| ==> Metric(k, Insert(k, x, s)[i]) <= m
  {
    if s != [] && Metric(k, s[0]) > Metric(k, x) {
      InsertBounded(k, x, s[1..], m);
    }
  }

  lemma DescendingCons(k: SortKey, a: Item, t: seq<Item>)
    requires Descending(k, t)
    requires forall i :: 0 <= i < |t| ==> Metric(k, t[i]) <= Metric(k, a)
    ensures Descending(k, [a] + t)
  {
    var r := [a] + t;
    forall i, j | 0 <= i < j < |r| ensures Metric(k, r[i]) >= Metric(k, r[j]) {
      assert r[j] == t[j - 1];
      if i > 0 {
        assert r[i] == t[i - 1];
      }
    }
  }

  lemma {:induction false} InsertDescending(k: SortKey, x: Item, s: seq<Item>)
    requires Descending(k, s)
    ensures Descending(k, Insert(k, x, s))
  {
    if s == [] || Metric(k, s[0]) <= Metric(k, x) {
      DescendingCons(k, x, s);
    } else {
      var t := Insert(k, x, s[1..]);
      InsertDescending(k, x, s[1..]);
      InsertBounded(k, x, s[1..], Metric(k, s[0]));
      DescendingCons(k, s[0], t);
    }
  }

  /**
   * `[...rows].sort(sorters[k])`: a new, descending, stable ordering of the
   * rows (the engine's sort is stable; which algorithm it uses does not
   * matter, see SortByIsTheStableSort).
   */
  function SortBy(k: SortKey, rows: seq<Item>): (r: seq<Item>)
    ensures multiset(r) == multiset(rows)
    ensures |r| == |rows|
    ensures Descending(k, r)
  {
    if rows == [] then []
    else
      var rest := SortBy(k, rows[1..]);
      InsertDescending(k, rows[0], rest);
      var r := Insert(k, rows[0], rest);
      assert rows == [rows[0]] + rows[1..];
      assert multiset(rows) == multiset{rows[0]} + multiset(rows[1..]);
      assert |r| == |multiset(r)|;
      r
  }

  lemma {:induction false} WithMetricAppend(k: SortKey, a: seq<Item>, b: seq<Item>, v: real)
    ensures WithMetric(k, a + b, v) == WithMetric(k, a, v) + WithMetric(k, b, v)
  {
    if a == [] {
      assert a + b == b;
    } else {
      assert a + b == [a[0]] + (a[1..] + b);
      WithMetricCons(k, a[0], a[1..] + b, v);
      WithMetricCons(k, a[0], a[1..], v);
      assert [a[0]] + a[1..] == a;
      WithMetricAppend(k, a[1..], b, v);
    }
  }

  /** Inserting `x` puts it ahead of every row that ties with it and changes no other tie order. */
  lemma {:induction false} InsertTieOrder(k: SortKey, x: Item, s: seq<Item>, v: real)
    ensures WithMetric(k, Insert(k, x, s), v)
         == (if Metric(k, x) == v then [x] else []) + WithMetric(k, s, v)
  {
    if s == [] || Metric(k, s[0]) <= Metric(k, x) {
      WithMetricCons(k, x, s, v);
    } else {
      var t := Insert(k, x, s[1..]);
      InsertTieOrder(k, x, s[1..], v);
      WithMetricCons(k, s[0], t, v);
      WithMetricCons(k, s[0], s[1..], v);
      assert [s[0]] + s[1..] == s;
      if Metric(k, s[0]) == v {
        assert Metric(k, x) != v;
      }
    }
  }

  /** The rows of `[a] + t` with value `v`: `a` if it has it, then those of `t`. */
  lemma WithMetricCons(k: SortKey, a: Item, t: seq<Item>, v: real)
    ensures WithMetric(k, [a] + t, v) == (if Metric(k, a) == v then [a] else []) + WithMetric(k, t, v)
  {
    assert ([a] + t)[1..] == t;
  }

  /** Rows with equal keys keep their fetched order. */
  lemma {:induction false} SortByIsStable(k: SortKey, rows: seq<Item>)
    ensures SameTieOrder(k, SortBy(k, rows), rows)
  {
    forall v ensures WithMetric(k, SortBy(k, rows), v) == WithMetric(k, rows, v) {
      SortByIsStableAt(k, rows, v);
    }
  }

  lemma {:induction false} SortByIsStableAt(k: SortKey, rows: seq<Item>, v: real)
    ensures WithMetric(k, SortBy(k, rows), v) == WithMetric(k, rows, v)
  {
    if rows != [] {
      SortByIsStableAt(k, rows[1..], v);
      InsertTieOrder(k, rows[0], SortBy(k, rows[1..]), v);
    }
  }

  /** A row is among the rows tying with it. */
  lemma HeadTies(k: SortKey, t: seq<Item>)
    requires t != []
    ensures WithMetric(k, t, Metric(k, t[0])) == [t[0]] + WithMetric(k, t[1..], Metric(k, t[0]))
  {
  }

  /** In a descending ordering no row has a metric above the first row's. */
  lemma {:induction false} NoneAboveHead(k: SortKey, t: seq<Item>, v: real)
    requires t != [] && Descending(k, t)
    requires v > Metric(k, t[0])
    ensures WithMetric(k, t, v) == []
  {
    forall i | 0 <= i < |t| ensures Metric(k, t[i]) != v {
      assert i == 0 || Metric(k, t[0]) >= Metric(k, t[i]);
    }
    NoTies(k, t, v);
  }

  lemma {:induction false} NoTies(k: SortKey, t: seq<Item>, v: real)
    requires forall i :: 0 <= i < |t| ==> Metric(k, t[i]) != v
    ensures WithMetric(k, t, v) == []
  {
    if t != [] {
      NoTies(k, t[1..], v);
    }
  }

  /** Dropping the same first row from both keeps the tie orders equal. */
  lemma {:induction false} TailsSameTieOrder(k: SortKey, t1: seq<Item>, t2: seq<Item>)
    requires t1 != [] && t2 != [] && t1[0] == t2[0]
    requires SameTieOrder(k, t1, t2)
    ensures SameTieOrder(k, t1[1..], t2[1..])
  {
    var v := Metric(k, t1[0]);
    forall w ensures WithMetric(k, t1[1..], w) == WithMetric(k, t2[1..], w) {
      var a, b := WithMetric(k, t1[1..], w), WithMetric(k, t2[1..], w);
      assert WithMetric(k, t1, w) == WithMetric(k, t2, w);
      if w == v {
        assert ([t1[0]] + a)[1..] == a;
        assert ([t2[0]] + b)[1..] == b;
      } else {
        assert WithMetric(k, t1, w) == [] + a == a;
        assert WithMetric(k, t2, w) == [] + b == b;
      }
    }
  }

  /**
   * Two descending orderings with the same tie order are the same sequence:
   * a stable descending sort has exactly one possible result.
   */
  lemma StableDescendingUnique(k: SortKey, t1: seq<Item>, t2: seq<Item>)
    requires Descending(k, t1) && Descending(k, t2)
    requires SameTieOrder(k, t1, t2)
    ensures t1 == t2
    decreases |t1| + |t2|
  {
    if t1 == [] || t2 == [] {
      BothEmpty(k, t1, t2);
    } else {
      HeadsEqual(k, t1, t2);
      TailsSameTieOrder(k, t1, t2);
      StableDescendingUnique(k, t1[1..], t2[1..]);
      assert t1 == [t1[0]] + t1[1..];
      assert t2 == [t2[0]] + t2[1..];
    }
  }

  /** With the same tie order, one ordering is empty only when the other is. */
  lemma BothEmpty(k: SortKey, t1: seq<Item>, t2: seq<Item>)
    requires SameTieOrder(k, t1, t2)
    requires t1 == [] || t2 == []
    ensures t1 == [] && t2 == []
  {
    if t1 != [] {
      HeadTies(k, t1);
    } else if t2 != [] {
      HeadTies(k, t2);
    }
  }

  /** Two descending orderings with the same tie order start with the same row. */
  lemma HeadsEqual(k: SortKey, t1: seq<Item>, t2: seq<Item>)
    requires t1 != [] && t2 != []
    requires Descending(k, t1) && Descending(k, t2)
    requires SameTieOrder(k, t1, t2)
    ensures t1[0] == t2[0]
  {
    var v1, v2 := Metric(k, t1[0]), Metric(k, t2[0]);
    HeadTies(k, t1);
    HeadTies(k, t2);
    if v1 > v2 {
      NoneAboveHead(k, t2, v1);
    } else if v2 > v1 {
      NoneAboveHead(k, t1, v2);
    } else {
      assert WithMetric(k, t1, v1) == WithMetric(k, t2, v1);
    }
  }

  /**
   * Whatever stable sort the browser runs, with the comparator for `k` it
   * returns `SortBy(k, rows)`: any descending ordering that keeps the fetched
   * order of ties is this one.
   */
  lemma SortByIsTheStableSort(k: SortKey, rows: seq<Item>, t: seq<Item>)
    requires Descending(k, t) && SameTieOrder(k, t, rows)
    ensures t == SortBy(k, rows)
  {
    SortByIsStable(k, rows);
    StableDescendingUnique(k, t, SortBy(k, rows));
  }

  /** Sorting an already sorted view again by the same key changes nothing. */
  lemma SortByIdempotent(k: SortKey, rows: seq<Item>)
    ensures SortBy(k, SortBy(k, rows)) == SortBy(k, rows)
  {
    var s := SortBy(k, rows);
    SortByIsStable(k, s);
    StableDescendingUnique(k, SortBy(k, s), s);
  }

  /**
   * The radar card's input: the top row of the sorted view with all five
   * metrics present (ReportsPage.tsx passes `sorted[0]`'s fields as `row`).
   */
  function TopRadar(sorted: seq<Item>): (d: seq<Radar.Entry>)
    requires sorted != []
    ensures |d| == 5
    ensures d[0] == Radar.Entry(Radar.AuthenticityLabel, sorted[0].authenticity)
    ensures d[1] == Radar.Entry(Radar.RelevanceLabel, sorted[0].relevance)
    ensures d[2] == Radar.Entry(Radar.ResonanceLabel, sorted[0].resonance)
    ensures d[3] == Radar.Entry(Radar.RoasLabel, sorted[0].expectedRoas)
    ensures d[4] == Radar.Entry(Radar.TrustLabel, sorted[0].trustIndex)
  {
    var top := sorted[0];
    Radar.RadarData(None, Some(Radar.Metrics(
      Some(top.authenticity), Some(top.relevance), Some(top.resonance),
      Some(top.expectedRoas), Some(top.trustIndex))))
  }

  /** Under the initial key, the radar's Trust entry is the largest trust index among the rows. */
  lemma TopRadarShowsMaxTrust(rows: seq<Item>)
    requires rows != []
    ensures forall x :: x in rows ==> TopRadar(SortBy(InitialSortKey, rows))[4].value >= x.trustIndex
  {
    var s := SortBy(InitialSortKey, rows);
    forall x | x in rows ensures s[0].trustIndex >= x.trustIndex {
      assert x in multiset(s);
      var i :| 0 <= i < |s| && s[i] == x;
      assert i == 0 || Metric(Trust, s[0]) >= Metric(Trust, s[i]);
    }
  }

  /** The state of the page: the fetched rows, the sort key, the loading flag and the error text. */
  class ReportsView {
    const briefId: Option<string>
    var rows: seq<Item>
    var sortBy: SortKey
    var loading: bool
    var err: Option<string>

    constructor (briefId: Option<string>)
      ensures this.briefId == briefId
      ensures rows == [] && sortBy == InitialSortKey && loading && err == None
    {
      this.briefId := briefId;
      rows := [];
      sortBy := InitialSortKey;
      loading := true;
      err := None;
    }

    /** The `sorted` memo: always recomputed from `rows`, which it never reorders. */
    function Sorted(): (s: seq<Item>)
      reads this
      ensures multiset(s) == multiset(rows) && Descending(sortBy, s)
      ensures SameTieOrder(sortBy, s, rows)
    {
      SortByIsStable(sortBy, rows);
      SortBy(sortBy, rows)
    }

    /** Choosing a key in the select box. */
    method SetSortBy(k: SortKey)
      modifies this`sortBy
      ensures sortBy == k && rows == old(rows)
      ensures Sorted() == SortBy(k, rows)
    {
      sortBy := k;
    }

    /**
     * The fetch effect. With no brief id nothing is requested and nothing
     * changes; otherwise `response` is the answer to `GET /reports/<id>`: its
     * payload (null becomes `[]`) replaces the rows, or its error becomes the
     * message, and loading ends either way.
     */
    method Load(response: Response<Option<seq<Item>>>) returns (requested: bool)
      modifies this
      ensures requested <==> Truthy(briefId)
      ensures !requested ==> rows == old(rows) && sortBy == old(sortBy) && loading == old(loading) && err == old(err)
      ensures requested ==> !loading && sortBy == old(sortBy)
      ensures requested && response.Ok? ==> err == None && rows == response.data.GetOr([])
      ensures requested && response.Failed? ==>
                rows == old(rows) && err == Some(DetailOr(response.error, "Failed to load report"))
    {
      requested := Truthy(briefId);
      if !requested {
        return;
      }
      loading := true;
      err := None;
      if response.Ok? {
        rows := response.data.GetOr([]);
      } else {
        err := Some(DetailOr(response.error, "Failed to load report"));
      }
      loading := false;
    }
  }
}
