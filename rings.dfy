/**
 * The polygon rings of roadmap_screen.c, as values: how the screen
 * vertices of a polygon collapse (consecutive identical points count
 * once), how the ring is closed, which of its edges the outline pass
 * marks as drawable, and which runs of marked edges the outline draws.
 */
module Rings {
  import opened CInt
  import opened Geo
  import opened Batch

  /** A screen vertex of a polygon, and whether it is a real vertex of the map rather than a cut made by a tile edge. */
  datatype Vertex = Vertex(point: GuiPoint, isReal: bool)

  /** The point the next vertex is compared with: the last one kept, or `start` when none is. */
  function LastKept(start: Option<GuiPoint>, kept: seq<Vertex>): Option<GuiPoint>
  {
    if kept == [] then start else Some(kept[|kept| - 1].point)
  }

  /**
   * The collapsing loop of roadmap_screen_draw_polygons: each vertex is
   * kept unless its point equals the last point kept; `start` stands for
   * what the first vertex is compared with.
   */
  function CollapseFrom(start: Option<GuiPoint>, vs: seq<Vertex>): (kept: seq<Vertex>)
    ensures |kept| <= |vs|
  {
    if vs == [] then []
    else
      var k := CollapseFrom(start, vs[..|vs| - 1]);
      if LastKept(start, k) == Some(vs[|vs| - 1].point) then k else k + [vs[|vs| - 1]]
  }

  /** The collapse as intended: the first vertex is always kept. */
  function Collapse(vs: seq<Vertex>): seq<Vertex>
  {
    CollapseFrom(None, vs)
  }

  /** The collapse as written: the first vertex is compared with a static point at (0, 0). */
  function CollapseAsWritten(vs: seq<Vertex>): seq<Vertex>
  {
    CollapseFrom(Some(GuiPoint(0, 0)), vs)
  }

  /** Kept points never repeat back to back, and the first differs from `start`. */
  lemma {:induction false} CollapseDistinct(start: Option<GuiPoint>, vs: seq<Vertex>)
    ensures var kept := CollapseFrom(start, vs);
            (forall k :: 0 <= k < |kept| - 1 ==> kept[k].point != kept[k + 1].point) &&
            (kept != [] && start.Some? ==> kept[0].point != start.value)
  {
    if vs != [] {
      CollapseDistinct(start, vs[..|vs| - 1]);
    }
  }

  /** Every kept vertex comes from the input. */
  lemma {:induction false} CollapseFromInput(start: Option<GuiPoint>, vs: seq<Vertex>)
    ensures forall k :: 0 <= k < |CollapseFrom(start, vs)| ==> CollapseFrom(start, vs)[k] in vs
  {
    if vs != [] {
      var pre := vs[..|vs| - 1];
      CollapseFromInput(start, pre);
      assert forall v :: v in pre ==> v in vs;
    }
  }

  /** Every input point is the point of some kept vertex, or equals `start`. */
  lemma {:induction false} CollapseLosesNothing(start: Option<GuiPoint>, vs: seq<Vertex>)
    ensures forall j :: 0 <= j < |vs| ==>
              Some(vs[j].point) == start || Kept(CollapseFrom(start, vs), vs[j].point)
  {
    if vs != [] {
      var pre := vs[..|vs| - 1];
      CollapseLosesNothing(start, pre);
      var k := CollapseFrom(start, pre);
      var kept := CollapseFrom(start, vs);
      assert k <= kept;
      forall j | 0 <= j < |vs| && Some(vs[j].point) != start
        ensures Kept(kept, vs[j].point)
      {
        if j < |pre| {
          assert pre[j] == vs[j];
          KeptGrows(k, kept, vs[j].point);
        } else if kept == k {
          assert kept[|k| - 1].point == vs[j].point;
        } else {
          assert kept[|k|] == vs[j];
        }
      }
    }
  }

  /** Some kept vertex has point `p`. */
  predicate Kept(kept: seq<Vertex>, p: GuiPoint)
  {
    exists k :: 0 <= k < |kept| && kept[k].point == p
  }

  lemma KeptGrows(k1: seq<Vertex>, k2: seq<Vertex>, p: GuiPoint)
    requires k1 <= k2 && Kept(k1, p)
    ensures Kept(k2, p)
  {
    var m :| 0 <= m < |k1| && k1[m].point == p;
    assert k2[m] == k1[m];
  }

  /** With a polygon of at least one vertex, the intended collapse keeps its first vertex. */
  lemma {:induction false} CollapseKeepsFirst(vs: seq<Vertex>)
    requires vs != []
    ensures Collapse(vs) != [] && Collapse(vs)[0] == vs[0]
  {
    CollapseStartsWith(None, vs);
  }

  lemma {:induction false} CollapseStartsWith(start: Option<GuiPoint>, vs: seq<Vertex>)
    requires vs != [] && start != Some(vs[0].point)
    ensures CollapseFrom(start, vs) != [] && CollapseFrom(start, vs)[0] == vs[0]
  {
    if |vs| > 1 {
      CollapseStartsWith(start, vs[..|vs| - 1]);
    }
  }

  /** What is compared with the first vertex no longer matters once that vertex is kept by both. */
  lemma {:induction false} CollapseStartIrrelevant(s1: Option<GuiPoint>, s2: Option<GuiPoint>, vs: seq<Vertex>)
    requires vs != [] && s1 != Some(vs[0].point) && s2 != Some(vs[0].point)
    ensures CollapseFrom(s1, vs) == CollapseFrom(s2, vs)
  {
    if |vs| > 1 {
      var pre := vs[..|vs| - 1];
      CollapseStartIrrelevant(s1, s2, pre);
      CollapseStartsWith(s1, pre);
    }
  }

  /** The two collapses agree unless the first vertex lies at screen point (0, 0). */
  lemma CollapseAgrees(vs: seq<Vertex>)
    requires vs == [] || vs[0].point != GuiPoint(0, 0)
    ensures CollapseAsWritten(vs) == Collapse(vs)
  {
    if vs != [] {
      CollapseStartIrrelevant(Some(GuiPoint(0, 0)), None, vs);
    }
  }

  /** A triangle whose first vertex is drawn at the screen's top-left corner loses that vertex as written. */
  lemma CollapseAsWrittenDropsOrigin()
    ensures var vs := [Vertex(GuiPoint(0, 0), true), Vertex(GuiPoint(10, 0), true), Vertex(GuiPoint(10, 10), true)];
            |Collapse(vs)| == 3 && |CollapseAsWritten(vs)| == 2 && Collapse(vs)[0].point == GuiPoint(0, 0) &&
            forall k :: 0 <= k < |CollapseAsWritten(vs)| ==> CollapseAsWritten(vs)[k].point != GuiPoint(0, 0)
  {
    var vs := [Vertex(GuiPoint(0, 0), true), Vertex(GuiPoint(10, 0), true), Vertex(GuiPoint(10, 10), true)];
    var origin := Some(GuiPoint(0, 0));
    assert vs[..2][..1] == vs[..1] && vs[..1][..0] == [];
    assert CollapseFrom(None, vs[..1]) == [vs[0]];
    assert CollapseFrom(None, vs[..2]) == [vs[0], vs[1]];
    assert CollapseFrom(None, vs) == [vs[0], vs[1], vs[2]];
    assert CollapseFrom(origin, vs[..1]) == [];
    assert CollapseFrom(origin, vs[..2]) == [vs[1]];
    assert CollapseFrom(origin, vs) == [vs[1], vs[2]];
  }

  /** The ring drawn for a polygon: its kept vertices, closed by repeating the first one. */
  function Ring(kept: seq<Vertex>): (r: seq<Vertex>)
    requires kept != []
    ensures |r| == |kept| + 1 >= 2 && r[0] == r[|r| - 1] && r[..|kept|] == kept
  {
    kept + [kept[0]]
  }

  /** The declutter test: the polygon's bounding box spans fewer than 5 pixels on both axes. */
  predicate QuasiPoint(upperLeft: GuiPoint, lowerRight: GuiPoint)
  {
    Abs(upperLeft.x - lowerRight.x) < 5 && Abs(upperLeft.y - lowerRight.y) < 5
  }

  /** An edge that is neither horizontal nor vertical cannot be a tile cut. */
  predicate Diagonal(a: GuiPoint, b: GuiPoint)
  {
    a.x != b.x && a.y != b.y
  }

  /**
   * The marking pass of roadmap_screen_flush_polygons over one ring: the
   * edge from vertex `k` to `k + 1` is drawn when either end is real or
   * the edge is diagonal; the closing vertex keeps its flag.
   */
  function MarkRing(pts: seq<GuiPoint>, flags: seq<bool>): (r: seq<bool>)
    requires |pts| == |flags|
    ensures |r| == |flags|
    ensures forall k :: 0 <= k < |flags| ==> (flags[k] ==> r[k])
    ensures |flags| > 0 ==> r[|flags| - 1] == flags[|flags| - 1]
  {
    seq(|flags|, k requires 0 <= k < |flags| =>
      if k + 1 < |flags| then flags[k] || flags[k + 1] || Diagonal(pts[k], pts[k + 1]) else flags[k])
  }

  /** One flag of the marking: an edge's flag, or the closing vertex's own. */
  lemma MarkRingAt(pts: seq<GuiPoint>, flags: seq<bool>, k: int)
    requires |pts| == |flags| && 0 <= k < |flags|
    ensures MarkRing(pts, flags)[k] ==
            if k + 1 < |flags| then flags[k] || flags[k + 1] || Diagonal(pts[k], pts[k + 1]) else flags[k]
  {
  }

  predicate AllAtLeastTwo(objects: seq<int>)
  {
    forall k :: 0 <= k < |objects| ==> objects[k] >= 2
  }

  /** The marking pass over every ring in the buffer, ring by ring. */
  function Marked(objects: seq<int>, pts: seq<GuiPoint>, flags: seq<bool>): (r: seq<bool>)
    requires AllAtLeastTwo(objects) && |pts| == |flags| == Sum(objects)
    ensures |r| == |flags|
  {
    if objects == [] then []
    else
      var pre := objects[..|objects| - 1];
      SumAtLeastTwice(pre);
      var start := Sum(pre);
      Marked(pre, pts[..start], flags[..start]) + MarkRing(pts[start..], flags[start..])
  }

  /** A run of the outline: `count` consecutive ring vertices from `start`. */
  datatype Run = Run(start: nat, count: nat)

  /** The state of the outline scan: the points in the run being extended, and the runs already drawn. */
  datatype Scan = Scan(points: nat, runs: seq<Run>)

  /**
   * The outline scan of roadmap_screen_flush_polygons over the first `j`
   * edges of a ring (`edges[k]` is the marked flag of the edge leaving
   * vertex `k`): a marked edge extends the current run; an unmarked one
   * ends it, and a run of two points or more is drawn.
   */
  function ScanRuns(edges: seq<bool>, j: nat): (s: Scan)
    requires j <= |edges|
    ensures 1 <= s.points <= j + 1
  {
    if j == 0 then Scan(1, [])
    else
      var s := ScanRuns(edges, j - 1);
      var e := j - 1;
      if edges[e] then Scan(s.points + 1, s.runs)
      else if s.points > 1 then Scan(1, s.runs + [Run(e - s.points + 1, s.points)])
      else Scan(1, s.runs)
  }

  /** The runs the outline draws for a ring of `|edges| + 1` vertices, the last run included. */
  function RingRuns(edges: seq<bool>): seq<Run>
  {
    var s := ScanRuns(edges, |edges|);
    if s.points > 1 then s.runs + [Run(|edges| + 1 - s.points, s.points)] else s.runs
  }

  /** A maximal run of marked edges with at least two points. */
  predicate MaximalRun(edges: seq<bool>, r: Run)
  {
    r.count >= 2 && r.start + r.count <= |edges| + 1 &&
    (forall e :: r.start <= e < r.start + r.count - 1 ==> edges[e]) &&
    (r.start == 0 || !edges[r.start - 1]) &&
    (r.start + r.count - 1 == |edges| || !edges[r.start + r.count - 1])
  }

  predicate Ordered(runs: seq<Run>)
  {
    forall t :: 0 <= t < |runs| - 1 ==> runs[t].start + runs[t].count <= runs[t + 1].start
  }

  predicate InSomeRun(runs: seq<Run>, e: int)
  {
    exists t :: 0 <= t < |runs| && runs[t].start <= e < runs[t].start + runs[t].count - 1
  }

  /**
   * The runs drawn so far, with every edge before `bound` scanned: each is
   * maximal and ends by `bound`, they are in order, and every marked edge
   * before `bound` belongs to one of them.
   */
  predicate RunsBefore(edges: seq<bool>, runs: seq<Run>, bound: int)
  {
    (forall t :: 0 <= t < |runs| ==> MaximalRun(edges, runs[t]) && runs[t].start + runs[t].count <= bound) &&
    Ordered(runs) &&
    (forall e :: 0 <= e < |edges| && e < bound && edges[e] ==> InSomeRun(runs, e))
  }

  /** Appending the maximal run that starts at the bound keeps the runs drawn so far in order and complete. */
  lemma AppendRun(edges: seq<bool>, runs: seq<Run>, r: Run)
    requires RunsBefore(edges, runs, r.start) && MaximalRun(edges, r)
    ensures RunsBefore(edges, runs + [r], r.start + r.count)
  {
    var all := runs + [r];
    assert all[|runs|] == r;
    forall e | 0 <= e < |edges| && e < r.start + r.count && edges[e]
      ensures InSomeRun(all, e)
    {
      if e < r.start {
        var t :| 0 <= t < |runs| && runs[t].start <= e < runs[t].start + runs[t].count - 1;
        assert all[t] == runs[t];
      }
    }
  }

  /**
   * What holds after `j` edges of the scan: the current run's edges are
   * marked and the run cannot start earlier, and the runs drawn so far
   * cover everything before it.
   */
  predicate ScanInv(edges: seq<bool>, j: nat, s: Scan)
    requires j <= |edges|
  {
    1 <= s.points <= j + 1 &&
    (forall e :: j - s.points + 1 <= e < j ==> edges[e]) &&
    (j - s.points + 1 == 0 || !edges[j - s.points]) &&
    RunsBefore(edges, s.runs, j - s.points + 1)
  }

  /** An unmarked edge at the bound adds nothing to cover. */
  lemma RunsBeforeSkip(edges: seq<bool>, runs: seq<Run>, bound: int)
    requires RunsBefore(edges, runs, bound) && (0 <= bound < |edges| ==> !edges[bound])
    ensures RunsBefore(edges, runs, bound + 1)
  {
  }

  lemma {:induction false} ScanInvariant(edges: seq<bool>, j: nat)
    requires j <= |edges|
    ensures ScanInv(edges, j, ScanRuns(edges, j))
  {
    if j > 0 {
      ScanInvariant(edges, j - 1);
      var s := ScanRuns(edges, j - 1);
      if edges[j - 1] {
        ScanExtends(edges, j, s);
      } else if s.points > 1 {
        AppendRun(edges, s.runs, Run(j - s.points, s.points));
      } else {
        RunsBeforeSkip(edges, s.runs, j - 1);
      }
    }
  }

  lemma ScanExtends(edges: seq<bool>, j: nat, s: Scan)
    requires 0 < j <= |edges| && ScanInv(edges, j - 1, s) && edges[j - 1]
    ensures ScanInv(edges, j, Scan(s.points + 1, s.runs))
  {
    assert j - (s.points + 1) + 1 == j - 1 - s.points + 1;
  }

  /**
   * The outline of a ring is drawn as the maximal runs of marked edges
   * that have two points or more, in order and without overlap, and
   * every marked edge is part of one of them.
   */
  lemma RingRunsMaximal(edges: seq<bool>)
    ensures RunsBefore(edges, RingRuns(edges), |edges| + 1)
  {
    var j := |edges|;
    ScanInvariant(edges, j);
    var s := ScanRuns(edges, j);
    if s.points > 1 {
      AppendRun(edges, s.runs, Run(j + 1 - s.points, s.points));
    }
  }

  /** The runs drawn after `j` edges end within the first `j + 1` vertices. */
  lemma ScanRunsFit(edges: seq<bool>, j: nat)
    requires j <= |edges|
    ensures forall t :: 0 <= t < |ScanRuns(edges, j).runs| ==>
              ScanRuns(edges, j).runs[t].start + ScanRuns(edges, j).runs[t].count <= j + 1
  {
    ScanInvariant(edges, j);
  }

  /** The runs of a ring end within its `|edges| + 1` vertices. */
  lemma RingRunsFit(edges: seq<bool>)
    ensures var runs := RingRuns(edges);
            forall t :: 0 <= t < |runs| ==> runs[t].start + runs[t].count <= |edges| + 1
  {
    RingRunsMaximal(edges);
  }

  /** The canvas calls for a ring's runs: each run is one polyline. */
  function RunCalls(pts: seq<GuiPoint>, runs: seq<Run>): (r: seq<DrawCall>)
    requires forall t :: 0 <= t < |runs| ==> runs[t].start + runs[t].count <= |pts|
    ensures |r| == |runs|
  {
    if runs == [] then []
    else
      var last := runs[|runs| - 1];
      RunCalls(pts, runs[..|runs| - 1]) + [DrawLines([last.count], pts[last.start..last.start + last.count])]
  }

  /** The outline calls for one ring of `pts` with marked flags `marked`. */
  function RingOutline(pts: seq<GuiPoint>, marked: seq<bool>): seq<DrawCall>
    requires |pts| == |marked| >= 1
  {
    var edges := marked[..|marked| - 1];
    RingRunsFit(edges);
    RunCalls(pts, RingRuns(edges))
  }

  /**
   * The outline calls for every ring in the buffer, ring by ring; each
   * ring is read at its own offset, so `pts` and `marked` may run past
   * the last ring.
   */
  function Outlines(objects: seq<int>, pts: seq<GuiPoint>, marked: seq<bool>): seq<DrawCall>
    requires AllAtLeastTwo(objects) && Sum(objects) <= |pts| == |marked|
  {
    if objects == [] then []
    else
      var pre := objects[..|objects| - 1];
      var len := objects[|objects| - 1];
      SumAtLeastTwice(pre);
      var start := Sum(pre);
      Outlines(pre, pts, marked) + RingOutlineAt(pts, marked, start, len)
  }

  /** The outline calls for the ring of `len` vertices at offset `start` of the buffer. */
  function RingOutlineAt(pts: seq<GuiPoint>, marked: seq<bool>, start: int, len: int): seq<DrawCall>
    requires 0 <= start && 1 <= len && start + len <= |pts| == |marked|
  {
    RingOutline(pts[start..start + len], marked[start..start + len])
  }

  /** The lengths before a ring add up to no more than all of them. */
  lemma {:induction false} SumPrefix(objects: seq<int>, i: nat)
    requires AllAtLeastTwo(objects) && i <= |objects|
    ensures Sum(objects[..i]) <= Sum(objects)
    ensures i < |objects| ==> Sum(objects[..i + 1]) == Sum(objects[..i]) + objects[i]
  {
    if i == |objects| {
      assert objects[..i] == objects;
    } else {
      var pre := objects[..|objects| - 1];
      SumPrefix(pre, i);
      assert pre[..i] == objects[..i];
      assert objects[..i + 1][..i] == objects[..i];
      if i + 1 == |objects| {
        assert objects[..i + 1] == objects;
      }
    }
  }

  /** Marking one more ring marks the rings before it as before and the new ring on its own. */
  lemma MarkedPush(objects: seq<int>, n: int, pts: seq<GuiPoint>, flags: seq<bool>)
    requires AllAtLeastTwo(objects) && n >= 2 && 0 <= Sum(objects) && |pts| == |flags| == Sum(objects) + n
    ensures AllAtLeastTwo(objects + [n]) && Sum(objects + [n]) == |pts|
    ensures Marked(objects + [n], pts, flags) ==
            Marked(objects, pts[..Sum(objects)], flags[..Sum(objects)]) +
            MarkRing(pts[Sum(objects)..], flags[Sum(objects)..])
  {
    assert (objects + [n])[..|objects|] == objects;
  }

  /** The outline of one more ring follows the outlines of the rings before it. */
  lemma OutlinesPush(objects: seq<int>, n: int, pts: seq<GuiPoint>, marked: seq<bool>)
    requires AllAtLeastTwo(objects) && n >= 2 && 0 <= Sum(objects) && Sum(objects) + n <= |pts| == |marked|
    ensures AllAtLeastTwo(objects + [n]) && Sum(objects + [n]) == Sum(objects) + n
    ensures Outlines(objects + [n], pts, marked) ==
            Outlines(objects, pts, marked) +
            RingOutlineAt(pts, marked, Sum(objects), n)
  {
    assert (objects + [n])[..|objects|] == objects;
  }

  /** A prefix one longer is the prefix followed by the next element. */
  lemma PrefixPush<T>(s: seq<T>, i: int)
    requires 0 <= i < |s|
    ensures s[..i + 1] == s[..i] + [s[i]]
  {
  }

  /** Sequences that agree from `pos` on agree on every slice from there. */
  lemma SuffixAgree<T>(a: seq<T>, b: seq<T>, pos: int, lo: int, hi: int)
    requires 0 <= pos <= lo <= hi <= |a| == |b| && a[pos..] == b[pos..]
    ensures a[lo..hi] == b[lo..hi] && a[hi..] == b[hi..]
  {
    forall k | pos <= k < |a|
      ensures a[k] == b[k]
    {
      assert a[k] == a[pos..][k - pos];
    }
  }

  /** Cutting a prefix at `pos` gives the shorter prefix and the slice from `pos`. */
  lemma PrefixSplit<T>(s: seq<T>, pos: int, n: int)
    requires 0 <= pos <= n <= |s|
    ensures s[..n][..pos] == s[..pos] && s[..n][pos..] == s[pos..n]
  {
  }

  /** The outlines of the first `i + 1` rings are those of the first `i` followed by ring `i`'s. */
  lemma OutlinesNext(objects: seq<int>, i: int, pts: seq<GuiPoint>, marked: seq<bool>)
    requires AllAtLeastTwo(objects) && 0 <= i < |objects| && Sum(objects) <= |pts| == |marked|
    ensures 0 <= Sum(objects[..i]) && Sum(objects[..i + 1]) == Sum(objects[..i]) + objects[i] <= Sum(objects)
    ensures AllAtLeastTwo(objects[..i + 1])
    ensures Outlines(objects[..i + 1], pts, marked) ==
            Outlines(objects[..i], pts, marked) + RingOutlineAt(pts, marked, Sum(objects[..i]), objects[i])
  {
    SumPrefix(objects, i + 1);
    SumAtLeastTwice(objects[..i]);
    PrefixPush(objects, i);
    OutlinesPush(objects[..i], objects[i], pts, marked);
  }

  /** A ring's outline reads only its own vertices, so a buffer cut after it gives the same outline. */
  lemma RingOutlineAtPrefix(pts: seq<GuiPoint>, marked: seq<bool>, start: int, len: int, k: int)
    requires 0 <= start && 1 <= len && start + len <= k <= |pts| == |marked|
    ensures RingOutlineAt(pts, marked, start, len) == RingOutlineAt(pts[..k], marked[..k], start, len)
  {
    assert pts[..k][start..start + len] == pts[start..start + len];
    assert marked[..k][start..start + len] == marked[start..start + len];
  }

  /** The outlines read only the rings' own vertices, so a buffer cut after the last ring gives the same outlines. */
  lemma {:induction false} OutlinesPrefix(objects: seq<int>, pts: seq<GuiPoint>, marked: seq<bool>, k: int)
    requires AllAtLeastTwo(objects) && 0 <= Sum(objects) <= k <= |pts| == |marked|
    ensures Outlines(objects, pts, marked) == Outlines(objects, pts[..k], marked[..k])
  {
    if objects != [] {
      var pre := objects[..|objects| - 1];
      SumAtLeastTwice(pre);
      OutlinesPrefix(pre, pts, marked, k);
      RingOutlineAtPrefix(pts, marked, Sum(pre), objects[|objects| - 1], k);
    }
  }

  /** One more run adds one more polyline. */
  lemma RunCallsPush(pts: seq<GuiPoint>, runs: seq<Run>, r: Run)
    requires forall t :: 0 <= t < |runs| ==> runs[t].start + runs[t].count <= |pts|
    requires r.start + r.count <= |pts|
    ensures RunCalls(pts, runs + [r]) == RunCalls(pts, runs) + [DrawLines([r.count], pts[r.start..r.start + r.count])]
  {
    var all := runs + [r];
    assert all[..|all| - 1] == runs;
    assert all[|all| - 1] == r;
    RunCallsLast(pts, all);
  }

  /** The polylines of a non-empty list of runs end with its last run's. */
  lemma RunCallsLast(pts: seq<GuiPoint>, runs: seq<Run>)
    requires runs != [] && forall t :: 0 <= t < |runs| ==> runs[t].start + runs[t].count <= |pts|
    ensures var last := runs[|runs| - 1];
            RunCalls(pts, runs) == RunCalls(pts, runs[..|runs| - 1]) + [DrawLines([last.count], pts[last.start..last.start + last.count])]
  {
  }

  /** The polylines drawn once the first `j` edges of a ring have been scanned. */
  function ScanCalls(pts: seq<GuiPoint>, edges: seq<bool>, j: nat): seq<DrawCall>
    requires j <= |edges| < |pts|
  {
    ScanRunsFit(edges, j);
    RunCalls(pts, ScanRuns(edges, j).runs)
  }

  /** Scanning one more edge draws the current run exactly when the edge is unmarked and the run has two points. */
  lemma ScanCallsStep(pts: seq<GuiPoint>, edges: seq<bool>, j: nat)
    requires 1 <= j <= |edges| < |pts|
    ensures var s := ScanRuns(edges, j - 1);
            ScanCalls(pts, edges, j) ==
              if !edges[j - 1] && s.points > 1 then ScanCalls(pts, edges, j - 1) + [DrawLines([s.points], pts[j - s.points..j])]
              else ScanCalls(pts, edges, j - 1)
  {
    var s := ScanRuns(edges, j - 1);
    ScanRunsFit(edges, j - 1);
    if !edges[j - 1] && s.points > 1 {
      RunCallsPush(pts, s.runs, Run(j - s.points, s.points));
    }
  }

  /** The outline of a ring is the scan of all its edges followed by the run still open at the end. */
  lemma RingOutlineClose(pts: seq<GuiPoint>, marked: seq<bool>)
    requires |pts| == |marked| >= 1
    ensures var edges := marked[..|marked| - 1];
            var s := ScanRuns(edges, |edges|);
            RingOutline(pts, marked) ==
              ScanCalls(pts, edges, |edges|) + if s.points > 1 then [DrawLines([s.points], pts[|pts| - s.points..])] else []
  {
    var edges := marked[..|marked| - 1];
    var s := ScanRuns(edges, |edges|);
    ScanRunsFit(edges, |edges|);
    assert RingOutline(pts, marked) == RunCalls(pts, RingRuns(edges));
    assert ScanCalls(pts, edges, |edges|) == RunCalls(pts, s.runs);
    if s.points > 1 {
      var r := Run(|edges| + 1 - s.points, s.points);
      RunCallsPush(pts, s.runs, r);
      assert pts[r.start..r.start + r.count] == pts[|pts| - s.points..];
    }
  }
}
