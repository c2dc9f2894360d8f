/** List logic over a constellation (a sequence of `BalloonData`) that both the
    globe overlays and the data hook rely on: `find` by hour, the stable
    `Array.prototype.sort` by hour, and "the snapshots that contain balloon id". */
module Snapshots {
  import opened DashboardTypes

  /** `constellation.find(d => d.hour === h)`: the first snapshot for hour `h`. */
  function FindHour(c: seq<BalloonData>, h: int): (r: Option<BalloonData>)
    ensures r.None? <==> forall i :: 0 <= i < |c| ==> c[i].hour != h
    ensures r.Some? ==> exists i :: 0 <= i < |c| && c[i] == r.value && IsFirstOfHour(c, h, i)
  {
    if c == [] then None
    else if c[0].hour == h then
      assert IsFirstOfHour(c, h, 0);
      Some(c[0])
    else
      var r := FindHour(c[1..], h);
      assert r.Some? ==> exists i :: 0 <= i < |c| && c[i] == r.value && IsFirstOfHour(c, h, i) by {
        if r.Some? {
          var i :| 0 <= i < |c[1..]| && c[1..][i] == r.value && IsFirstOfHour(c[1..], h, i);
          assert IsFirstOfHour(c, h, i + 1);
        }
      }
      r
  }

  /** Index `i` holds the first snapshot of hour `h`. */
  ghost predicate IsFirstOfHour(c: seq<BalloonData>, h: int, i: int)
  {
    0 <= i < |c| && c[i].hour == h && forall j :: 0 <= j < i ==> c[j].hour != h
  }

  /** The sort key of a comparator: `a.hour - b.hour` sorts by `hour`,
      `b.hour - a.hour` sorts by `-hour`. */
  function Key(b: BalloonData, ascending: bool): int
  {
    if ascending then b.hour else -b.hour
  }

  /** Ascending hour order (`ascending`) or descending hour order (`!ascending`). */
  ghost predicate SortedBy(s: seq<BalloonData>, ascending: bool)
  {
    forall i, j :: 0 <= i < j < |s| ==> Key(s[i], ascending) <= Key(s[j], ascending)
  }

  /** Inserts `x` in front of the first element whose key is not smaller, so
      that `x` stays before the elements it preceded that have an equal key. */
  function Insert(x: BalloonData, s: seq<BalloonData>, ascending: bool): seq<BalloonData>
  {
    if s == [] || Key(x, ascending) <= Key(s[0], ascending) then [x] + s
    else [s[0]] + Insert(x, s[1..], ascending)
  }

  /** Insertion adds exactly `x`. */
  lemma {:induction false} InsertSpec(x: BalloonData, s: seq<BalloonData>, ascending: bool)
    ensures |Insert(x, s, ascending)| == |s| + 1
    ensures multiset(Insert(x, s, ascending)) == multiset(s) + multiset{x}
    decreases |s|
  {
    if !(s == [] || Key(x, ascending) <= Key(s[0], ascending)) {
      InsertSpec(x, s[1..], ascending);
      assert s == [s[0]] + s[1..];
    }
  }

  /** Insertion keeps a sorted sequence sorted. */
  lemma {:induction false} InsertKeepsSorted(x: BalloonData, s: seq<BalloonData>, ascending: bool)
    requires SortedBy(s, ascending)
    ensures SortedBy(Insert(x, s, ascending), ascending)
    decreases |s|
  {
    if s == [] || Key(x, ascending) <= Key(s[0], ascending) {
      SortedCons(x, s, ascending);
    } else {
      var t := Insert(x, s[1..], ascending);
      assert SortedBy(s[1..], ascending);
      InsertKeepsSorted(x, s[1..], ascending);
      InsertSpec(x, s[1..], ascending);
      assert s == [s[0]] + s[1..];
      HeadBoundsInserted(x, s, t, ascending);
      SortedCons(s[0], t, ascending);
    }
  }

  /** A head no larger than every element of a sorted tail gives a sorted sequence. */
  lemma SortedCons(h: BalloonData, t: seq<BalloonData>, ascending: bool)
    requires SortedBy(t, ascending)
    requires forall k :: 0 <= k < |t| ==> Key(h, ascending) <= Key(t[k], ascending)
    ensures SortedBy([h] + t, ascending)
  {
  }

  /** Every element of `t`, a rearrangement of `s[1..]` plus a larger `x`, is at
      least the head of the sorted `s`. */
  lemma HeadBoundsInserted(x: BalloonData, s: seq<BalloonData>, t: seq<BalloonData>, ascending: bool)
    requires SortedBy(s, ascending) && s != []
    requires Key(s[0], ascending) < Key(x, ascending)
    requires multiset(t) == multiset(s[1..]) + multiset{x}
    ensures forall k :: 0 <= k < |t| ==> Key(s[0], ascending) <= Key(t[k], ascending)
  {
    forall k | 0 <= k < |t|
      ensures Key(s[0], ascending) <= Key(t[k], ascending)
    {
      assert t[k] in multiset(t);
      if t[k] != x {
        assert t[k] in multiset(s[1..]);
        var m :| 0 <= m < |s[1..]| && s[1..][m] == t[k];
        assert s[m + 1] == t[k];
      }
    }
  }

  /** `[...c].sort(cmp)`: a stable sort of `c` by hour (ES2019 requires
      `Array.prototype.sort` to be stable); `c` itself is a value and stays as
      it was. The result is a rearrangement of `c`. */
  function SortByHour(c: seq<BalloonData>, ascending: bool): (r: seq<BalloonData>)
    ensures |r| == |c|
    ensures multiset(r) == multiset(c)
  {
    if c == [] then []
    else
      InsertSpec(c[0], SortByHour(c[1..], ascending), ascending);
      assert c == [c[0]] + c[1..];
      Insert(c[0], SortByHour(c[1..], ascending), ascending)
  }

  /** The sort puts its input in the requested hour order. */
  lemma {:induction false} SortByHourSpec(c: seq<BalloonData>, ascending: bool)
    ensures SortedBy(SortByHour(c, ascending), ascending)
  {
    if c != [] {
      SortByHourSpec(c[1..], ascending);
      InsertKeepsSorted(c[0], SortByHour(c[1..], ascending), ascending);
    }
  }

  /** The snapshots of `s` taken at hour `h`, in the order of `s`. */
  function OfHour(s: seq<BalloonData>, h: int): seq<BalloonData>
    decreases |s|
  {
    if s == [] then [] else (if s[0].hour == h then [s[0]] else []) + OfHour(s[1..], h)
  }

  lemma {:induction false} OfHourAppend(s: seq<BalloonData>, t: seq<BalloonData>, h: int)
    ensures OfHour(s + t, h) == OfHour(s, h) + OfHour(t, h)
    decreases |s|
  {
    if s == [] {
      assert s + t == t;
    } else {
      var head := if s[0].hour == h then [s[0]] else [];
      OfHourAppend(s[1..], t, h);
      assert (s + t)[0] == s[0];
      assert (s + t)[1..] == s[1..] + t;
      assert OfHour(s + t, h) == head + OfHour(s[1..] + t, h);
      assert OfHour(s, h) == head + OfHour(s[1..], h);
    }
  }

  /** Insertion passes only elements of a smaller key, so the inserted element
      lands in front of every element of its own hour already in the sequence. */
  lemma {:induction false} InsertStable(x: BalloonData, s: seq<BalloonData>, ascending: bool, h: int)
    ensures OfHour(Insert(x, s, ascending), h) == OfHour([x], h) + OfHour(s, h)
    decreases |s|
  {
    if s == [] || Key(x, ascending) <= Key(s[0], ascending) {
      OfHourAppend([x], s, h);
    } else {
      InsertStable(x, s[1..], ascending, h);
      OfHourAppend([s[0]], Insert(x, s[1..], ascending), h);
      assert s == [s[0]] + s[1..];
      OfHourAppend([s[0]], s[1..], h);
      assert x.hour != s[0].hour;
    }
  }

  /** The sort is stable: the snapshots of any one hour keep the relative order
      they had in `c`. */
  lemma {:induction false} SortByHourStable(c: seq<BalloonData>, ascending: bool, h: int)
    ensures OfHour(SortByHour(c, ascending), h) == OfHour(c, h)
  {
    if c != [] {
      SortByHourStable(c[1..], ascending, h);
      InsertStable(c[0], SortByHour(c[1..], ascending), ascending, h);
      assert c == [c[0]] + c[1..];
      OfHourAppend([c[0]], c[1..], h);
    }
  }

  /** Sorting a sequence that is already in order changes nothing. */
  lemma {:induction false} SortSortedIsIdentity(c: seq<BalloonData>, ascending: bool)
    requires SortedBy(c, ascending)
    ensures SortByHour(c, ascending) == c
  {
    if c != [] {
      SortSortedIsIdentity(c[1..], ascending);
      assert c == [c[0]] + c[1..];
    }
  }

  /** The snapshots of `s` that have an entry at index `id` (the `if (position)`
      test of `snapshot.data[id]`), in the order of `s`. */
  function Present(s: seq<BalloonData>, id: nat): (r: seq<BalloonData>)
    ensures |r| <= |s|
    ensures forall k :: 0 <= k < |r| ==> id < |r[k].data|
    decreases |s|
  {
    if s == [] then []
    else
      var init := Present(s[..|s| - 1], id);
      if id < |s[|s| - 1].data| then init + [s[|s| - 1]] else init
  }

  /** The positions of balloon `id` over the snapshots of `s`, skipping the
      snapshots that lack it. */
  function Positions(s: seq<BalloonData>, id: nat): seq<Position>
  {
    var p := Present(s, id);
    seq(|p|, k requires 0 <= k < |p| => p[k].data[id])
  }

  /** Appending one snapshot appends its entry for `id`, if it has one. */
  lemma PositionsSnoc(s: seq<BalloonData>, b: BalloonData, id: nat)
    ensures Positions(s + [b], id) == Positions(s, id) + (if id < |b.data| then [b.data[id]] else [])
  {
  }

  /** A snapshot contributes exactly when it is in `s` and has an entry at `id`. */
  lemma {:induction false} PresentMembers(s: seq<BalloonData>, id: nat, b: BalloonData)
    ensures b in Present(s, id) <==> b in s && id < |b.data|
    decreases |s|
  {
    if s != [] {
      PresentMembers(s[..|s| - 1], id, b);
      assert s == s[..|s| - 1] + [s[|s| - 1]];
    }
  }

  /** A snapshot occurs in `Present(s, id)` as often as in `s` when it has an
      entry at `id`, and not at all otherwise. */
  lemma {:induction false} PresentCount(s: seq<BalloonData>, id: nat, b: BalloonData)
    ensures multiset(Present(s, id))[b] == if id < |b.data| then multiset(s)[b] else 0
    decreases |s|
  {
    if s != [] {
      PresentCount(s[..|s| - 1], id, b);
      assert s == s[..|s| - 1] + [s[|s| - 1]];
    }
  }

  /** Rearranging the snapshots rearranges the ones kept for `id` the same way. */
  lemma PresentPerm(s: seq<BalloonData>, t: seq<BalloonData>, id: nat)
    requires multiset(s) == multiset(t)
    ensures multiset(Present(s, id)) == multiset(Present(t, id))
    ensures |Present(s, id)| == |Present(t, id)|
  {
    forall b
      ensures multiset(Present(s, id))[b] == multiset(Present(t, id))[b]
    {
      PresentCount(s, id, b);
      PresentCount(t, id, b);
    }
    assert multiset(Present(s, id)) == multiset(Present(t, id));
    assert |multiset(Present(s, id))| == |multiset(Present(t, id))|;
  }

  /** Skipping snapshots keeps the hour order of the rest. */
  lemma {:induction false} PresentSorted(s: seq<BalloonData>, id: nat, ascending: bool)
    requires SortedBy(s, ascending)
    ensures SortedBy(Present(s, id), ascending)
    decreases |s|
  {
    if s != [] {
      var init := s[..|s| - 1];
      var last := s[|s| - 1];
      PresentSorted(init, id, ascending);
      var p := Present(init, id);
      forall k | 0 <= k < |p|
        ensures Key(p[k], ascending) <= Key(last, ascending)
      {
        PresentMembers(init, id, p[k]);
        var m :| 0 <= m < |init| && init[m] == p[k];
        assert s[m] == p[k];
      }
    }
  }

  /** When every snapshot has an entry at `id`, none is skipped. */
  lemma {:induction false} PresentAll(s: seq<BalloonData>, id: nat)
    requires forall k :: 0 <= k < |s| ==> id < |s[k].data|
    ensures Present(s, id) == s
    decreases |s|
  {
    if s != [] {
      PresentAll(s[..|s| - 1], id);
      assert s == s[..|s| - 1] + [s[|s| - 1]];
    }
  }
}
