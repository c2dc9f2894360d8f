/** The wind hook: picks the u and v grids out of a list of labelled scalar
    grids and samples both at a point by nearest-lower-cell lookup. */
module WindData {
  import opened DashboardTypes

  /** The label of the grid holding the eastward wind component. */
  const UComponentName: string := "U-component_of_wind"
  /** The label of the grid holding the northward wind component. */
  const VComponentName: string := "V-component_of_wind"

  /** `header` of a grid: its label, dimensions, origin and steps (degrees). */
  datatype GridHeader = GridHeader(parameterNumberName: string, nx: int, ny: int, lo1: real, la1: real, dx: real, dy: real)

  /** `WindGrid`: a header and the values, row-major. */
  datatype WindGrid = WindGrid(header: GridHeader, data: seq<real>)

  /** `WindData`: the u and v grids. */
  datatype WindPair = WindPair(u: WindGrid, v: WindGrid)

  /** The result of `getWindAt`: `data[index]` of each grid, which JavaScript
      reads as `undefined` when the index is past the end of the array. */
  datatype WindSample = WindSample(u: Option<real>, v: Option<real>)

  /** Index `i` holds the first grid labelled `name`. */
  ghost predicate IsFirstNamed(grids: seq<WindGrid>, name: string, i: int)
  {
    0 <= i < |grids| && grids[i].header.parameterNumberName == name &&
    forall j :: 0 <= j < i ==> grids[j].header.parameterNumberName != name
  }

  /** `data.find(d => d.header.parameterNumberName === name)`. */
  function FindComponent(grids: seq<WindGrid>, name: string): (r: Option<WindGrid>)
    ensures r.None? <==> forall i :: 0 <= i < |grids| ==> grids[i].header.parameterNumberName != name
    ensures r.Some? ==> exists i :: IsFirstNamed(grids, name, i) && grids[i] == r.value
  {
    if grids == [] then None
    else if grids[0].header.parameterNumberName == name then
      assert IsFirstNamed(grids, name, 0);
      Some(grids[0])
    else
      var r := FindComponent(grids[1..], name);
      assert r.Some? ==> exists i :: IsFirstNamed(grids, name, i) && grids[i] == r.value by {
        if r.Some? {
          var i :| IsFirstNamed(grids[1..], name, i) && grids[1..][i] == r.value;
          assert IsFirstNamed(grids, name, i + 1);
        }
      }
      r
  }

  /** JavaScript's `Math.trunc`. */
  function Trunc(r: real): int
  {
    if r >= 0.0 then r.Floor else -((-r).Floor)
  }

  /** JavaScript's `%` on numbers: `a` minus a whole multiple of `m`; the
      remainder takes the sign of `a` and is smaller than a positive `m` in size. */
  function JsRem(a: real, m: real): (r: real)
    requires m != 0.0
    ensures ((a - r) / m).Floor as real == (a - r) / m
    ensures m > 0.0 && a >= 0.0 ==> 0.0 <= r < m
    ensures m > 0.0 && a < 0.0 ==> -m < r <= 0.0
  {
    var t := Trunc(a / m);
    WholeQuotient(m, t);
    if m > 0.0 then RemainderBounds(a, m); a - m * t as real
    else a - m * t as real
  }

  /** A whole multiple of `m`, divided by `m`, is whole again. */
  lemma WholeQuotient(m: real, t: int)
    requires m != 0.0
    ensures (m * t as real) / m == t as real
  {
  }

  /** The truncated quotient leaves less than one `m` behind, on the side of `a`. */
  lemma RemainderBounds(a: real, m: real)
    requires m > 0.0
    ensures a >= 0.0 ==> 0.0 <= a - m * Trunc(a / m) as real < m
    ensures a < 0.0 ==> -m < a - m * Trunc(a / m) as real <= 0.0
  {
    var q := a / m;
    assert a == m * q;
    if a >= 0.0 {
      assert q >= 0.0;
      RemainderFromBelow(a, m, q, Trunc(q) as real);
    } else {
      assert q < 0.0;
      RemainderFromAbove(a, m, q, Trunc(q) as real);
    }
  }

  /** If `a = m * q` and `t` is within one below `q`, then `a - m * t` lies in [0, m). */
  lemma RemainderFromBelow(a: real, m: real, q: real, t: real)
    requires m > 0.0 && a == m * q
    requires 0.0 <= q - t < 1.0
    ensures 0.0 <= a - m * t < m
  {
    var d := q - t;
    FractionScale(m, d);
    assert m * q == m * d + m * t;
    var r := a - m * t;
    assert r == m * d;
  }

  /** If `a = m * q` and `t` is within one above `q`, then `a - m * t` lies in (-m, 0]. */
  lemma RemainderFromAbove(a: real, m: real, q: real, t: real)
    requires m > 0.0 && a == m * q
    requires 0.0 <= t - q < 1.0
    ensures -m < a - m * t <= 0.0
  {
    var d := t - q;
    FractionScale(m, d);
    assert m * t == m * d + m * q;
    var r := a - m * t;
    assert r == -(m * d);
  }

  /** A fraction of a positive `m` lies in [0, m). */
  lemma FractionScale(m: real, d: real)
    requires m > 0.0 && 0.0 <= d < 1.0
    ensures 0.0 <= m * d < m
  {
  }

  /** `(lng + 360) % 360`: the same longitude, shifted by whole turns; in
      [0, 360) for every longitude from -360 on, so a longitude already in
      [0, 360) is kept and one in [-360, 0) gains one turn; below -360 it
      stays negative or zero, in (-360, 0]. */
  function NormalizeLng(lng: real): (r: real)
    ensures ((r - lng) / 360.0).Floor as real == (r - lng) / 360.0
    ensures lng >= -360.0 ==> 0.0 <= r < 360.0
    ensures 0.0 <= lng < 360.0 ==> r == lng
    ensures -360.0 <= lng < 0.0 ==> r == lng + 360.0
    ensures lng < -360.0 ==> -360.0 < r <= 0.0
  {
    NormalizeLngTurns(lng);
    JsRem(lng + 360.0, 360.0)
  }

  /** `(lng + 360) % 360` is `lng` plus `1 - Trunc((lng + 360) / 360)` whole
      turns; that count is 0 on [0, 360) and 1 on [-360, 0). */
  lemma NormalizeLngTurns(lng: real)
    ensures var r := JsRem(lng + 360.0, 360.0);
            ((r - lng) / 360.0).Floor as real == (r - lng) / 360.0 &&
            (0.0 <= lng < 360.0 ==> r == lng) &&
            (-360.0 <= lng < 0.0 ==> r == lng + 360.0)
  {
    var a := lng + 360.0;
    var q := a / 360.0;
    var t := Trunc(q);
    var r := JsRem(a, 360.0);
    assert r == a - 360.0 * t as real;
    assert (r - lng) / 360.0 == (1 - t) as real;
    if 0.0 <= lng < 360.0 {
      assert 1.0 <= q < 2.0;
    } else if -360.0 <= lng < 0.0 {
      assert 0.0 <= q < 1.0;
    }
  }

  /** A full turn east from -360 on normalises to the same longitude. */
  lemma NormalizeLngPeriodic(lng: real)
    requires lng >= -360.0
    ensures NormalizeLng(lng + 360.0) == NormalizeLng(lng)
  {
    var t := lng + 360.0;
    var f := (t / 360.0).Floor;
    assert (t + 360.0) / 360.0 == t / 360.0 + 1.0;
    assert f as real + 1.0 <= (t + 360.0) / 360.0 < f as real + 2.0;
    assert ((t + 360.0) / 360.0).Floor == f + 1;
  }

  /** `x`: the grid column at or west of the normalised longitude. */
  function Column(h: GridHeader, lng: real): int
    requires h.dx != 0.0
  {
    ((NormalizeLng(lng) - h.lo1) / h.dx).Floor
  }

  /** `y`: the grid row whose line is at or north of the latitude, rows running south from `la1`. */
  function Row(h: GridHeader, lat: real): int
    requires h.dy != 0.0
  {
    ((h.la1 - lat) / h.dy).Floor
  }

  /** A column and row inside an `nx` by `ny` grid give a flat row-major index
      inside the grid that decodes back to them. */
  lemma FlatIndexBounds(x: int, y: int, nx: int, ny: int)
    requires 0 <= x < nx && 0 <= y < ny
    ensures 0 <= y * nx + x < nx * ny
    ensures (y * nx + x) / nx == y && (y * nx + x) % nx == x
  {
    MulNonneg(y, nx);
    MulNonneg(ny - 1 - y, nx);
    assert (ny - 1 - y) * nx == ny * nx - nx - y * nx;
    DivModUnique(y * nx + x, nx, y, x);
  }

  lemma MulNonneg(a: int, b: int)
    requires a >= 0 && b >= 0
    ensures a * b >= 0
  {
  }

  /** A non-zero multiple of a positive `n` is at least `n` away from zero. */
  lemma MulAtLeast(d: int, n: int)
    requires n > 0
    ensures d >= 1 ==> d * n >= n
    ensures d <= -1 ==> d * n <= -n
  {
  }

  /** Euclidean division has one quotient and remainder. */
  lemma DivModUnique(a: int, n: int, q: int, r: int)
    requires n > 0 && 0 <= r < n && a == q * n + r
    ensures a / n == q && a % n == r
  {
    var q0, r0 := a / n, a % n;
    assert a == q0 * n + r0 && 0 <= r0 < n;
    assert (q0 - q) * n == r - r0;
    MulAtLeast(q0 - q, n);
  }

  /** The cell the point (lat, lng) falls in, as a flat index, or absent when
      the point is outside the grid. */
  function CellIndex(h: GridHeader, lat: real, lng: real): (r: Option<nat>)
    requires h.dx != 0.0 && h.dy != 0.0
    ensures r.Some? <==> 0 <= Column(h, lng) < h.nx && 0 <= Row(h, lat) < h.ny
    ensures r.Some? ==> r.value < h.nx * h.ny &&
                        r.value / h.nx == Row(h, lat) && r.value % h.nx == Column(h, lng)
  {
    var x := Column(h, lng);
    var y := Row(h, lat);
    if x < 0 || x >= h.nx || y < 0 || y >= h.ny then None
    else
      FlatIndexBounds(x, y, h.nx, h.ny);
      Some(y * h.nx + x)
  }

  /** The body of `getWindAt` once both grids are present: both grids are read
      at cell `Row * nx + Column` of the u grid's header, and the sample is
      absent exactly when the point is outside the u grid; when both grids
      hold `nx * ny` values the two components are always present. */
  function Sample(w: WindPair, lat: real, lng: real): (r: Option<WindSample>)
    requires w.u.header.dx != 0.0 && w.u.header.dy != 0.0
    ensures var h := w.u.header;
            var x := Column(h, lng);
            var y := Row(h, lat);
            (r.None? <==> !(0 <= x < h.nx && 0 <= y < h.ny)) &&
            (r.Some? ==> r.value == WindSample(Lookup(w.u.data, y * h.nx + x), Lookup(w.v.data, y * h.nx + x))) &&
            (r.Some? && |w.u.data| == h.nx * h.ny && |w.v.data| == h.nx * h.ny ==> r.value.u.Some? && r.value.v.Some?)
  {
    match CellIndex(w.u.header, lat, lng)
    case None => None
    case Some(index) => Some(WindSample(Lookup(w.u.data, index), Lookup(w.v.data, index)))
  }

  /** The v grid's header is never consulted: only its values matter. */
  lemma SampleIgnoresVHeader(w: WindPair, vHeader: GridHeader, lat: real, lng: real)
    requires w.u.header.dx != 0.0 && w.u.header.dy != 0.0
    ensures Sample(WindPair(w.u, WindGrid(vHeader, w.v.data)), lat, lng) == Sample(w, lat, lng)
  {
  }

  /** Longitudes a full turn apart, from -360 on, sample the same cell. */
  lemma SampleLongitudeWrap(w: WindPair, lat: real, lng: real)
    requires w.u.header.dx != 0.0 && w.u.header.dy != 0.0
    requires lng >= -360.0
    ensures Sample(w, lat, lng + 360.0) == Sample(w, lat, lng)
  {
    NormalizeLngPeriodic(lng);
  }

  /** The hook's state: the selected grids, if found, and a loading flag. */
  class WindState {
    var windData: Option<WindPair>
    var loading: bool

    constructor ()
      ensures windData == None && loading
    {
      windData := None;
      loading := true;
    }

    /** `loadWindData` over the decoded grid list: keep the first u and the
        first v grid when both exist, otherwise leave `windData` as it was;
        `loading` ends false either way. */
    method LoadWindData(grids: seq<WindGrid>)
      modifies this
      ensures !loading
      ensures FindComponent(grids, UComponentName).Some? && FindComponent(grids, VComponentName).Some? ==>
                windData == Some(WindPair(FindComponent(grids, UComponentName).value, FindComponent(grids, VComponentName).value))
      ensures FindComponent(grids, UComponentName).None? || FindComponent(grids, VComponentName).None? ==>
                windData == old(windData)
    {
      loading := true;
      var uComponent := FindComponent(grids, UComponentName);
      var vComponent := FindComponent(grids, VComponentName);
      if uComponent.Some? && vComponent.Some? {
        windData := Some(WindPair(uComponent.value, vComponent.value));
      }
      loading := false;
    }

    /** `getWindAt`: nothing until both grids are loaded, then the sample of
        both components at (lat, lng). */
    function GetWindAt(lat: real, lng: real): (r: Option<WindSample>)
      reads this
      requires windData.Some? ==> windData.value.u.header.dx != 0.0 && windData.value.u.header.dy != 0.0
      ensures windData.None? ==> r.None?
      ensures windData.Some? ==> r == Sample(windData.value, lat, lng)
    {
      match windData
      case None => None
      case Some(w) => Sample(w, lat, lng)
    }
  }
}
