/**
 * Cleaning the off-disk limb of the geolocation grids (geocolor.py lines
 * 64-69). Off-Earth scan angles give infinite longitudes or latitudes; the
 * pixels there become no-data in every colour band, infinite longitudes take
 * the grid's `nanmin`, and infinite latitudes take -99.
 *
 * A coordinate is an extended integer rather than a float: what matters here
 * is which cells are infinite and which finite value is selected, not the
 * floating-point values themselves. A colour sample is an `Option<int>`
 * whose None is NaN.
 */
module Limb {

  import opened Wrappers

  /** A coordinate: finite, or one of the two infinities. */
  datatype Ext = NegInf | Fin(v: int) | PosInf

  /** `np.abs(x) == np.inf`: true of both infinities and of nothing finite. */
  predicate IsInf(x: Ext)
    ensures IsInf(x) <==> Abs(x) == PosInf
    ensures IsInf(x) <==> x == NegInf || x == PosInf
  {
    !x.Fin?
  }

  /** The order of floats on the extended line. */
  predicate Le(x: Ext, y: Ext) {
    x.NegInf? || y.PosInf? || (x.Fin? && y.Fin? && x.v <= y.v)
  }

  /** `np.abs(x)`: never negative, infinite exactly for the infinities. */
  function Abs(x: Ext): (r: Ext)
    ensures r.Fin? ==> r.v >= 0
    ensures r.Fin? <==> x.Fin?
  {
    match x
    case Fin(v) => Fin(if v < 0 then -v else v)
    case _ => PosInf
  }

  /** The smaller (`smallest`) or larger of two coordinates. */
  function Pick(smallest: bool, x: Ext, y: Ext): Ext {
    if Le(x, y) == smallest then x else y
  }

  /** `r` lies on the selected side of `x`. */
  predicate Bounds(smallest: bool, r: Ext, x: Ext) {
    if smallest then Le(r, x) else Le(x, r)
  }

  /** The least (`smallest`) or greatest of `a[i, 0..n]`; an empty range gives the neutral infinity. */
  function RowExtreme(a: array2<Ext>, i: nat, n: nat, smallest: bool): (r: Ext)
    reads a
    requires i < a.Length0 && n <= a.Length1
    ensures forall j :: 0 <= j < n ==> Bounds(smallest, r, a[i, j])
    ensures n > 0 ==> exists j :: 0 <= j < n && a[i, j] == r
    decreases n
  {
    if n == 0 then (if smallest then PosInf else NegInf)
    else Pick(smallest, RowExtreme(a, i, n - 1, smallest), a[i, n - 1])
  }

  /**
   * The least (`smallest`) or greatest cell of the first `m` rows: NumPy's
   * `nanmin` / `nanmax`, which skip NaN but not the infinities.
   */
  function GridExtreme(a: array2<Ext>, m: nat, smallest: bool): (r: Ext)
    reads a
    requires m <= a.Length0
    ensures forall i, j :: 0 <= i < m && 0 <= j < a.Length1 ==> Bounds(smallest, r, a[i, j])
    ensures m > 0 && a.Length1 > 0 ==> exists i, j :: 0 <= i < m && 0 <= j < a.Length1 && a[i, j] == r
    decreases m
  {
    if m == 0 then (if smallest then PosInf else NegInf)
    else Pick(smallest, GridExtreme(a, m - 1, smallest), RowExtreme(a, m - 1, a.Length1, smallest))
  }

  /** The colour cube and the two coordinate grids describe one pixel grid, with three bands. */
  predicate SameGrid(pngdata: array3<Option<int>>, lon: array2<Ext>, lat: array2<Ext>) {
    && pngdata.Length0 == lon.Length0 == lat.Length0
    && pngdata.Length1 == lon.Length1 == lat.Length1
    && pngdata.Length2 == 3
  }

  /**
   * The state after lines 64-69: pixels with an infinite longitude or
   * latitude are NaN in all bands and the others keep their samples;
   * infinite longitudes hold the `nanmin` of the longitudes as they were
   * before; infinite latitudes hold -99; finite coordinates are unchanged.
   */
  twostate predicate LimbCleaned(pngdata: array3<Option<int>>, lon: array2<Ext>, lat: array2<Ext>)
    reads pngdata, lon, lat
    requires SameGrid(pngdata, lon, lat)
  {
    && (forall i, j, k | 0 <= i < pngdata.Length0 && 0 <= j < pngdata.Length1 && 0 <= k < 3 ::
          pngdata[i, j, k] == if IsInf(old(lon[i, j])) || IsInf(old(lat[i, j])) then None else old(pngdata[i, j, k]))
    && (forall i, j | 0 <= i < lon.Length0 && 0 <= j < lon.Length1 ::
          lon[i, j] == if IsInf(old(lon[i, j])) then old(GridExtreme(lon, lon.Length0, true)) else old(lon[i, j]))
    && (forall i, j | 0 <= i < lat.Length0 && 0 <= j < lat.Length1 ::
          lat[i, j] == if IsInf(old(lat[i, j])) then Fin(-99) else old(lat[i, j]))
  }

  /** `pngdata[:, :, band] = np.where(np.abs(coord) == np.inf, np.nan, pngdata[:, :, band])`. */
  method BlankWhereInfinite(pngdata: array3<Option<int>>, coord: array2<Ext>, band: nat)
    requires pngdata.Length0 == coord.Length0 && pngdata.Length1 == coord.Length1 && band < pngdata.Length2
    modifies pngdata
    ensures forall i, j, k | 0 <= i < pngdata.Length0 && 0 <= j < pngdata.Length1 && 0 <= k < pngdata.Length2 ::
      pngdata[i, j, k] == if k == band && IsInf(coord[i, j]) then None else old(pngdata[i, j, k])
  {
    for i := 0 to pngdata.Length0
      invariant forall i', j, k | 0 <= i' < pngdata.Length0 && 0 <= j < pngdata.Length1 && 0 <= k < pngdata.Length2 ::
        pngdata[i', j, k] == if k == band && i' < i && IsInf(coord[i', j]) then None else old(pngdata[i', j, k])
    {
      for j := 0 to pngdata.Length1
        invariant forall i', j', k | 0 <= i' < pngdata.Length0 && 0 <= j' < pngdata.Length1 && 0 <= k < pngdata.Length2 ::
          pngdata[i', j', k] == if k == band && (i' < i || (i' == i && j' < j)) && IsInf(coord[i', j'])
                                then None else old(pngdata[i', j', k])
      {
        if IsInf(coord[i, j]) {
          pngdata[i, j, band] := None;
        }
      }
    }
  }

  /** `a[mask(a)] = value`: every cell whose old value satisfies the mask takes `value`. */
  method AssignWhere(a: array2<Ext>, mask: Ext -> bool, value: Ext)
    modifies a
    ensures forall i, j | 0 <= i < a.Length0 && 0 <= j < a.Length1 ::
      a[i, j] == if mask(old(a[i, j])) then value else old(a[i, j])
  {
    for i := 0 to a.Length0
      invariant forall i', j | 0 <= i' < a.Length0 && 0 <= j < a.Length1 ::
        a[i', j] == if i' < i && mask(old(a[i', j])) then value else old(a[i', j])
    {
      for j := 0 to a.Length1
        invariant forall i', j' | 0 <= i' < a.Length0 && 0 <= j' < a.Length1 ::
          a[i', j'] == if (i' < i || (i' == i && j' < j)) && mask(old(a[i', j'])) then value else old(a[i', j'])
      {
        if mask(a[i, j]) {
          a[i, j] := value;
        }
      }
    }
  }

  /** Lines 64-66: the band loop that blanks every pixel whose longitude or latitude is infinite. */
  method BlankOffDisk(pngdata: array3<Option<int>>, lon: array2<Ext>, lat: array2<Ext>)
    requires SameGrid(pngdata, lon, lat)
    modifies pngdata
    ensures forall i, j, k | 0 <= i < pngdata.Length0 && 0 <= j < pngdata.Length1 && 0 <= k < 3 ::
      pngdata[i, j, k] == if IsInf(lon[i, j]) || IsInf(lat[i, j]) then None else old(pngdata[i, j, k])
  {
    for band := 0 to 3
      invariant forall i, j, k | 0 <= i < pngdata.Length0 && 0 <= j < pngdata.Length1 && 0 <= k < 3 ::
        pngdata[i, j, k] == if k < band && (IsInf(lon[i, j]) || IsInf(lat[i, j])) then None else old(pngdata[i, j, k])
    {
      BlankWhereInfinite(pngdata, lon, band);
      BlankWhereInfinite(pngdata, lat, band);
    }
  }

  /**
   * Lines 68-69: infinite latitudes become -99, then `nanmax(lat)` is
   * assigned where `np.abs(lat) == -99`, a mask no cell satisfies.
   */
  method MarkInfiniteLatitudes(lat: array2<Ext>)
    modifies lat
    ensures forall i, j | 0 <= i < lat.Length0 && 0 <= j < lat.Length1 ::
      lat[i, j] == if IsInf(old(lat[i, j])) then Fin(-99) else old(lat[i, j])
  {
    AssignWhere(lat, IsInf, Fin(-99));
    var greatest := GridExtreme(lat, lat.Length0, false);
    AssignWhere(lat, x => Abs(x) == Fin(-99), greatest);
  }

  /**
   * Lines 64-69 of geocolor.py. The result is the `nanmin` that filled the
   * infinite longitudes, or None where `np.nanmin` raises ValueError on an
   * empty grid (the band loop has then changed nothing either).
   */
  method CleanLimb(pngdata: array3<Option<int>>, lon: array2<Ext>, lat: array2<Ext>) returns (fill: Option<Ext>)
    requires SameGrid(pngdata, lon, lat) && lon != lat
    modifies pngdata, lon, lat
    ensures LimbCleaned(pngdata, lon, lat)
    ensures fill.None? <==> lon.Length0 == 0 || lon.Length1 == 0
    ensures fill.Some? ==> fill.value == old(GridExtreme(lon, lon.Length0, true))
  {
    BlankOffDisk(pngdata, lon, lat);
    if lon.Length0 == 0 || lon.Length1 == 0 {
      return None;
    }
    var least := GridExtreme(lon, lon.Length0, true);
    AssignWhere(lon, IsInf, least);
    MarkInfiniteLatitudes(lat);
    fill := Some(least);
  }

  /** No absolute value equals -99, so the mask of line 69 selects no cell. */
  lemma AbsNeverMinus99(x: Ext)
    ensures Abs(x) != Fin(-99)
  {
  }

  /**
   * The longitude fill is a value the grid holds and lies at or below every
   * cell; it is `-inf` exactly when some longitude is `-inf`.
   */
  lemma FillIsLeastLongitude(lon: array2<Ext>)
    requires lon.Length0 > 0 && lon.Length1 > 0
    ensures exists i, j :: 0 <= i < lon.Length0 && 0 <= j < lon.Length1 && lon[i, j] == GridExtreme(lon, lon.Length0, true)
    ensures forall i, j :: 0 <= i < lon.Length0 && 0 <= j < lon.Length1 ==> Le(GridExtreme(lon, lon.Length0, true), lon[i, j])
    ensures (exists i, j :: 0 <= i < lon.Length0 && 0 <= j < lon.Length1 && lon[i, j] == NegInf)
            <==> GridExtreme(lon, lon.Length0, true) == NegInf
  {
    var fill := GridExtreme(lon, lon.Length0, true);
    assert forall i, j :: 0 <= i < lon.Length0 && 0 <= j < lon.Length1 ==> Bounds(true, fill, lon[i, j]);
  }
}
