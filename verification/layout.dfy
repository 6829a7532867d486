/**
 * Where a run's outputs go (geocolor.py lines 85, 91 and 101): the
 * date-partitioned display and GIS image paths, the file name recorded in
 * the metadata. The top-of-hour run time is `Calendar.TopOfHour`.
 */
module Layout {

  import opened Calendar
  import opened Text
  import opened Store

  /** `strftime(v, "%M.png")`. */
  function FileName(v: DateTime): (name: string)
    requires Valid(v)
    ensures |name| == 6 && name[2..] == ".png" && AllDigits(name[..2]) && Number(name[..2]) == v.minute
  {
    var name := Pad2(v.minute) + ".png";
    assert name[..2] == Pad2(v.minute);
    name
  }

  /** `output/<tree>/satellite/goes16/geocolor/%Y/%m/%d/%H00/%M.png` under the script's directory. */
  function ImagePath(base: Path, tree: string, v: DateTime): (p: Path)
    requires Valid(v)
    ensures |p| == |base| + 10 && p[..|base|] == base && p[|base| + 1] == tree
    ensures p[|p| - 1] == FileName(v)
  {
    base + ["output", tree, "satellite", "goes16", "geocolor",
            Pad4(v.year), Pad2(v.month), Pad2(v.day), Pad2(v.hour) + "00", FileName(v)]
  }

  /** The display image, under `output/products` (line 85). */
  function DisplayPath(base: Path, v: DateTime): (p: Path)
    requires Valid(v)
    ensures |p| == |base| + 10 && p[..|base|] == base
    ensures p[|base|] == "output" && p[|base| + 1] == "products" && p[|p| - 1] == FileName(v)
  {
    ImagePath(base, "products", v)
  }

  /** The GIS image, under `output/gisproducts` (line 101). */
  function GisPath(base: Path, v: DateTime): (p: Path)
    requires Valid(v)
    ensures |p| == |base| + 10 && p[..|base|] == base
    ensures p[|base|] == "output" && p[|base| + 1] == "gisproducts" && p[|p| - 1] == FileName(v)
  {
    ImagePath(base, "gisproducts", v)
  }

  /** `path.dirname(p)`: the directory `mkdir(parents=True)` creates before the image is saved. */
  function Dirname(p: Path): (d: Path)
    requires |p| > 0
    ensures d + [p[|p| - 1]] == p
  {
    p[..|p| - 1]
  }

  /** The display and GIS paths differ only in the `products` / `gisproducts` segment. */
  lemma DisplayAndGisDifferOnlyInTree(base: Path, v: DateTime)
    requires Valid(v)
    ensures |DisplayPath(base, v)| == |GisPath(base, v)|
    ensures forall k | 0 <= k < |DisplayPath(base, v)| && k != |base| + 1 :: DisplayPath(base, v)[k] == GisPath(base, v)[k]
    ensures DisplayPath(base, v)[|base| + 1] == "products" && GisPath(base, v)[|base| + 1] == "gisproducts"
  {
  }

  /**
   * The date segments are the zero-padded year, month, day and `HH00`
   * hour, and they read back as the valid time's fields.
   */
  lemma DateSegments(base: Path, tree: string, v: DateTime)
    requires Valid(v)
    ensures var p := ImagePath(base, tree, v); var b := |base|;
      && |p[b + 5]| == 4 && AllDigits(p[b + 5]) && Number(p[b + 5]) == v.year
      && |p[b + 6]| == 2 && AllDigits(p[b + 6]) && Number(p[b + 6]) == v.month
      && |p[b + 7]| == 2 && AllDigits(p[b + 7]) && Number(p[b + 7]) == v.day
      && |p[b + 8]| == 4 && p[b + 8][2..] == "00" && AllDigits(p[b + 8][..2]) && Number(p[b + 8][..2]) == v.hour
  {
    var p := ImagePath(base, tree, v);
    assert p[|base| + 8][..2] == Pad2(v.hour);
  }

  /**
   * Two valid times share an image path exactly when they agree to the
   * minute: times differing only in seconds overwrite one file.
   */
  lemma ImagePathPerMinute(base: Path, tree: string, a: DateTime, b: DateTime)
    requires Valid(a) && Valid(b)
    ensures ImagePath(base, tree, a) == ImagePath(base, tree, b)
            <==> (a.year, a.month, a.day, a.hour, a.minute) == (b.year, b.month, b.day, b.hour, b.minute)
  {
    if ImagePath(base, tree, a) == ImagePath(base, tree, b) {
      DateSegments(base, tree, a);
      DateSegments(base, tree, b);
      var pa, pb, k := ImagePath(base, tree, a), ImagePath(base, tree, b), |base|;
      assert pa[k + 5] == pb[k + 5] && pa[k + 6] == pb[k + 6] && pa[k + 7] == pb[k + 7];
      assert pa[k + 8] == pb[k + 8] && pa[k + 9] == pb[k + 9];
      assert FileName(a)[..2] == FileName(b)[..2];
    }
  }
}
