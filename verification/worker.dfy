/**
 * One run of `plotSat` (geocolor.py) as a sequence of recorded effects:
 * the freshness gate, the three downloads, limb cleaning of the
 * geolocation grids, the display image with its product-5 metadata record,
 * the GIS image with its product-4 record unless `--no-gis` is given, and
 * the removal of the downloaded files.
 */
module Worker {

  import opened Wrappers
  import opened Calendar
  import opened Text
  import opened Stamps
  import opened Store
  import opened Gate
  import opened Layout
  import opened Limb

  /** What the run does outside its own memory, in the order it does it. */
  datatype Effect =
    | Download(channel: nat, file: string)
    | MakeDirs(dir: Path)
    | DressImage(title: string, valid: DateTime, notice: string, width: nat, height: nat)
    | SaveImage(path: Path)
    | SaveFigure(path: Path, transparent: bool)
    | WriteJson(dir: Path, product: nat, runTime: DateTime, fileName: string, valid: DateTime, gisInfo: seq<string>, reloadInterval: nat)
    | Remove(file: string)

  /** How the process ends: `exit()` at the gate, an uncaught exception, or the end of `plotSat`. */
  datatype Outcome = Exited | Crashed(error: Error) | Completed(valid: DateTime)

  /** The outcome of a run together with the effects it performed. */
  datatype Run = Run(outcome: Outcome, effects: seq<Effect>)

  const Title: string := "GOES-16 CONUS GeoColor"
  const Notice: string := "GeoColor developed by NOAA/CIRA"
  const Width: nat := 3840
  const Height: nat := 2160
  const ReloadInterval: nat := 270
  const GisInfo: seq<string> := ["0,0", "0,0"]

  /** `f'ch0{i}.nc'`, the local copy of channel `i`. */
  function ChannelFile(i: nat): (name: string)
    requires 1 <= i <= 3
    ensures |name| == 7 && name[..3] == "ch0" && name[4..] == ".nc"
  {
    "ch0" + [DigitChar(i)] + ".nc"
  }

  /** The `writeJson` call for one product under the script's directory `base` (lines 91 and 110). */
  function MetadataRecord(base: Path, product: nat, v: DateTime): Effect
    requires Valid(v)
  {
    WriteJson(base, product, TopOfHour(v), FileName(v), v, GisInfo, ReloadInterval)
  }

  /** Lines 45-50: the three downloads. */
  function Downloads(): (r: seq<Effect>)
    ensures |r| == 3 && forall k :: 0 <= k < 3 ==> r[k] == Download(k + 1, "./" + ChannelFile(k + 1))
  {
    [Download(1, "./" + ChannelFile(1)), Download(2, "./" + ChannelFile(2)), Download(3, "./" + ChannelFile(3))]
  }

  /** Lines 112-113: the downloaded files are removed, channel by channel. */
  function Removals(): (r: seq<Effect>)
    ensures |r| == 3 && forall k :: 0 <= k < 3 ==> r[k] == Remove(ChannelFile(k + 1))
  {
    [Remove(ChannelFile(1)), Remove(ChannelFile(2)), Remove(ChannelFile(3))]
  }

  /** Lines 85-94: the display image, saved and recorded by the helpers when present, by `savefig` otherwise. */
  function DisplayEffects(base: Path, v: DateTime, hasHelpers: bool): seq<Effect>
    requires Valid(v)
  {
    var display := DisplayPath(base, v);
    if hasHelpers then
      [MakeDirs(Dirname(display)), DressImage(Title, v, Notice, Width, Height), SaveImage(display), MetadataRecord(base, 5, v)]
    else
      [MakeDirs(Dirname(display)), SaveFigure(display, false)]
  }

  /** Lines 96-110: the transparent GIS image and its product-4 record, skipped under `--no-gis`. */
  function GisEffects(base: Path, v: DateTime, hasHelpers: bool, noGis: bool): seq<Effect>
    requires Valid(v)
  {
    var gis := GisPath(base, v);
    if noGis then []
    else if hasHelpers then [MakeDirs(Dirname(gis)), SaveFigure(gis, true), MetadataRecord(base, 4, v)]
    else [MakeDirs(Dirname(gis)), SaveFigure(gis, true)]
  }

  /** Lines 85-113, from the display directory to the clean-up, for valid time `v`. */
  function OutputEffects(base: Path, v: DateTime, hasHelpers: bool, noGis: bool): seq<Effect>
    requires Valid(v)
  {
    DisplayEffects(base, v, hasHelpers) + GisEffects(base, v, hasHelpers, noGis) + Removals()
  }

  /**
   * What `plotSat` does after the downloads: an exception (an empty grid
   * makes `np.nanmin` raise, a bad `start_date_time` makes `strptime`
   * raise) or the outputs for the parsed valid time.
   */
  function AfterDownloads(base: Path, emptyGrid: bool, startDateTime: string, hasHelpers: bool, noGis: bool): Run {
    if emptyGrid then Run(Crashed(ValueError), [])
    else
      match ParseStartTime(startDateTime)
      case Err(e) => Run(Crashed(e), [])
      case Ok(v) => Run(Completed(v), OutputEffects(base, v, hasHelpers, noGis))
  }

  /** What `plotSat` does once the gate lets it through: the downloads, then the rest. */
  function ProceedRun(base: Path, emptyGrid: bool, startDateTime: string, hasHelpers: bool, noGis: bool): Run {
    var rest := AfterDownloads(base, emptyGrid, startDateTime, hasHelpers, noGis);
    Run(rest.outcome, Downloads() + rest.effects)
  }

  /** What `plotSat` does after the gate's decision: nothing when the gate stops it. */
  function RunAfter(decision: Decision, base: Path, emptyGrid: bool, startDateTime: string, hasHelpers: bool, noGis: bool): Run {
    match decision
    case SkipDesync => Run(Exited, [])
    case SkipNotNewer => Run(Exited, [])
    case Crash(e) => Run(Crashed(e), [])
    case Proceed(_) => ProceedRun(base, emptyGrid, startDateTime, hasHelpers, noGis)
  }

  /**
   * The whole of `plotSat` as a function of its inputs: the newest dataset
   * names, the metadata files present, whether the grid is empty, the
   * `start_date_time` attribute of channel 1, whether the helper module is
   * present and whether `--no-gis` was given.
   */
  function PlotSatRun(base: Path, name1: string, name2: string, name3: string, files: map<Path, Document>,
                      emptyGrid: bool, startDateTime: string, hasHelpers: bool, noGis: bool): Run
  {
    RunAfter(Decide(base, name1, name2, name3, files), base, emptyGrid, startDateTime, hasHelpers, noGis)
  }

  /** The worker process: its effect log, and the grids it cleans in place. */
  class Worker {
    var log: seq<Effect>

    constructor ()
      ensures log == []
    {
      log := [];
    }

    /**
     * `plotSat()`. The three grids stand for what the downloads deliver:
     * the colour cube and the longitude and latitude of each pixel.
     */
    method PlotSat(base: Path, name1: string, name2: string, name3: string, files: map<Path, Document>,
                   startDateTime: string, hasHelpers: bool, argv: seq<string>,
                   pngdata: array3<Option<int>>, lon: array2<Ext>, lat: array2<Ext>) returns (outcome: Outcome)
      requires SameGrid(pngdata, lon, lat) && lon != lat
      modifies this, pngdata, lon, lat
      ensures var run := PlotSatRun(base, name1, name2, name3, files, lon.Length0 == 0 || lon.Length1 == 0,
                                    startDateTime, hasHelpers, "--no-gis" in argv);
              outcome == run.outcome && log == old(log) + run.effects
      ensures Decide(base, name1, name2, name3, files).Proceed? ==> LimbCleaned(pngdata, lon, lat)
      ensures !Decide(base, name1, name2, name3, files).Proceed? ==> unchanged(pngdata, lon, lat)
    {
      var decision := Decide(base, name1, name2, name3, files);
      if !decision.Proceed? {
        return if decision.Crash? then Crashed(decision.error) else Exited;
      }
      outcome := Process(base, startDateTime, hasHelpers, "--no-gis" in argv, pngdata, lon, lat);
    }

    /** Lines 44-113, once the gate has let the run through. */
    method Process(base: Path, startDateTime: string, hasHelpers: bool, noGis: bool,
                   pngdata: array3<Option<int>>, lon: array2<Ext>, lat: array2<Ext>) returns (outcome: Outcome)
      requires SameGrid(pngdata, lon, lat) && lon != lat
      modifies this, pngdata, lon, lat
      ensures var run := ProceedRun(base, lon.Length0 == 0 || lon.Length1 == 0, startDateTime, hasHelpers, noGis);
              outcome == run.outcome && log == old(log) + run.effects
      ensures LimbCleaned(pngdata, lon, lat)
    {
      DownloadChannels();
      var fill := CleanLimb(pngdata, lon, lat);
      outcome := Finish(base, fill.None?, startDateTime, hasHelpers, noGis);
      AppendAssociates(old(log), Downloads(), AfterDownloads(base, fill.None?, startDateTime, hasHelpers, noGis).effects);
    }

    /** Lines 45-50: `ch01.nc`, `ch02.nc` and `ch03.nc` are fetched, in that order. */
    method DownloadChannels()
      modifies this
      ensures log == old(log) + Downloads()
    {
      for i := 1 to 4
        invariant log == old(log) + Downloads()[..i - 1]
      {
        assert Downloads()[..i] == Downloads()[..i - 1] + [Download(i, "./" + ChannelFile(i))];
        log := log + [Download(i, "./" + ChannelFile(i))];
      }
      assert Downloads()[..3] == Downloads();
    }

    /** Lines 52-113 from the `nanmin` on: the exception it or `strptime` raises, or the outputs. */
    method Finish(base: Path, emptyGrid: bool, startDateTime: string, hasHelpers: bool, noGis: bool) returns (outcome: Outcome)
      modifies this
      ensures var rest := AfterDownloads(base, emptyGrid, startDateTime, hasHelpers, noGis);
              outcome == rest.outcome && log == old(log) + rest.effects
    {
      if emptyGrid {
        return Crashed(ValueError);
      }
      var parsed := ParseStartTime(startDateTime);
      if parsed.Err? {
        return Crashed(parsed.error);
      }
      var v := parsed.value;
      WriteOutputs(base, v, hasHelpers, noGis);
      outcome := Completed(v);
    }

    /** Lines 85-113 for valid time `v`: the images, their metadata records and the clean-up. */
    method WriteOutputs(base: Path, v: DateTime, hasHelpers: bool, noGis: bool)
      requires Valid(v)
      modifies this
      ensures log == old(log) + OutputEffects(base, v, hasHelpers, noGis)
    {
      SaveDisplay(base, v, hasHelpers);
      if !noGis {
        SaveGis(base, v, hasHelpers);
      }
      RemoveDownloads();
    }

    /** Lines 85-94: the display image and, with the helpers, its product-5 record. */
    method SaveDisplay(base: Path, v: DateTime, hasHelpers: bool)
      requires Valid(v)
      modifies this
      ensures log == old(log) + DisplayEffects(base, v, hasHelpers)
    {
      var display := DisplayPath(base, v);
      log := log + [MakeDirs(Dirname(display))];
      if hasHelpers {
        log := log + [DressImage(Title, v, Notice, Width, Height)];
      }
      if hasHelpers {
        log := log + [SaveImage(display), MetadataRecord(base, 5, v)];
      } else {
        log := log + [SaveFigure(display, false)];
      }
    }

    /** Lines 97-110: the transparent GIS image and, with the helpers, its product-4 record. */
    method SaveGis(base: Path, v: DateTime, hasHelpers: bool)
      requires Valid(v)
      modifies this
      ensures log == old(log) + GisEffects(base, v, hasHelpers, false)
    {
      var gis := GisPath(base, v);
      log := log + [MakeDirs(Dirname(gis)), SaveFigure(gis, true)];
      if hasHelpers {
        log := log + [MetadataRecord(base, 4, v)];
      }
    }

    /** Lines 112-113: `remove(f'ch0{i}.nc')` for `i` in 1, 2, 3. */
    method RemoveDownloads()
      modifies this
      ensures log == old(log) + Removals()
    {
      for i := 1 to 4
        invariant log == old(log) + Removals()[..i - 1]
      {
        assert Removals()[..i] == Removals()[..i - 1] + [Remove(ChannelFile(i))];
        log := log + [Remove(ChannelFile(i))];
      }
      assert Removals()[..3] == Removals();
    }
  }

  /** Appending two pieces one after the other appends their concatenation. */
  lemma AppendAssociates(log: seq<Effect>, first: seq<Effect>, second: seq<Effect>)
    ensures log + first + second == log + (first + second)
  {
  }

  /** A `writeJson` for `product` somewhere in the effects. */
  predicate WritesProduct(effects: seq<Effect>, product: nat) {
    exists k :: 0 <= k < |effects| && effects[k].WriteJson? && effects[k].product == product
  }

  /** A run stopped by the gate downloads, writes and removes nothing. */
  lemma GateStopIsSilent(base: Path, name1: string, name2: string, name3: string, files: map<Path, Document>,
                         emptyGrid: bool, startDateTime: string, hasHelpers: bool, noGis: bool)
    requires !Decide(base, name1, name2, name3, files).Proceed?
    ensures PlotSatRun(base, name1, name2, name3, files, emptyGrid, startDateTime, hasHelpers, noGis).effects == []
    ensures !PlotSatRun(base, name1, name2, name3, files, emptyGrid, startDateTime, hasHelpers, noGis).outcome.Completed?
  {
  }

  /** Channel tokens that disagree end the run with `exit()` and no effect at all. */
  lemma DesyncedChannelsDoNothing(base: Path, name1: string, name2: string, name3: string, files: map<Path, Document>,
                                  emptyGrid: bool, startDateTime: string, hasHelpers: bool, noGis: bool)
    requires Token(name1).Some? && Token(name2).Some? && Token(name3).Some? && !Agree(name1, name2, name3)
    ensures PlotSatRun(base, name1, name2, name3, files, emptyGrid, startDateTime, hasHelpers, noGis) == Run(Exited, [])
  {
    DisagreementSkips(base, name1, name2, name3, files);
  }

  /** With the helper module, the product-5 record is written before any product-4 record. */
  lemma ProductFiveBeforeFour(base: Path, v: DateTime, hasHelpers: bool, noGis: bool, i: int, j: int)
    requires Valid(v)
    requires var e := OutputEffects(base, v, hasHelpers, noGis);
      0 <= i < |e| && 0 <= j < |e| && e[i].WriteJson? && e[i].product == 5 && e[j].WriteJson? && e[j].product == 4
    ensures i < j
  {
    var head, gis := DisplayEffects(base, v, hasHelpers), GisEffects(base, v, hasHelpers, noGis);
    assert OutputEffects(base, v, hasHelpers, noGis) == head + gis + Removals();
    assert forall k :: 0 <= k < |head| ==> !(head[k].WriteJson? && head[k].product == 4);
    assert forall k :: 0 <= k < |gis| ==> !(gis[k].WriteJson? && gis[k].product == 5);
    assert forall k :: 0 <= k < 3 ==> !Removals()[k].WriteJson?;
  }

  /**
   * `--no-gis` decides the GIS work: with it there is no GIS image and no
   * product-4 record; without it the GIS image is saved transparent, and
   * recorded as product 4 when the helper module is present.
   */
  lemma GisOnlyWithoutFlag(base: Path, v: DateTime, hasHelpers: bool, noGis: bool)
    requires Valid(v)
    ensures var e := OutputEffects(base, v, hasHelpers, noGis);
      noGis ==> !WritesProduct(e, 4) && SaveFigure(GisPath(base, v), true) !in e
    ensures var e := OutputEffects(base, v, hasHelpers, noGis);
      !noGis ==> SaveFigure(GisPath(base, v), true) in e && (hasHelpers ==> MetadataRecord(base, 4, v) in e)
  {
    var e := OutputEffects(base, v, hasHelpers, noGis);
    DisplayAndGisDifferOnlyInTree(base, v);
    assert DisplayPath(base, v) != GisPath(base, v) by {
      assert DisplayPath(base, v)[|base| + 1] != GisPath(base, v)[|base| + 1];
    }
    if noGis {
      assert forall k :: 0 <= k < |e| ==> !(e[k].WriteJson? && e[k].product == 4);
      assert forall k :: 0 <= k < |e| ==> e[k] != SaveFigure(GisPath(base, v), true);
    } else {
      var k := if hasHelpers then 5 else 3;
      assert e[k] == SaveFigure(GisPath(base, v), true);
      if hasHelpers {
        assert e[k + 1] == MetadataRecord(base, 4, v);
      }
    }
  }

  /** Without the helper module no metadata is written at all. */
  lemma NoHelpersNoMetadata(base: Path, v: DateTime, noGis: bool)
    requires Valid(v)
    ensures forall k :: 0 <= k < |OutputEffects(base, v, false, noGis)| ==> !OutputEffects(base, v, false, noGis)[k].WriteJson?
  {
  }

  /**
   * With the helper module, the product-5 record names the display image
   * just saved: its file name is the image path's last segment, its run
   * time is the top of the valid hour.
   */
  lemma DisplayRecordMatchesImage(base: Path, v: DateTime, noGis: bool)
    requires Valid(v)
    ensures var e := OutputEffects(base, v, true, noGis);
      e[2] == SaveImage(DisplayPath(base, v)) && e[3] == MetadataRecord(base, 5, v)
      && e[3].fileName == DisplayPath(base, v)[|DisplayPath(base, v)| - 1]
      && e[3].runTime.minute == 0 && e[3].runTime.hour == v.hour && e[3].runTime.day == v.day
  {
  }

  /**
   * A completed run starts with the three downloads and ends by removing
   * the three downloaded files.
   */
  lemma DownloadsRemovedOnCompletion(decision: Decision, base: Path, emptyGrid: bool, startDateTime: string, hasHelpers: bool, noGis: bool)
    requires RunAfter(decision, base, emptyGrid, startDateTime, hasHelpers, noGis).outcome.Completed?
    ensures var effects := RunAfter(decision, base, emptyGrid, startDateTime, hasHelpers, noGis).effects;
      |effects| >= 6 && effects[..3] == Downloads() && effects[|effects| - 3..] == Removals()
  {
    var v := ParseStartTime(startDateTime).value;
    var front := DisplayEffects(base, v, hasHelpers) + GisEffects(base, v, hasHelpers, noGis);
    var effects := RunAfter(decision, base, emptyGrid, startDateTime, hasHelpers, noGis).effects;
    AppendAssociates(Downloads(), front, Removals());
    assert effects == Downloads() + front + Removals();
  }

  /** A run that fails after the downloads leaves the downloaded files in place. */
  lemma FailedRunKeepsDownloads(decision: Decision, base: Path, emptyGrid: bool, startDateTime: string, hasHelpers: bool, noGis: bool)
    requires RunAfter(decision, base, emptyGrid, startDateTime, hasHelpers, noGis).outcome.Crashed?
    ensures var effects := RunAfter(decision, base, emptyGrid, startDateTime, hasHelpers, noGis).effects;
      effects == [] || effects == Downloads()
    ensures var effects := RunAfter(decision, base, emptyGrid, startDateTime, hasHelpers, noGis).effects;
      forall k :: 0 <= k < |effects| ==> !effects[k].Remove?
  {
  }

  /** The files fetched and removed are `ch01.nc`, `ch02.nc` and `ch03.nc`, fetched into the working directory. */
  lemma ChannelFileNames()
    ensures Downloads() == [Download(1, "./ch01.nc"), Download(2, "./ch02.nc"), Download(3, "./ch03.nc")]
    ensures Removals() == [Remove("ch01.nc"), Remove("ch02.nc"), Remove("ch03.nc")]
  {
    assert ChannelFile(1) == "ch01.nc" && ChannelFile(2) == "ch02.nc" && ChannelFile(3) == "ch03.nc";
    assert "./" + ChannelFile(1) == "./ch01.nc";
    assert "./" + ChannelFile(2) == "./ch02.nc";
    assert "./" + ChannelFile(3) == "./ch03.nc";
  }
}
