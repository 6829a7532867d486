/**
 * The freshness gate at the start of `plotSat` (geocolor.py): the three
 * channels' newest dataset names must carry the same valid-time token, and
 * the time it names must be newer than the last frame already published
 * in that hour's metadata file.
 */
module Gate {

  import opened Wrappers
  import opened Calendar
  import opened Text
  import opened Stamps
  import opened Store

  /** How the gate ends: go on with a candidate time, stop quietly (`exit()`), or stop on an exception. */
  datatype Decision =
    | Proceed(candidate: DateTime)
    | SkipDesync
    | SkipNotNewer
    | Crash(error: Error)

  /** `name.split("_")[3]`, the valid-time token of a dataset name. */
  function Token(name: string): (r: Option<string>)
    ensures r.Some? <==> |Split(name, '_')| >= 4
    ensures r.Some? ==> '_' !in r.value
  {
    Field(name, '_', 3)
  }

  /** `output/metadata/products/5/<YYYYMMDDHH00>.json` under the script's directory. */
  function MetadataPath(base: Path, t: DateTime): (p: Path)
    requires Valid(t)
    ensures |p| == |base| + 5 && p[..|base|] == base
  {
    base + ["output", "metadata", "products", "5", HourStamp(t) + ".json"]
  }

  /** `strptime(json.load(f)["productFrames"][-1]["valid"], "%Y%m%d%H%M")`, with the exceptions it can raise. */
  function LastFrameTime(doc: Document): (r: Result<DateTime>)
    ensures r.Ok? ==> Valid(r.value) && r.value.second == 0
  {
    match doc
    case Unreadable => Err(JsonError)
    case Json(md) =>
      match md.productFrames
      case None => Err(KeyError)
      case Some(frames) =>
        if frames == [] then Err(IndexError)
        else
          match frames[|frames| - 1].valid
          case None => Err(KeyError)
          case Some(v) => ParseMinuteStamp(v)
  }

  /**
   * Lines 34-43 of geocolor.py. The comparisons follow Python's evaluation
   * order: the third name is split only when the first two tokens agree.
   */
  function Decide(base: Path, name1: string, name2: string, name3: string, files: map<Path, Document>): (d: Decision)
    ensures d.Proceed? ==> Valid(d.candidate) && d.candidate.second == 0
  {
    match Token(name1)
    case None => Crash(IndexError)
    case Some(t1) =>
      match Token(name2)
      case None => Crash(IndexError)
      case Some(t2) =>
        if t1 != t2 then SkipDesync
        else
          match Token(name3)
          case None => Crash(IndexError)
          case Some(t3) =>
            if t1 != t3 then SkipDesync
            else
              match ParseOrdinalToken(DropLast(t1, 3))
              case Err(e) => Crash(e)
              case Ok(t) =>
                var p := MetadataPath(base, t);
                if p !in files then Proceed(t)
                else
                  match LastFrameTime(files[p])
                  case Err(e) => Crash(e)
                  case Ok(last) => if !Before(last, t) then SkipNotNewer else Proceed(t)
  }

  /** All three names have a token and the tokens are equal. */
  predicate Agree(name1: string, name2: string, name3: string) {
    Token(name1).Some? && Token(name1) == Token(name2) && Token(name1) == Token(name3)
  }

  /** The run gets past the consistency check only when all three tokens agree. */
  lemma PassRequiresAgreement(base: Path, name1: string, name2: string, name3: string, files: map<Path, Document>)
    requires Decide(base, name1, name2, name3, files).Proceed? || Decide(base, name1, name2, name3, files).SkipNotNewer?
    ensures Agree(name1, name2, name3)
  {
  }

  /** Two tokens that differ stop the run; the third name is not consulted when the first two differ. */
  lemma DisagreementSkips(base: Path, name1: string, name2: string, name3: string, files: map<Path, Document>)
    requires Token(name1).Some? && Token(name2).Some?
    requires Token(name1) != Token(name2) || (Token(name3).Some? && Token(name1) != Token(name3))
    ensures Decide(base, name1, name2, name3, files) == SkipDesync
  {
  }

  /** The candidate is the shared token less its last three characters, read as `s%Y%j%H%M`. */
  lemma CandidateFromToken(base: Path, name1: string, name2: string, name3: string, files: map<Path, Document>)
    requires Decide(base, name1, name2, name3, files).Proceed?
    ensures Token(name1).Some?
    ensures ParseOrdinalToken(DropLast(Token(name1).value, 3)) == Ok(Decide(base, name1, name2, name3, files).candidate)
  {
  }

  /** With no metadata file for the candidate's hour, agreeing tokens that parse always proceed. */
  lemma AbsentMetadataProceeds(base: Path, name1: string, name2: string, name3: string, files: map<Path, Document>, t: DateTime)
    requires Agree(name1, name2, name3)
    requires ParseOrdinalToken(DropLast(Token(name1).value, 3)) == Ok(t)
    requires MetadataPath(base, t) !in files
    ensures Decide(base, name1, name2, name3, files) == Proceed(t)
  {
  }

  /**
   * With a metadata file whose last frame reads back as `last`, the run
   * stops exactly when `last` is at or after the candidate, so equal times
   * are skipped and only strictly newer candidates proceed.
   */
  lemma NoveltyCheck(base: Path, name1: string, name2: string, name3: string, files: map<Path, Document>, t: DateTime, last: DateTime)
    requires Agree(name1, name2, name3)
    requires ParseOrdinalToken(DropLast(Token(name1).value, 3)) == Ok(t)
    requires MetadataPath(base, t) in files && LastFrameTime(files[MetadataPath(base, t)]) == Ok(last)
    ensures Decide(base, name1, name2, name3, files) == SkipNotNewer <==> ToSeconds(t) <= ToSeconds(last)
    ensures Decide(base, name1, name2, name3, files) == Proceed(t) <==> ToSeconds(last) < ToSeconds(t)
  {
    BeforeIffEarlier(last, t);
  }

  /** The metadata file consulted depends on the candidate's year, month, day and hour, and on nothing else. */
  lemma MetadataPathPerHour(base: Path, a: DateTime, b: DateTime)
    requires Valid(a) && Valid(b)
    ensures MetadataPath(base, a) == MetadataPath(base, b)
            <==> (a.year, a.month, a.day, a.hour) == (b.year, b.month, b.day, b.hour)
  {
    HourStampSameHour(a, b);
    if MetadataPath(base, a) == MetadataPath(base, b) {
      var k := |base| + 4;
      assert HourStamp(a) + ".json" == HourStamp(b) + ".json" by {
        assert MetadataPath(base, a)[k] == MetadataPath(base, b)[k];
      }
      assert HourStamp(a) == (HourStamp(a) + ".json")[..12];
      assert HourStamp(b) == (HourStamp(b) + ".json")[..12];
    }
  }

  /**
   * Polling again after the candidate's frame was published stops the run:
   * a metadata file whose last `valid` is the candidate written as
   * `%Y%m%d%H%M` makes the gate skip, however often it is polled.
   */
  lemma PublishedFrameSkips(base: Path, name1: string, name2: string, name3: string, files: map<Path, Document>, t: DateTime, md: Metadata)
    requires Agree(name1, name2, name3)
    requires ParseOrdinalToken(DropLast(Token(name1).value, 3)) == Ok(t)
    requires MetadataPath(base, t) in files && files[MetadataPath(base, t)] == Json(md)
    requires md.productFrames.Some? && |md.productFrames.value| > 0
    requires md.productFrames.value[|md.productFrames.value| - 1].valid == Some(FormatMinuteStamp(t))
    ensures Decide(base, name1, name2, name3, files) == SkipNotNewer
  {
    MinuteStampRoundTrip(t);
  }

  /** The token of a name made of four separator-free fields is its fourth field. */
  lemma TokenOfFields(fields: seq<string>)
    requires |fields| == 4 && forall k :: 0 <= k < 4 ==> '_' !in fields[k]
    ensures Token(Join(fields, '_')) == Some(fields[3])
  {
    SplitJoin(fields, '_');
  }

  /** `s20230861801707` less its last three characters reads as 2023-03-27 18:01. */
  lemma ExampleTokenParses()
    ensures ParseOrdinalToken(DropLast("s20230861801707", 3)) == Ok(DateTime(2023, 3, 27, 18, 1, 0))
  {
    var t := DateTime(2023, 3, 27, 18, 1, 0);
    assert DayOfYear(2023, 3, 27) == 86;
    assert Pad4(2023) == "2023";
    assert Pad3(86) == "086";
    assert Pad2(18) == "18" && Pad2(1) == "01";
    assert DropLast("s20230861801707", 3) == FormatOrdinalToken(t);
    OrdinalTokenRoundTrip(t);
  }

  /**
   * A worked case: three channel names carrying the token `s20230861801707`,
   * with no metadata for that hour, proceed with 2023-03-27 18:01 (day 86 of
   * 2023 is March 27).
   */
  lemma WorkedExample(base: Path, files: map<Path, Document>)
    requires MetadataPath(base, DateTime(2023, 3, 27, 18, 1, 0)) !in files
    ensures Decide(base, Join(["GOES16", "CONUS", "C01", "s20230861801707"], '_'),
                         Join(["GOES16", "CONUS", "C02", "s20230861801707"], '_'),
                         Join(["GOES16", "CONUS", "C03", "s20230861801707"], '_'), files)
            == Proceed(DateTime(2023, 3, 27, 18, 1, 0))
  {
    TokenOfFields(["GOES16", "CONUS", "C01", "s20230861801707"]);
    TokenOfFields(["GOES16", "CONUS", "C02", "s20230861801707"]);
    TokenOfFields(["GOES16", "CONUS", "C03", "s20230861801707"]);
    ExampleTokenParses();
  }
}
