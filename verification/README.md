# hdwx-satellite GeoColor worker and watchdog, modelled in Dafny

This project models two scripts of the HDWX GOES-16 GeoColor product generator.

`plotSat` in geocolor.py is the worker. It:
- reads the newest dataset name of channels 1, 2 and 3 from the THREDDS catalog;
- stops unless all three names carry the same valid-time token;
- reads that token as an ordinal date (`s%Y%j%H%M`);
- stops unless the hour's product-5 metadata file is missing, or its last frame is older than the token;
- downloads the three channels;
- cleans the off-disk limb of the longitude and latitude grids;
- saves the display image under `output/products/...` and, unless `--no-gis` is given, a transparent GIS image under `output/gisproducts/...`;
- with the `HDWX_helpers` module present, records product-5 and product-4 metadata;
- finally removes the downloaded files.

The `__main__` block of check-sat-dead.py is the watchdog. It reads `lastReloadTime` from `output/metadata/5.json`. When more than 600 seconds have passed and `geocolor-lock.txt` exists, it runs `kill -9 <contents of the lock file>` and removes the lock file.

Modules, one file each:
- `Wrappers`: Option, Result and the Python exceptions that can end a run (IndexError, ValueError, KeyError and the JSON decode error).
- `Calendar`: proleptic Gregorian dates as Python's `datetime` has them. It covers the leap rule, day-of-year, `toordinal`, a seconds count for subtraction, and `<` as a field-by-field comparison.
- `Text`: `str.split` on one character, `[:-n]`, and fixed-width decimal fields.
- `Stamps`: the three `strptime`/`strftime` layouts the scripts use, with their round trips.
- `Store`: paths as segment lists, and the metadata documents the scripts read.
- `Gate`: lines 34-43 of geocolor.py as a decision.
- `Layout`: output paths and the file name.
- `Limb`: lines 64-69 as in-place loops over `array2`/`array3`. Coordinates are extended integers (`NegInf | Fin | PosInf`). Colour samples are `Option<int>`, with None standing for NaN.
- `Worker`: a whole `plotSat` run as a class whose effect log the methods extend. The log is specified by pure functions of the inputs.
- `Watchdog`: check-sat-dead.py as a `Host` class, holding the two files it reads and its action log, and a pure `Judge` function.

On line 69 of geocolor.py, the code and its evident purpose disagree. `lat[np.abs(lat) == -99] = np.nanmax(lat)` was evidently meant to give the latitudes set to -99 on line 68 the largest latitude of the grid. An absolute value is never -99, so the line changes nothing. The model follows the code: infinite latitudes end as -99 (`Limb.AbsNeverMinus99`, `Limb.MarkInfiniteLatitudes`).

## Model

| member | source | states |
|---|---|---|
| Calendar.ValidDate | geocolor.py:36 | `datetime`'s year (1 to 9999), month and day range checks: a valid day is at most 31, and February 29 exists exactly in leap years |
| Calendar.Valid | check-sat-dead.py:15 | `datetime`'s range checks on all six fields: a valid time of day lies within the 86400 seconds of one day |
| Calendar.IsLeapYear | geocolor.py:36 | the Gregorian leap rule: divisible by 4, and not by 100 unless by 400 |
| Calendar.DaysInMonth | geocolor.py:36 | month lengths under the Gregorian leap rule, always 28 to 31 days |
| Calendar.DaysBeforeMonth | geocolor.py:36 | the cumulative month table: 0 before January, the year length before "month 13", each step adds that month's length |
| Calendar.DaysBeforeMonthGrows | geocolor.py:36 | later months start later in the year (induction) |
| Calendar.DayOfYear | geocolor.py:36 | `%j` of a valid date lies between 1 and the length of its year |
| Calendar.MonthDayFrom | geocolor.py:36 | the month search lands on a valid month and day whose day-of-year is the one sought |
| Calendar.MonthDay | geocolor.py:36 | day-of-year to month and day: a valid date with that day-of-year |
| Calendar.DayOfYearInjective | geocolor.py:36 | two dates of one year with the same day-of-year are equal |
| Calendar.MonthDayOfDayOfYear | geocolor.py:36 | date to day-of-year to date is the identity |
| Calendar.DayOfYearOfMonthDay | geocolor.py:36 | day-of-year to date to day-of-year is the identity |
| Calendar.MonthDayLandmarks | geocolor.py:36 | day 1 is January 1; day 60 is February 29 in a leap year and March 1 otherwise |
| Calendar.DaysBeforeYearGrows | check-sat-dead.py:16 | each year starts at least a year length after every earlier year (induction) |
| Calendar.DayNumber | check-sat-dead.py:16 | `date.toordinal()`: the day lies within its year's span of day numbers |
| Calendar.ToSeconds | check-sat-dead.py:16 | the seconds count of a time lies within the 86400 seconds of its day |
| Calendar.Before | geocolor.py:42 | Python's `<` on naive datetimes: the six fields compared lexicographically |
| Calendar.DayNumberOrder | geocolor.py:42 | dates compared field by field are ordered as their day numbers, and equal exactly when those are |
| Calendar.BeforeIffEarlier | geocolor.py:42 | `<` on datetimes (field tuples) agrees with the order of their seconds counts, and equal counts mean equal times |
| Calendar.TopOfHour | geocolor.py:91 | the `runTime` passed to `writeJson`, `validTime - timedelta(minutes=validTime.minute)`, is valid, has minute 0, keeps date, hour and second, and lies `60 * minute` seconds earlier |
| Calendar.OrdinalDate | geocolor.py:36 | `%j` arithmetic: the date whose day number is January 1 plus `j - 1`; no date exactly when year 9999 has no such day; in-year days keep the year |
| Calendar.OrdinalDateRollover | geocolor.py:36 | day 366 of a common year is January 1 of the next year |
| Text.Split | geocolor.py:34 | `split("_")` yields at least one field and no field contains the separator |
| Text.JoinSplit | geocolor.py:34 | joining the fields of a split gives back the string (induction) |
| Text.SplitJoin | geocolor.py:34 | splitting a join of separator-free fields gives back the fields (induction) |
| Text.Field | geocolor.py:34 | `split("_")[3]` exists exactly when there are more than three fields (else IndexError) and holds no separator |
| Text.DropLast | geocolor.py:36 | `[:-3]` has three characters fewer, or none when shorter, and is a prefix |
| Text.Number | geocolor.py:36 | `int()` of a matched digit field: one digit is its own value, and the last digit is the units digit |
| Text.NumberBelowPow10 | geocolor.py:36 | `k` digits hold a value below `10^k` (induction) |
| Text.Pad2 | geocolor.py:37 | `%02d` gives two digits that read back as the value |
| Text.Pad3 | geocolor.py:36 | `%03d` gives three digits that read back as the value |
| Text.Pad4 | geocolor.py:37 | `%Y` gives four digits that read back as the year |
| Stamps.FromOrdinalFields | geocolor.py:36 | ordinal fields give a datetime exactly when every field is in range and the day exists; the day number is January 1 plus `j - 1`; otherwise ValueError |
| Stamps.ParseOrdinalToken | geocolor.py:36 | `strptime(.., "s%Y%j%H%M")` accepts only `s`, `S` or the long s `ſ` (U+017F) and eleven digits, yields a valid whole-minute time, and raises ValueError otherwise |
| Stamps.FormatOrdinalToken | geocolor.py:36 | the token layout is twelve characters |
| Stamps.OrdinalTokenFields | geocolor.py:36 | a formatted token holds `s`, then the padded year, day of year, hour and minute at fixed offsets |
| Stamps.OrdinalTokenIgnoresCase | geocolor.py:36 | the literal letter is matched case-insensitively as Unicode regular expressions do: `S` and `ſ` read exactly as `s`, and no other letter is accepted |
| Stamps.OrdinalTokenRoundTrip | geocolor.py:36 | formatting a whole-minute time as a token and parsing it back gives the same time |
| Stamps.ParseStartTime | geocolor.py:74 | `strptime(.., "%Y%j%H%M%S")` accepts only thirteen digits, yields a valid time, and raises ValueError otherwise |
| Stamps.FormatStartTime | geocolor.py:74 | the `start_date_time` layout is thirteen digits |
| Stamps.StartTimeFields | geocolor.py:74 | a formatted `start_date_time` holds the padded year, day of year, hour, minute and second at fixed offsets |
| Stamps.StartTimeRoundTrip | geocolor.py:74 | any valid time written as `%Y%j%H%M%S` parses back as itself, seconds included |
| Stamps.ParseMinuteStamp | geocolor.py:41 | `strptime(.., "%Y%m%d%H%M")` accepts only twelve digits, yields a valid whole-minute time, and raises ValueError otherwise |
| Stamps.FormatMinuteStamp | geocolor.py:41 | `%Y%m%d%H%M` is twelve digits |
| Stamps.HourStamp | geocolor.py:37 | `%Y%m%d%H00` is the minute stamp of the top of the hour |
| Stamps.PadNumber2 | geocolor.py:41 | a two-digit field is exactly the padding of its value |
| Stamps.PadNumber3 | geocolor.py:36 | a three-digit field is exactly the padding of its value |
| Stamps.PadNumber4 | geocolor.py:41 | a four-digit field is exactly the padding of its value |
| Stamps.MinuteStampFields | geocolor.py:41 | a formatted minute stamp holds the padded year, month, day, hour and minute at fixed offsets |
| Stamps.MinuteStampRoundTrip | geocolor.py:41 | formatting a whole-minute time and parsing it back gives the same time |
| Stamps.MinuteStampCanonical | geocolor.py:41 | a stamp that parses is exactly the formatting of its time |
| Stamps.HourStampSameHour | geocolor.py:37 | two times share an hour stamp exactly when they share year, month, day and hour |
| Gate.Token | geocolor.py:34 | `name.split("_")[3]` exists exactly when the name has at least four fields, and holds no `_` |
| Gate.MetadataPath | geocolor.py:37 | the metadata file lies five segments under the script's directory |
| Gate.LastFrameTime | geocolor.py:39-41 | the last frame's `valid` as a whole-minute time, or the JSON, KeyError or IndexError the lookup raises |
| Gate.Decide | geocolor.py:34-43 | the gate's verdict in Python's evaluation order; a candidate it proceeds with is a valid whole-minute time |
| Gate.PassRequiresAgreement | geocolor.py:34-35 | the run gets past line 35 only when all three tokens exist and are equal |
| Gate.DisagreementSkips | geocolor.py:34-35 | channel 2's token differing from channel 1's, or channel 3's, ends the run with `exit()` |
| Gate.CandidateFromToken | geocolor.py:36 | the candidate is the shared token less its last three characters, read as `s%Y%j%H%M` |
| Gate.AbsentMetadataProceeds | geocolor.py:37-38 | with no metadata file for the candidate's hour the gate always proceeds |
| Gate.NoveltyCheck | geocolor.py:38-43 | with a metadata file, the run exits exactly when the last frame is at or after the candidate, and proceeds exactly when it is strictly earlier |
| Gate.MetadataPathPerHour | geocolor.py:37 | the metadata file depends only on the candidate's year, month, day and hour |
| Gate.PublishedFrameSkips | geocolor.py:38-43 | once the candidate's frame is the last one published, polling again skips |
| Gate.TokenOfFields | geocolor.py:34 | the token of a name built from four separator-free fields is the fourth field |
| Gate.ExampleTokenParses | geocolor.py:36 | `s20230861801707` less three characters reads as 2023-03-27 18:01 |
| Gate.WorkedExample | geocolor.py:34-38 | three GOES-16 CONUS names with that token and no metadata proceed with 2023-03-27 18:01 |
| Layout.FileName | geocolor.py:85 | `%M.png` is six characters, the two-digit minute then `.png` |
| Layout.ImagePath | geocolor.py:85 | the image path is ten segments under the script's directory, with the tree second and the file name last |
| Layout.DisplayPath | geocolor.py:85 | the display image lies under `output/products`, ten segments below the script's directory, named by `%M.png` |
| Layout.GisPath | geocolor.py:101 | the GIS image lies under `output/gisproducts`, ten segments below the script's directory, named by `%M.png` |
| Layout.Dirname | geocolor.py:86 | the directory created is the image path less its last segment |
| Layout.DisplayAndGisDifferOnlyInTree | geocolor.py:85-101 | the display and GIS paths are equal except for `products` / `gisproducts` |
| Layout.DateSegments | geocolor.py:85 | the date segments are zero-padded `%Y`, `%m`, `%d` and `%H00` and read back as the valid time's fields |
| Layout.ImagePathPerMinute | geocolor.py:85 | two valid times share an image path exactly when they agree to the minute |
| Limb.IsInf | geocolor.py:65-68 | the mask `np.abs(x) == np.inf` holds exactly for the two infinities |
| Limb.Abs | geocolor.py:65-69 | `np.abs` is never negative and infinite exactly for the infinities |
| Limb.RowExtreme | geocolor.py:67 | the extreme of one row bounds every cell and is held by one of them |
| Limb.GridExtreme | geocolor.py:67 | `nanmin` / `nanmax` bound every cell and are held by one of them when the grid is not empty |
| Limb.LimbCleaned | geocolor.py:64-69 | the state after the cleaning: NaN in every band where a coordinate was infinite, infinite longitudes hold the old `nanmin`, infinite latitudes hold -99, everything else unchanged |
| Limb.BlankWhereInfinite | geocolor.py:65-66 | one `np.where`: the band becomes NaN where the coordinate is infinite, and nothing else changes |
| Limb.AssignWhere | geocolor.py:67-69 | a masked assignment: cells whose old value matches the mask take the value, the others keep theirs |
| Limb.BlankOffDisk | geocolor.py:64-66 | after the band loop every pixel with an infinite longitude or latitude is NaN in all three bands, and every other pixel is unchanged |
| Limb.MarkInfiniteLatitudes | geocolor.py:68-69 | infinite latitudes become -99 and finite ones are unchanged; line 69 changes nothing |
| Limb.CleanLimb | geocolor.py:64-69 | the grids satisfy `LimbCleaned`; ValueError exactly for an empty grid; the fill is the `nanmin` of the longitudes before assignment |
| Limb.AbsNeverMinus99 | geocolor.py:69 | no absolute value is -99, so line 69's mask selects nothing |
| Limb.FillIsLeastLongitude | geocolor.py:67 | the longitude fill is a grid value at or below every cell, and it is `-inf` exactly when some longitude is `-inf` |
| Worker.ChannelFile | geocolor.py:113 | `ch0{i}.nc` is `ch0`, the digit, then `.nc` |
| Worker.MetadataRecord | geocolor.py:91-110 | a `writeJson` call: the script's directory, product, run time, file name, valid time, `gisInfo` and reload interval 270 |
| Worker.Downloads | geocolor.py:44-50 | channel `i` is downloaded to `./ch0{i}.nc`, for channels 1, 2 and 3 in order |
| Worker.Removals | geocolor.py:112-113 | `ch0{i}.nc` is removed, for channels 1, 2 and 3 in order |
| Worker.DisplayEffects | geocolor.py:85-93 | the display directory is created; then, with helpers, dressing, saving and the product-5 record; otherwise one `savefig` |
| Worker.GisEffects | geocolor.py:96-110 | nothing under `--no-gis`; otherwise the directory, the transparent GIS image and, with helpers, the product-4 record |
| Worker.OutputEffects | geocolor.py:85-113 | the display effects, then the GIS effects, then the removals |
| Worker.AfterDownloads | geocolor.py:52-113 | after the downloads: ValueError for an empty grid, the `strptime` error for a bad `start_date_time`, or the outputs for the parsed valid time |
| Worker.ProceedRun | geocolor.py:44-113 | a run past the gate: the downloads, then the rest |
| Worker.RunAfter | geocolor.py:34-113 | the gate's `exit()` and its exceptions do nothing; `Proceed` runs on |
| Worker.PlotSatRun | geocolor.py:29-113 | a whole `plotSat` run as a function of its inputs |
| Worker.Worker.constructor | geocolor.py:29 | a fresh worker has done nothing |
| Worker.Worker.PlotSat | geocolor.py:29-113 | the outcome and the effects appended are those of `PlotSatRun`; the grids are cleaned exactly when the gate proceeds and untouched otherwise |
| Worker.Worker.Process | geocolor.py:44-113 | past the gate, the outcome and effects are the downloads and then `AfterDownloads`, and the grids satisfy `LimbCleaned` |
| Worker.Worker.DownloadChannels | geocolor.py:44-50 | the loop appends exactly the three downloads |
| Worker.Worker.Finish | geocolor.py:67-113 | the outcome and appended effects are those of `AfterDownloads` |
| Worker.Worker.WriteOutputs | geocolor.py:85-113 | the appended effects are `OutputEffects` |
| Worker.Worker.SaveDisplay | geocolor.py:85-94 | the appended effects are `DisplayEffects` |
| Worker.Worker.SaveGis | geocolor.py:97-110 | the appended effects are the GIS effects without `--no-gis` |
| Worker.Worker.RemoveDownloads | geocolor.py:112-113 | the loop appends exactly the three removals |
| Worker.GateStopIsSilent | geocolor.py:34-43 | a run the gate stops downloads, writes and removes nothing, and does not complete |
| Worker.DesyncedChannelsDoNothing | geocolor.py:34-35 | disagreeing channel tokens end the run with `exit()` and no effect |
| Worker.ProductFiveBeforeFour | geocolor.py:91-110 | any product-5 record comes before any product-4 record |
| Worker.GisOnlyWithoutFlag | geocolor.py:96-110 | with `--no-gis`, no GIS image and no product-4 record; without it, the transparent GIS image and, with helpers, the product-4 record |
| Worker.NoHelpersNoMetadata | geocolor.py:87-110 | without the helper module no metadata is written |
| Worker.DisplayRecordMatchesImage | geocolor.py:89-91 | with helpers, the image is saved and then recorded under its own file name, with the top of the valid hour as run time |
| Worker.DownloadsRemovedOnCompletion | geocolor.py:44-113 | a completed run starts with the three downloads and ends with their three removals |
| Worker.FailedRunKeepsDownloads | geocolor.py:44-74 | a run that raises has done nothing or only the downloads, and removes nothing |
| Worker.ChannelFileNames | geocolor.py:45-113 | the files are `./ch01.nc`, `./ch02.nc` and `./ch03.nc`, removed as `ch01.nc`, `ch02.nc` and `ch03.nc` |
| Watchdog.RollupPath | check-sat-dead.py:11 | `output/metadata/5.json` under the script's directory |
| Watchdog.LockPath | check-sat-dead.py:17 | `geocolor-lock.txt` under the script's directory |
| Watchdog.Stale | check-sat-dead.py:16 | `(utcnow() - lastRunTime).total_seconds() > 600`, compared exactly in microseconds |
| Watchdog.Judge | check-sat-dead.py:11-20 | no verdict of "no rollup" unless the file is absent; the exceptions are the JSON, KeyError and ValueError ones; a kill names the lock file's contents; "stale but unlocked" only without a lock file |
| Watchdog.Actions | check-sat-dead.py:21-22 | the kill command and then the lock-file removal, and nothing for any other verdict |
| Watchdog.Host.constructor | check-sat-dead.py:9-10 | the host starts with the two files and an empty log |
| Watchdog.Host.CheckSatDead | check-sat-dead.py:9-22 | the verdict is `Judge` of the files before the run; the log gains exactly `Actions`; the rollup is unchanged; the lock file is gone exactly after a kill |
| Watchdog.StaleIsStrict | check-sat-dead.py:16 | exactly 600 seconds after the reload is not stale, and any microsecond more is |
| Watchdog.StaleMonotone | check-sat-dead.py:16 | once stale, stale at every later instant |
| Watchdog.StaleInSeconds | check-sat-dead.py:16 | stale exactly when more than 600 whole seconds have passed, or exactly 600 and some microseconds |
| Watchdog.NoRollupDoesNothing | check-sat-dead.py:12 | without the rollup file there is no kill and no removal |
| Watchdog.FreshDoesNothing | check-sat-dead.py:15-16 | a reload within the last 600 seconds leaves the worker and the lock file alone |
| Watchdog.StaleWithoutLockDoesNothing | check-sat-dead.py:17-18 | a stale run without a lock file is left as it is |
| Watchdog.KillIffStaleAndLocked | check-sat-dead.py:12-22 | a kill happens exactly when the reload parses, is stale and the lock file exists; it is `kill -9` plus the contents, then the lock-file removal |
| Watchdog.KillCommandCarriesPid | check-sat-dead.py:21 | the command is `kill -9 ` followed by the lock file's contents, unchanged |
| Watchdog.RollupUntouched | check-sat-dead.py:13-14 | the watchdog never removes the rollup metadata |

## Left out

- The THREDDS catalog listing, the downloads themselves, `xr.open_dataset` and the 30-second timeout (geocolor.py:31-33, 44-50) are network I/O and a signal-based timeout. The three dataset names are inputs, and a download is a recorded effect.
- Per-band normalisation (geocolor.py:52-55) is floating-point division. The colour cube is an input.
- The geostationary projection and `centers_to_edges_2d` (geocolor.py:57-62, 71-72) are foreign floating-point geodesy. The longitude and latitude grids are inputs, and the edge conversion after cleaning is not modelled.
- The plotting (geocolor.py:76-83, 97-100, 105-107, 94) is rendering. Figure sizes and extents appear only through the `dressImage` arguments.
- `HDWX_helpers.dressImage`, `saveImage` and `writeJson` are code outside this repository. They are recorded as effects with their arguments other than the figure and axes objects; `writeJson` records the script's directory it is given. Whether the module exists (geocolor.py:23-27) is an input.
- `os.system`, `dt.utcnow()` and the `__file__` directory are the operating system and the clock. The current time (to the second plus microseconds) and the base directory are parameters, and the kill command is recorded rather than run.
- Coordinates are extended integers, not floats. NaN coordinates, which `nanmin` would skip, do not arise from the projection and are not modelled.
- `Stamps.ParseOrdinalToken`, `Stamps.ParseStartTime` and `Stamps.ParseMinuteStamp` accept fixed-width digit fields only. `strptime`'s leniency for shorter fields (for example a one-digit month) is not modelled, so some strings Python accepts are rejected here. `strptime`'s `\d` also matches non-ASCII Unicode digits (for example Arabic-Indic digits), which the model rejects. Of the format's characters only the literal `s` is a letter; the model accepts `s`, `S` and `ſ` for it, which are the characters Python's case-insensitive matching pairs with `s`. Years below 1000 are written with four digits.
- `Store.Metadata`: a JSON value of an unexpected type (a number where a string is expected, and so on) is not modelled. A key is either present with a string or list, or absent.
- `Worker.Worker.PlotSat`: the `exit()` at the gate and every exception are an outcome of the run rather than the end of the process, and no partial state of a figure is modelled.
