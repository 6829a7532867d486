/**
 * The watchdog of check-sat-dead.py: when the rollup metadata shows no
 * reload for more than ten minutes and a lock file names the worker's
 * process, that process is killed with `kill -9` and the lock file removed.
 *
 * The clock (`datetime.utcnow()`) is a parameter: the current time to the
 * second plus its microseconds. The shell command is recorded, not run.
 */
module Watchdog {

  import opened Wrappers
  import opened Calendar
  import opened Stamps
  import opened Store

  /** Seconds without a reload after which the worker counts as stuck. */
  const StaleAfter: int := 600

  /** `output/metadata/5.json` under the script's directory. */
  function RollupPath(base: Path): (p: Path)
    ensures |p| == |base| + 3 && p[..|base|] == base && p[|p| - 1] == "5.json"
  {
    base + ["output", "metadata", "5.json"]
  }

  /** `geocolor-lock.txt` under the script's directory. */
  function LockPath(base: Path): (p: Path)
    ensures |p| == |base| + 1 && p[..|base|] == base && p[|base|] == "geocolor-lock.txt"
  {
    base + ["geocolor-lock.txt"]
  }

  /**
   * `(utcnow() - lastRunTime).total_seconds() > 600`, counted in
   * microseconds so that the comparison is exact: `now` is the current
   * time without its microseconds, `nowMicro` those microseconds.
   */
  predicate Stale(last: DateTime, now: DateTime, nowMicro: int)
    requires Valid(last) && Valid(now)
  {
    (ToSeconds(now) - ToSeconds(last)) * 1000000 + nowMicro > StaleAfter * 1000000
  }

  /** What one pass of the watchdog concludes. */
  datatype Verdict =
    | NoRollup              // the rollup file does not exist
    | Crashed(error: Error) // `json.load`, the key lookup or `strptime` raised
    | Fresh                 // a reload within the last ten minutes
    | StaleUnlocked         // stuck, but there is no lock file to name a process
    | Killed(pid: string)   // stuck: the process named in the lock file is killed

  /** What the watchdog does outside its own memory. */
  datatype Action = Shell(command: string) | RemoveFile(path: Path)

  /**
   * Lines 11-20 as a function of the rollup file (None when absent), the
   * lock file's contents (None when absent) and the clock.
   */
  function Judge(rollup: Option<Document>, lock: Option<string>, now: DateTime, nowMicro: int): (r: Verdict)
    requires Valid(now) && 0 <= nowMicro < 1000000
    ensures r.NoRollup? <==> rollup.None?
    ensures r.Crashed? ==> r.error == JsonError || r.error == KeyError || r.error == ValueError
    ensures r.Killed? ==> lock == Some(r.pid)
    ensures r.StaleUnlocked? ==> lock.None?
  {
    match rollup
    case None => NoRollup
    case Some(Unreadable) => Crashed(JsonError)
    case Some(Json(md)) =>
      match md.lastReloadTime
      case None => Crashed(KeyError)
      case Some(stamp) =>
        match ParseMinuteStamp(stamp)
        case Err(e) => Crashed(e)
        case Ok(last) =>
          if !Stale(last, now, nowMicro) then Fresh
          else
            match lock
            case None => StaleUnlocked
            case Some(pid) => Killed(pid)
  }

  /** Lines 21-22: the kill command, then the removal of the lock file; nothing otherwise. */
  function Actions(base: Path, verdict: Verdict): seq<Action> {
    if verdict.Killed? then [Shell("kill -9 " + verdict.pid), RemoveFile(LockPath(base))] else []
  }

  /** The machine as the watchdog sees it: the two files it reads, and what it has done. */
  class Host {
    var rollup: Option<Document>
    var lock: Option<string>
    var log: seq<Action>

    constructor (rollup: Option<Document>, lock: Option<string>)
      ensures this.rollup == rollup && this.lock == lock && log == []
    {
      this.rollup := rollup;
      this.lock := lock;
      log := [];
    }

    /**
     * The `__main__` block of check-sat-dead.py, run under `base`. The
     * rollup file is only read; the lock file disappears exactly when the
     * process it names is killed.
     */
    method CheckSatDead(base: Path, now: DateTime, nowMicro: int) returns (verdict: Verdict)
      requires Valid(now) && 0 <= nowMicro < 1000000
      modifies this
      ensures verdict == Judge(old(rollup), old(lock), now, nowMicro)
      ensures log == old(log) + Actions(base, verdict)
      ensures rollup == old(rollup)
      ensures lock == if verdict.Killed? then None else old(lock)
    {
      if rollup.None? {
        return NoRollup;
      }
      var document := rollup.value;
      if document.Unreadable? {
        return Crashed(JsonError);
      }
      var stamp := document.doc.lastReloadTime;
      if stamp.None? {
        return Crashed(KeyError);
      }
      var parsed := ParseMinuteStamp(stamp.value);
      if parsed.Err? {
        return Crashed(parsed.error);
      }
      var stale := Stale(parsed.value, now, nowMicro);
      assert Judge(rollup, lock, now, nowMicro) == if !stale then Fresh else if lock.None? then StaleUnlocked else Killed(lock.value);
      if !stale {
        return Fresh;
      }
      if lock.None? {
        return StaleUnlocked;
      }
      var pid := lock.value;
      log := log + [Shell("kill -9 " + pid)];
      log := log + [RemoveFile(LockPath(base))];
      lock := None;
      verdict := Killed(pid);
    }
  }

  /**
   * The threshold is strict and reached at minute resolution: exactly 600
   * seconds after the reload is not stale, any microsecond more is.
   */
  lemma StaleIsStrict(last: DateTime, now: DateTime, nowMicro: int)
    requires Valid(last) && Valid(now) && 0 <= nowMicro < 1000000
    requires ToSeconds(now) == ToSeconds(last) + StaleAfter
    ensures Stale(last, now, nowMicro) <==> nowMicro > 0
  {
  }

  /** Once stale, stale at every later instant. */
  lemma StaleMonotone(last: DateTime, now: DateTime, nowMicro: int, later: DateTime, laterMicro: int)
    requires Valid(last) && Valid(now) && Valid(later)
    requires ToSeconds(now) * 1000000 + nowMicro <= ToSeconds(later) * 1000000 + laterMicro
    requires Stale(last, now, nowMicro)
    ensures Stale(last, later, laterMicro)
  {
  }

  /**
   * Staleness in whole seconds: with the clock inside a second, more than
   * 600 seconds have passed exactly when the whole seconds elapsed exceed
   * 600, or equal it with some microseconds to spare.
   */
  lemma StaleInSeconds(last: DateTime, now: DateTime, nowMicro: int)
    requires Valid(last) && Valid(now) && 0 <= nowMicro < 1000000
    ensures Stale(last, now, nowMicro)
            <==> ToSeconds(now) - ToSeconds(last) > StaleAfter
                 || (ToSeconds(now) - ToSeconds(last) == StaleAfter && nowMicro > 0)
  {
    var d := ToSeconds(now) - ToSeconds(last);
    if d > StaleAfter {
      assert d * 1000000 >= (StaleAfter + 1) * 1000000;
    } else if d < StaleAfter {
      assert d * 1000000 <= (StaleAfter - 1) * 1000000;
    }
  }

  /** Without the rollup file the watchdog does nothing. */
  lemma NoRollupDoesNothing(base: Path, lock: Option<string>, now: DateTime, nowMicro: int)
    requires Valid(now) && 0 <= nowMicro < 1000000
    ensures Actions(base, Judge(None, lock, now, nowMicro)) == []
  {
  }

  /** A reload within the last ten minutes leaves the worker and the lock file alone. */
  lemma FreshDoesNothing(base: Path, rollup: Option<Document>, lock: Option<string>, now: DateTime, nowMicro: int)
    requires Valid(now) && 0 <= nowMicro < 1000000
    requires rollup.Some? && rollup.value.Json? && rollup.value.doc.lastReloadTime.Some?
    requires ParseMinuteStamp(rollup.value.doc.lastReloadTime.value).Ok?
    requires !Stale(ParseMinuteStamp(rollup.value.doc.lastReloadTime.value).value, now, nowMicro)
    ensures Judge(rollup, lock, now, nowMicro) == Fresh
    ensures Actions(base, Judge(rollup, lock, now, nowMicro)) == []
  {
  }

  /**
   * The kill happens exactly when the rollup names a reload more than ten
   * minutes old and the lock file exists; the command carries the lock
   * file's contents verbatim, and the lock file is removed after it.
   */
  lemma KillIffStaleAndLocked(base: Path, rollup: Option<Document>, lock: Option<string>, now: DateTime, nowMicro: int)
    requires Valid(now) && 0 <= nowMicro < 1000000
    ensures var acts := Actions(base, Judge(rollup, lock, now, nowMicro));
      acts != [] <==>
        && rollup.Some? && rollup.value.Json? && rollup.value.doc.lastReloadTime.Some?
        && ParseMinuteStamp(rollup.value.doc.lastReloadTime.value).Ok?
        && Stale(ParseMinuteStamp(rollup.value.doc.lastReloadTime.value).value, now, nowMicro)
        && lock.Some?
    ensures var acts := Actions(base, Judge(rollup, lock, now, nowMicro));
      acts != [] ==>
        && |acts| == 2
        && acts[0] == Shell("kill -9 " + lock.value)
        && acts[1] == RemoveFile(LockPath(base))
  {
  }

  /** The command is `kill -9 ` followed by the lock file's contents, unchanged. */
  lemma KillCommandCarriesPid(base: Path, pid: string)
    ensures var acts := Actions(base, Killed(pid));
      acts[0].Shell? && |acts[0].command| == 8 + |pid|
      && acts[0].command[..8] == "kill -9 " && acts[0].command[8..] == pid
  {
  }

  /** The watchdog never removes or alters the rollup metadata. */
  lemma RollupUntouched(base: Path, verdict: Verdict)
    ensures forall k :: 0 <= k < |Actions(base, verdict)| ==> Actions(base, verdict)[k] != RemoveFile(RollupPath(base))
  {
    if verdict.Killed? {
      assert LockPath(base)[|base|] != RollupPath(base)[|base|];
    }
  }

  /** A stale run without a lock file is left as it is. */
  lemma StaleWithoutLockDoesNothing(base: Path, rollup: Option<Document>, now: DateTime, nowMicro: int)
    requires Valid(now) && 0 <= nowMicro < 1000000
    ensures Actions(base, Judge(rollup, None, now, nowMicro)) == []
  {
  }
}
