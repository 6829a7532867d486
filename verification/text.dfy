/**
 * The string operations the scripts rely on: `str.split` on one separator
 * character, the `[:-n]` slice, and fixed-width decimal fields as `strptime`
 * reads them and `strftime` writes them.
 */
module Text {

  import opened Wrappers

  /** `s.split(sep)` with a one-character separator: the fields between separators, empty ones included. */
  function Split(s: string, sep: char): (fields: seq<string>)
    ensures |fields| >= 1
    ensures forall k :: 0 <= k < |fields| ==> sep !in fields[k]
    decreases |s|
  {
    if s == [] then [[]]
    else
      var rest := Split(s[1..], sep);
      if s[0] == sep then [[]] + rest
      else [[s[0]] + rest[0]] + rest[1..]
  }

  /** `sep.join(fields)`. */
  function Join(fields: seq<string>, sep: char): string
    requires |fields| >= 1
    decreases |fields|
  {
    if |fields| == 1 then fields[0] else fields[0] + [sep] + Join(fields[1..], sep)
  }

  /** Joining the fields of a split gives back the original string. */
  lemma {:induction false} JoinSplit(s: string, sep: char)
    ensures Join(Split(s, sep), sep) == s
    decreases |s|
  {
    if s != [] {
      JoinSplit(s[1..], sep);
      var rest := Split(s[1..], sep);
      if s[0] != sep && |rest| > 1 {
        assert [s[0]] + rest[0] + [sep] + Join(rest[1..], sep) == [s[0]] + (rest[0] + [sep] + Join(rest[1..], sep));
      }
    }
  }

  /** Splitting a join of separator-free fields gives back the fields. */
  lemma {:induction false} SplitJoin(fields: seq<string>, sep: char)
    requires |fields| >= 1
    requires forall k :: 0 <= k < |fields| ==> sep !in fields[k]
    ensures Split(Join(fields, sep), sep) == fields
    decreases |fields|, |fields[0]|
  {
    if |fields[0]| > 0 {
      var tail := [fields[0][1..]] + fields[1..];
      assert Join(fields, sep) == [fields[0][0]] + Join(tail, sep) by {
        if |fields| > 1 {
          assert Join(tail, sep) == fields[0][1..] + [sep] + Join(fields[1..], sep) by {
            assert tail[1..] == fields[1..];
          }
        }
      }
      SplitJoin(tail, sep);
      assert Join(fields, sep)[1..] == Join(tail, sep);
      assert [fields[0][0]] + fields[0][1..] == fields[0];
    } else if |fields| > 1 {
      assert Join(fields, sep) == [sep] + Join(fields[1..], sep);
      SplitJoin(fields[1..], sep);
      assert Join(fields, sep)[1..] == Join(fields[1..], sep);
    }
  }

  /** `s.split(sep)[k]`, or None where Python raises IndexError. */
  function Field(s: string, sep: char, k: nat): (r: Option<string>)
    ensures r.Some? <==> k < |Split(s, sep)|
    ensures r.Some? ==> sep !in r.value
  {
    var fields := Split(s, sep);
    if k < |fields| then Some(fields[k]) else None
  }

  /** `s[:-n]` for `n > 0`: everything but the last `n` characters, or nothing when `s` is shorter. */
  function DropLast(s: string, n: nat): (r: string)
    requires n > 0
    ensures |r| == if |s| >= n then |s| - n else 0
    ensures r <= s
  {
    if |s| >= n then s[..|s| - n] else []
  }

  predicate IsDigit(c: char) {
    '0' <= c <= '9'
  }

  predicate AllDigits(s: string) {
    forall k :: 0 <= k < |s| ==> IsDigit(s[k])
  }

  function DigitChar(n: int): (c: char)
    requires 0 <= n < 10
    ensures IsDigit(c)
  {
    ('0' as int + n) as char
  }

  function DigitValue(c: char): (n: int)
    requires IsDigit(c)
    ensures 0 <= n < 10 && DigitChar(n) == c
  {
    c as int - '0' as int
  }

  function Pow10(k: nat): (p: nat) {
    if k == 0 then 1 else 10 * Pow10(k - 1)
  }

  /**
   * The value of a run of decimal digits, as `int()` reads it: a single
   * digit is its own value, and the last digit is the units digit.
   */
  function Number(s: string): (n: nat)
    requires AllDigits(s)
    ensures |s| == 1 ==> n == DigitValue(s[0])
    ensures s != [] ==> n % 10 == DigitValue(s[|s| - 1])
    decreases |s|
  {
    if s == [] then 0 else Number(s[..|s| - 1]) * 10 + DigitValue(s[|s| - 1])
  }

  /** `k` digits hold a value below `10^k`. */
  lemma {:induction false} NumberBelowPow10(s: string)
    requires AllDigits(s)
    ensures Number(s) < Pow10(|s|)
    decreases |s|
  {
    if s != [] {
      NumberBelowPow10(s[..|s| - 1]);
    }
  }

  /** `%02d`: two zero-padded digits that read back as `n`. */
  function Pad2(n: int): (s: string)
    requires 0 <= n < 100
    ensures |s| == 2 && AllDigits(s) && Number(s) == n
  {
    var s := [DigitChar(n / 10), DigitChar(n % 10)];
    assert s[..1] == [s[0]] && [s[0]][..0] == [];
    assert Number(s[..1]) == n / 10;
    s
  }

  /** `%03d`: three zero-padded digits that read back as `n`. */
  function Pad3(n: int): (s: string)
    requires 0 <= n < 1000
    ensures |s| == 3 && AllDigits(s) && Number(s) == n
  {
    var head := Pad2(n / 10);
    var s := head + [DigitChar(n % 10)];
    assert s[..2] == head;
    s
  }

  /** `%04d`: four zero-padded digits that read back as `n`. */
  function Pad4(n: int): (s: string)
    requires 0 <= n < 10000
    ensures |s| == 4 && AllDigits(s) && Number(s) == n
  {
    var head := Pad3(n / 10);
    var s := head + [DigitChar(n % 10)];
    assert s[..3] == head;
    s
  }
}
