/**
 * File-name handling used by the reader dispatch: lower-casing and the
 * suffix test on the lower-cased name.
 */
module Text {

  /** Lower-cases one character; only the ASCII letters A-Z change. */
  function LowerChar(c: char): char
  {
    if 'A' <= c <= 'Z' then (c as int + 32) as char else c
  }

  /** The name lower-cased character by character. */
  function Lower(s: string): string
  {
    seq(|s|, i requires 0 <= i < |s| => LowerChar(s[i]))
  }

  predicate EndsWith(s: string, suffix: string)
  {
    |suffix| <= |s| && s[|s| - |suffix|..] == suffix
  }

  /** The dispatch test of the reader: the lower-cased name ends with ".csv". */
  predicate IsCsvName(name: string)
  {
    EndsWith(Lower(name), ".csv")
  }

  /** Matches one character of a suffix case-insensitively: `lower` is the
      lower-case letter (or a non-letter) and `upper` its upper-case form. */
  predicate Matches(c: char, lower: char, upper: char)
  {
    c == lower || c == upper
  }

  /**
   * The dispatch test depends only on the last four characters of the name
   * as uploaded, each compared without regard to ASCII case.
   */
  lemma CsvNameIgnoresCase(name: string)
    ensures IsCsvName(name) <==>
      |name| >= 4 &&
      name[|name| - 4] == '.' &&
      Matches(name[|name| - 3], 'c', 'C') &&
      Matches(name[|name| - 2], 's', 'S') &&
      Matches(name[|name| - 1], 'v', 'V')
  {
    var low := Lower(name);
    var n := |name|;
    if n >= 4 {
      var tail := low[n - 4..];
      assert tail == [low[n - 4], low[n - 3], low[n - 2], low[n - 1]];
      assert IsCsvName(name) <==> tail == ".csv";
    }
  }
}
