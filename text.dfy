/** The handful of Python `str` operations the backend access layer relies on,
    with their semantics written out: `rstrip("/")`, `strip()`, `split()`,
    `lower()` (ASCII), `endswith`, `find`, `str(int)`, `str(None)` and the
    truthiness of an optional string. */
module Text {
  import opened Wrappers

  /** Python's `bool(x)` for an optional string: present and non-empty. */
  predicate Truthy(x: Option<string>) {
    x.Some? && x.value != ""
  }

  /** Python's `str(x)` for an optional string, as used inside f-strings. */
  function PyStr(x: Option<string>): string {
    match x
    case None => "None"
    case Some(v) => v
  }

  predicate StartsWith(s: string, prefix: string) {
    |prefix| <= |s| && s[..|prefix|] == prefix
  }

  predicate EndsWith(s: string, suffix: string) {
    |suffix| <= |s| && s[|s| - |suffix|..] == suffix
  }

  lemma EndsWithAppended(s: string, suffix: string)
    ensures EndsWith(s + suffix, suffix)
  {
    assert (s + suffix)[|s|..] == suffix;
  }

  // ---------------------------------------------------------------------
  // rstrip("/")

  /** `s.rstrip("/")`: drops every trailing slash and nothing else. */
  function RStripSlash(s: string): (r: string)
    ensures |r| <= |s| && r == s[..|r|]
    ensures r == [] || r[|r| - 1] != '/'
    ensures forall i :: |r| <= i < |s| ==> s[i] == '/'
    decreases |s|
  {
    if s != [] && s[|s| - 1] == '/' then RStripSlash(s[..|s| - 1]) else s
  }

  /** Stripping twice is stripping once, and a string with a character other
      than '/' never strips to the empty string. */
  lemma RStripSlashFacts(s: string)
    ensures RStripSlash(RStripSlash(s)) == RStripSlash(s)
    ensures RStripSlash(s) == [] <==> forall i :: 0 <= i < |s| ==> s[i] == '/'
  {
    var r := RStripSlash(s);
    if r != [] {
      assert s[|r| - 1] == r[|r| - 1];
    }
  }

  // ---------------------------------------------------------------------
  // Whitespace: strip() and split()

  /** Python's `str.isspace()` on the ASCII range: space, tab, line feed,
      vertical tab, form feed, carriage return and the four information
      separators U+001C-U+001F. */
  predicate IsSpace(c: char) {
    c == ' ' || (9 <= c as int <= 13) || (28 <= c as int <= 31)
  }

  predicate IsBlank(s: string) {
    forall i :: 0 <= i < |s| ==> IsSpace(s[i])
  }

  predicate NoSpace(s: string) {
    forall i :: 0 <= i < |s| ==> !IsSpace(s[i])
  }

  /** The first index at or after `i` that does not hold whitespace. */
  function SkipSpace(s: string, i: nat): (j: nat)
    requires i <= |s|
    ensures i <= j <= |s|
    ensures forall k :: i <= k < j ==> IsSpace(s[k])
    ensures j == |s| || !IsSpace(s[j])
    decreases |s| - i
  {
    if i == |s| || !IsSpace(s[i]) then i else SkipSpace(s, i + 1)
  }

  /** The first index at or after `i` that holds whitespace. */
  function SkipWord(s: string, i: nat): (j: nat)
    requires i <= |s|
    ensures i <= j <= |s|
    ensures forall k :: i <= k < j ==> !IsSpace(s[k])
    ensures j == |s| || IsSpace(s[j])
    decreases |s| - i
  {
    if i == |s| || IsSpace(s[i]) then i else SkipWord(s, i + 1)
  }

  /** The smallest index in `lo..j` such that `s[that..j]` is whitespace. */
  function BackSpace(s: string, lo: nat, j: nat): (e: nat)
    requires lo <= j <= |s|
    ensures lo <= e <= j
    ensures forall k :: e <= k < j ==> IsSpace(s[k])
    ensures e == lo || !IsSpace(s[e - 1])
    decreases j - lo
  {
    if j == lo || !IsSpace(s[j - 1]) then j else BackSpace(s, lo, j - 1)
  }

  /** `s.strip()`: the text between the leading and the trailing whitespace;
      empty exactly when `s` is all whitespace. */
  function Strip(s: string): (r: string)
    ensures r == [] || (!IsSpace(r[0]) && !IsSpace(r[|r| - 1]))
    ensures r == [] <==> IsBlank(s)
    ensures exists i {:trigger s[i..]} :: 0 <= i <= |s| - |r| && r == s[i..][..|r|]
    ensures var a := SkipSpace(s, 0);
      a + |r| <= |s| && r == s[a..a + |r|] && IsBlank(s[..a]) && IsBlank(s[a + |r|..])
  {
    var a := SkipSpace(s, 0);
    var b := BackSpace(s, a, |s|);
    assert s[a..b] == s[a..][..b - a];
    s[a..b]
  }

  /** `s.split()` from index `i` on: the maximal runs of non-whitespace. */
  function SplitFrom(s: string, i: nat): (r: seq<string>)
    requires i <= |s|
    ensures forall k :: 0 <= k < |r| ==> r[k] != [] && NoSpace(r[k])
    ensures r == [] <==> forall k :: i <= k < |s| ==> IsSpace(s[k])
    decreases |s| - i
  {
    var a := SkipSpace(s, i);
    if a == |s| then []
    else
      var b := SkipWord(s, a);
      [s[a..b]] + SplitFrom(s, b)
  }

  /** `s.split()` with no argument. */
  function Split(s: string): (r: seq<string>)
    ensures forall k :: 0 <= k < |r| ==> r[k] != [] && NoSpace(r[k])
    ensures r == [] <==> IsBlank(s)
  {
    SplitFrom(s, 0)
  }

  /** The non-whitespace characters of `s[i..]`, in order: the reference
      that `Split` is measured against. */
  function NonSpaceFrom(s: string, i: nat): string
    requires i <= |s|
    decreases |s| - i
  {
    if i == |s| then [] else (if IsSpace(s[i]) then [] else [s[i]]) + NonSpaceFrom(s, i + 1)
  }

  function Concat(ws: seq<string>): string {
    if ws == [] then [] else ws[0] + Concat(ws[1..])
  }

  lemma {:induction false} NonSpaceSkipsSpace(s: string, i: nat, j: nat)
    requires i <= j <= |s|
    requires forall k :: i <= k < j ==> IsSpace(s[k])
    ensures NonSpaceFrom(s, i) == NonSpaceFrom(s, j)
    decreases j - i
  {
    if i < j {
      NonSpaceSkipsSpace(s, i + 1, j);
    }
  }

  lemma {:induction false} NonSpaceKeepsWord(s: string, i: nat, j: nat)
    requires i <= j <= |s|
    requires forall k :: i <= k < j ==> !IsSpace(s[k])
    ensures NonSpaceFrom(s, i) == s[i..j] + NonSpaceFrom(s, j)
    decreases j - i
  {
    if i < j {
      NonSpaceKeepsWord(s, i + 1, j);
      assert NonSpaceFrom(s, i) == [s[i]] + NonSpaceFrom(s, i + 1);
      assert s[i..j] == [s[i]] + s[i + 1..j];
      assert [s[i]] + (s[i + 1..j] + NonSpaceFrom(s, j)) == ([s[i]] + s[i + 1..j]) + NonSpaceFrom(s, j);
    }
  }

  /** Splitting loses exactly the whitespace: joining the words gives back the
      non-whitespace characters of the input, in order. */
  lemma {:induction false} SplitKeepsNonSpace(s: string, i: nat)
    requires i <= |s|
    ensures Concat(SplitFrom(s, i)) == NonSpaceFrom(s, i)
    decreases |s| - i
  {
    var a := SkipSpace(s, i);
    NonSpaceSkipsSpace(s, i, a);
    if a < |s| {
      var b := SkipWord(s, a);
      NonSpaceKeepsWord(s, a, b);
      SplitKeepsNonSpace(s, b);
      assert SplitFrom(s, i) == [s[a..b]] + SplitFrom(s, b);
    }
  }

  /** A character-by-character reading of `split()`: `word` is the run of
      non-whitespace read so far; whitespace or the end of the string closes
      it, and an empty run yields no word. */
  function ScanWords(s: string, i: nat, word: string): seq<string>
    requires i <= |s|
    decreases |s| - i
  {
    if i == |s| then (if word == [] then [] else [word])
    else if IsSpace(s[i]) then (if word == [] then [] else [word]) + ScanWords(s, i + 1, [])
    else ScanWords(s, i + 1, word + [s[i]])
  }

  lemma {:induction false} ScanSkipsSpace(s: string, i: nat, j: nat)
    requires i <= j <= |s|
    requires forall k :: i <= k < j ==> IsSpace(s[k])
    ensures ScanWords(s, i, []) == ScanWords(s, j, [])
    decreases j - i
  {
    if i < j {
      ScanSkipsSpace(s, i + 1, j);
    }
  }

  lemma {:induction false} ScanReadsWord(s: string, i: nat, j: nat, word: string)
    requires i <= j <= |s|
    requires forall k :: i <= k < j ==> !IsSpace(s[k])
    ensures ScanWords(s, i, word) == ScanWords(s, j, word + s[i..j])
    decreases j - i
  {
    if i < j {
      ScanReadsWord(s, i + 1, j, word + [s[i]]);
      assert word + [s[i]] + s[i + 1..j] == word + s[i..j];
    } else {
      assert word + s[i..j] == word;
    }
  }

  /** `split()` yields exactly the words the character scan closes, in
      order: the maximal runs of non-whitespace, no more and no fewer. */
  lemma {:induction false} SplitMatchesScan(s: string, i: nat)
    requires i <= |s|
    requires i == 0 || i == |s| || IsSpace(s[i]) || IsSpace(s[i - 1])
    ensures SplitFrom(s, i) == ScanWords(s, i, [])
    decreases |s| - i
  {
    var a := SkipSpace(s, i);
    ScanSkipsSpace(s, i, a);
    if a < |s| {
      var b := SkipWord(s, a);
      ScanReadsWord(s, a, b, []);
      assert [] + s[a..b] == s[a..b];
      assert SplitFrom(s, i) == [s[a..b]] + SplitFrom(s, b);
      SplitMatchesScan(s, b);
      if b < |s| {
        ScanSkipsSpace(s, b, b + 1);
      }
    }
  }

  /** The whole-string form. */
  lemma SplitIsScan(s: string)
    ensures Split(s) == ScanWords(s, 0, [])
  {
    SplitMatchesScan(s, 0);
  }

  // ---------------------------------------------------------------------
  // lower()

  function LowerChar(c: char): char {
    if 'A' <= c <= 'Z' then (c as int + 32) as char else c
  }

  /** `s.lower()` restricted to ASCII letters. A few other characters lower
      to ASCII letters too (U+212A KELVIN SIGN lowers to 'k'), but none of
      them to a letter of "true" or "yes" or to a digit, so testing the
      result against those words decides the same as Python does. */
  function AsciiLower(s: string): (r: string)
    ensures |r| == |s|
    ensures forall i :: 0 <= i < |s| ==> r[i] == LowerChar(s[i])
  {
    seq(|s|, i requires 0 <= i < |s| => LowerChar(s[i]))
  }

  // ---------------------------------------------------------------------
  // find()

  predicate OccursAt(s: string, pattern: string, i: nat) {
    i + |pattern| <= |s| && s[i..i + |pattern|] == pattern
  }

  function IndexFrom(s: string, pattern: string, from: nat): (r: Option<nat>)
    requires from <= |s|
    ensures r.Some? ==> from <= r.value && OccursAt(s, pattern, r.value)
    ensures forall j: nat :: from <= j && (r.None? || j < r.value) ==> !OccursAt(s, pattern, j)
    decreases |s| - from
  {
    if OccursAt(s, pattern, from) then Some(from)
    else if from + |pattern| >= |s| then None
    else IndexFrom(s, pattern, from + 1)
  }

  /** `s.find(pattern)`: the first position at which `pattern` occurs. */
  function IndexOf(s: string, pattern: string): (r: Option<nat>)
    ensures r.Some? ==> OccursAt(s, pattern, r.value)
    ensures forall j: nat :: (r.None? || j < r.value) ==> !OccursAt(s, pattern, j)
  {
    IndexFrom(s, pattern, 0)
  }

  // ---------------------------------------------------------------------
  // str(int)

  function DigitChar(d: nat): char
    requires d < 10
  {
    ('0' as int + d) as char
  }

  function DigitValue(c: char): nat {
    if '0' <= c <= '9' then c as int - '0' as int else 0
  }

  predicate IsDigit(c: char) {
    '0' <= c <= '9'
  }

  /** `str(n)` for a non-negative integer: its decimal digits, with no
      leading zero. */
  function NatToString(n: nat): (r: string)
    ensures r != [] && forall i :: 0 <= i < |r| ==> IsDigit(r[i])
    ensures r[0] == '0' ==> n == 0
    decreases n
  {
    if n < 10 then [DigitChar(n)] else NatToString(n / 10) + [DigitChar(n % 10)]
  }

  /** The value of a string of decimal digits. */
  function ParseDecimal(s: string): nat {
    if s == [] then 0 else 10 * ParseDecimal(s[..|s| - 1]) + DigitValue(s[|s| - 1])
  }

  /** Reading back what `NatToString` writes gives the number again. */
  lemma {:induction false} NatToStringRoundTrip(n: nat)
    ensures ParseDecimal(NatToString(n)) == n
    decreases n
  {
    if n >= 10 {
      NatToStringRoundTrip(n / 10);
      var r := NatToString(n);
      assert r[..|r| - 1] == NatToString(n / 10);
    }
  }

  /** `str(i)` for any integer. */
  function IntToString(i: int): (r: string)
    ensures i < 0 <==> (r != [] && r[0] == '-')
  {
    if i < 0 then "-" + NatToString(-i) else NatToString(i)
  }

  // ---------------------------------------------------------------------
  // os.path

  /** `os.path.join(a, b)` for a relative `b`. */
  function PathJoin(a: string, b: string): (r: string)
    ensures EndsWith(r, b)
  {
    var r := if a == [] || EndsWith(a, "/") then a + b else a + "/" + b;
    assert r == (r[..|r| - |b|]) + b;
    r
  }
}
