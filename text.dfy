/** The parts of .NET's string and path handling that the modelled code
    relies on, over `seq<char>`.  Comparisons are ordinal; case folding is
    ASCII only and white space is the ASCII white-space characters. */
module Text {

  /** `s.IndexOf(c, from)`: the first index at or after `from` holding `c`, or -1. */
  function IndexOf(s: string, c: char, from: nat): (r: int)
    requires from <= |s|
    ensures r == -1 <==> c !in s[from..]
    ensures r != -1 ==> from <= r < |s| && s[r] == c && c !in s[from..r]
    decreases |s| - from
  {
    if from == |s| then -1
    else if s[from] == c then from
    else
      assert s[from..] == [s[from]] + s[from + 1..];
      IndexOf(s, c, from + 1)
  }

  /** `s.LastIndexOf(c)`: the last index holding `c`, or -1. */
  function LastIndexOf(s: string, c: char): (r: int)
    ensures -1 <= r < |s|
    ensures r == -1 <==> c !in s
    ensures r != -1 ==> s[r] == c
    ensures forall k :: r < k < |s| ==> s[k] != c
  {
    if s == [] then -1
    else if s[|s| - 1] == c then |s| - 1
    else
      assert s == s[..|s| - 1] + [s[|s| - 1]];
      LastIndexOf(s[..|s| - 1], c)
  }

  /** `s.Split(sep)[0]`: the text before the first `sep`, or all of `s`. */
  function FirstSegment(s: string, sep: char): (r: string)
    ensures |r| <= |s| && r == s[..|r|] && sep !in r
    ensures |r| < |s| ==> s[|r|] == sep
  {
    var i := IndexOf(s, sep, 0);
    if i == -1 then s else s[..i]
  }

  /** The characters `char.IsWhiteSpace` accepts, restricted to ASCII. */
  const WhiteSpace: set<char> := {' ', '\t', '\n', '\r', '\U{B}', '\U{C}'}

  lemma CommaIsNotWhiteSpace()
    ensures ',' !in WhiteSpace
  {
  }

  /** `s.TrimStart(chars)`: drop every leading character that is in `chars`. */
  function TrimStart(s: string, chars: set<char>): (r: string)
    ensures |r| <= |s| && r == s[|s| - |r|..]
    ensures forall i :: 0 <= i < |s| - |r| ==> s[i] in chars
    ensures r == [] || r[0] !in chars
  {
    if s != [] && s[0] in chars then TrimStart(s[1..], chars) else s
  }

  /** `s.TrimEnd(chars)`: drop every trailing character that is in `chars`. */
  function TrimEnd(s: string, chars: set<char>): (r: string)
    ensures |r| <= |s| && r == s[..|r|]
    ensures forall i :: |r| <= i < |s| ==> s[i] in chars
    ensures r == [] || r[|r| - 1] !in chars
  {
    if s != [] && s[|s| - 1] in chars then TrimEnd(s[..|s| - 1], chars) else s
  }

  /** `s.Trim(chars)`: drop leading and trailing characters that are in `chars`. */
  function Trim(s: string, chars: set<char>): (r: string)
    ensures |r| <= |s|
    ensures r == [] || (r[0] !in chars && r[|r| - 1] !in chars)
    ensures (s == [] || (s[0] !in chars && s[|s| - 1] !in chars)) ==> r == s
  {
    TrimEnd(TrimStart(s, chars), chars)
  }

  /** `Trim` keeps one contiguous piece of `s`: everything before it and
      everything after it is a trimmed character. */
  lemma TrimIsInfix(s: string, chars: set<char>)
    ensures var r := Trim(s, chars);
            var a := |s| - |TrimStart(s, chars)|;
            && a + |r| <= |s| && (forall k :: 0 <= k < |r| ==> r[k] == s[a + k])
            && (forall i :: 0 <= i < a ==> s[i] in chars)
            && (forall i :: a + |r| <= i < |s| ==> s[i] in chars)
  {
    var front := TrimStart(s, chars);
    var r := TrimEnd(front, chars);
    PrefixOfSuffix(s, front, r);
    TrimmedTail(s, front, r, chars);
  }

  /** A prefix `r` of a suffix `front` of `s` sits in `s` right where
      `front` starts. */
  lemma PrefixOfSuffix(s: string, front: string, r: string)
    requires |front| <= |s| && front == s[|s| - |front|..]
    requires |r| <= |front| && r == front[..|r|]
    ensures |s| - |front| + |r| <= |s| && forall k :: 0 <= k < |r| ==> r[k] == s[|s| - |front| + k]
  {
  }

  /** What follows that prefix in `s` is what follows it in `front`. */
  lemma TrimmedTail(s: string, front: string, r: string, chars: set<char>)
    requires |front| <= |s| && front == s[|s| - |front|..]
    requires |r| <= |front|
    requires forall j :: |r| <= j < |front| ==> front[j] in chars
    ensures forall i :: |s| - |front| + |r| <= i < |s| ==> s[i] in chars
  {
    var a := |s| - |front|;
    forall i | a + |r| <= i < |s|
      ensures s[i] in chars
    {
      assert front[i - a] == s[i];
    }
  }

  /** `s.EndsWith(suffix)`, ordinal. */
  predicate EndsWith(s: string, suffix: string) {
    |suffix| <= |s| && s[|s| - |suffix|..] == suffix
  }

  lemma EndsWithAppended(s: string, suffix: string)
    ensures EndsWith(s + suffix, suffix)
  {
    assert (s + suffix)[|s|..] == suffix;
  }

  /** A first character that is not trimmed stays first. */
  lemma TrimKeepsFirst(s: string, chars: set<char>)
    requires s != [] && s[0] !in chars
    ensures Trim(s, chars) != [] && Trim(s, chars)[0] == s[0]
  {
    assert TrimStart(s, chars) == s;
  }

  /** Trimming adds no character. */
  lemma TrimKeepsAbsent(s: string, chars: set<char>, c: char)
    requires c !in s
    ensures c !in Trim(s, chars)
  {
    var front := TrimStart(s, chars);
    assert front == s[|s| - |front|..];
    assert c !in front;
    var r := TrimEnd(front, chars);
    assert r == front[..|r|];
  }

  /** Trimming white space off blanks around a trimmed word gives the word. */
  lemma {:induction false} TrimLeadingBlank(s: string, chars: set<char>, c: char)
    requires c in chars
    requires s == [] || (s[0] !in chars && s[|s| - 1] !in chars)
    ensures Trim([c] + s, chars) == s
  {
    assert ([c] + s)[1..] == s;
    assert TrimStart([c] + s, chars) == TrimStart(s, chars) == s;
    assert TrimEnd(s, chars) == s;
  }

  /** ASCII upper-casing, as ordinal case-insensitive comparison folds. */
  function UpperAscii(ch: char): char {
    if 'a' <= ch <= 'z' then (ch as int - 32) as char else ch
  }

  /** `a.Equals(b, StringComparison.OrdinalIgnoreCase)`, for ASCII text. */
  predicate EqualsIgnoreCase(a: string, b: string)
    ensures EqualsIgnoreCase(a, b) ==> |a| == |b|
  {
    if a == [] || b == [] then a == b
    else UpperAscii(a[0]) == UpperAscii(b[0]) && EqualsIgnoreCase(a[1..], b[1..])
  }

  /** `Path.GetFileName(path)`: the text after the last `\`, or all of `path`. */
  function GetFileName(path: string): (r: string)
    ensures |r| <= |path| && r == path[|path| - |r|..]
    ensures '\\' !in r
    ensures |r| < |path| ==> path[|path| - |r| - 1] == '\\'
  {
    if path == [] || path[|path| - 1] == '\\' then ""
    else GetFileName(path[..|path| - 1]) + [path[|path| - 1]]
  }

  /** The final segment from its last `.` on, or "" when it has no `.`. */
  function DotSuffix(path: string): (r: string)
    ensures |r| <= |GetFileName(path)| && r == path[|path| - |r|..]
    ensures r != "" ==> r[0] == '.' && '.' !in r[1..]
    ensures r == "" ==> '.' !in GetFileName(path)
  {
    if path == [] || path[|path| - 1] == '\\' then ""
    else if path[|path| - 1] == '.' then "."
    else
      var r := DotSuffix(path[..|path| - 1]);
      assert GetFileName(path) == GetFileName(path[..|path| - 1]) + [path[|path| - 1]];
      if r == "" then ""
      else
        SuffixStep(path, r);
        NoDotAfterFirst(r, path[|path| - 1]);
        r + [path[|path| - 1]]
  }

  lemma NoDotAfterFirst(r: string, c: char)
    requires r != [] && '.' !in r[1..] && c != '.'
    ensures '.' !in (r + [c])[1..]
  {
    assert (r + [c])[1..] == r[1..] + [c];
  }

  /** A suffix of `path` without its last character, extended by that
      character, is a suffix of `path`. */
  lemma SuffixStep(path: string, r: string)
    requires path != [] && |r| < |path| && r == path[..|path| - 1][|path| - 1 - |r|..]
    ensures r + [path[|path| - 1]] == path[|path| - |r| - 1..]
  {
  }

  /** `Path.GetExtension(path)`: from the last `.` of the file name to the
      end, or "" when the file name has no `.` or ends with it. */
  function GetExtension(path: string): (r: string)
    ensures |r| <= |GetFileName(path)| && r == path[|path| - |r|..]
    ensures r != "" ==> |r| >= 2 && r[0] == '.' && '.' !in r[1..]
    ensures r == "" ==> '.' !in GetFileName(path) || path[|path| - 1] == '.'
  {
    var r := DotSuffix(path);
    if r == "" then ""
    else if |r| == 1 then
      assert path[|path| - 1] == r[0];
      ""
    else r
  }

  /** The file name of `dir\name` is `name`. */
  lemma {:induction false} FileNameAfterSeparator(dir: string, name: string)
    requires '\\' !in name
    ensures GetFileName(dir + "\\" + name) == name
    decreases |name|
  {
    var path := dir + "\\" + name;
    if name == [] {
      assert path[|path| - 1] == '\\';
    } else {
      var name' := name[..|name| - 1];
      assert path[..|path| - 1] == dir + "\\" + name';
      FileNameAfterSeparator(dir, name');
      assert name' + [name[|name| - 1]] == name;
    }
  }

  /** A last character other than `.` and `\` extends a non-empty suffix. */
  lemma DotSuffixStep(path: string)
    requires path != [] && path[|path| - 1] != '\\' && path[|path| - 1] != '.'
    requires DotSuffix(path[..|path| - 1]) != ""
    ensures DotSuffix(path) == DotSuffix(path[..|path| - 1]) + [path[|path| - 1]]
  {
  }

  /** A file name `base.ext`, with no `.` or `\` in `ext`, ends in `.ext`. */
  lemma {:induction false} DotSuffixOfExtension(base: string, ext: string)
    requires '.' !in ext && '\\' !in ext
    ensures DotSuffix(base + "." + ext) == "." + ext
    decreases |ext|
  {
    var path := base + "." + ext;
    if ext != [] {
      var ext' := ext[..|ext| - 1];
      var last := ext[|ext| - 1];
      assert path[|path| - 1] == last;
      assert last != '.' && last != '\\';
      assert path[..|path| - 1] == base + "." + ext';
      DotSuffixOfExtension(base, ext');
      var shorter := DotSuffix(path[..|path| - 1]);
      assert shorter == "." + ext' && shorter != "";
      DotSuffixStep(path);
      assert ext' + [last] == ext;
    } else {
      assert path[|path| - 1] == '.';
    }
  }

  /** A file name ending in `ext` (a `.` and at least one more character,
      no other `.` and no `\`) has the extension `ext`. */
  lemma ExtensionOf(base: string, ext: string)
    requires |ext| >= 2 && ext[0] == '.' && '.' !in ext[1..] && '\\' !in ext
    ensures GetExtension(base + ext) == ext
  {
    assert ext == "." + ext[1..];
    assert base + ext == base + "." + ext[1..];
    DotSuffixOfExtension(base, ext[1..]);
  }

  /** `Path.GetDirectoryName(path)`: everything before the last `\`, or "".  */
  function GetDirectoryName(path: string): (r: string)
    ensures |r| <= |path| && r == path[..|r|]
    ensures '\\' !in path ==> r == ""
    ensures '\\' in path ==> |r| < |path| && path[|r|] == '\\'
    ensures forall k :: |r| < k < |path| ==> path[k] != '\\'
  {
    var sep := LastIndexOf(path, '\\');
    if sep == -1 then "" else path[..sep]
  }

  /** The directory of `dir\name` is `dir`. */
  lemma DirectoryAfterSeparator(dir: string, name: string)
    requires '\\' !in name
    ensures GetDirectoryName(dir + "\\" + name) == dir
  {
    var path := dir + "\\" + name;
    assert path[|dir|] == '\\';
    assert forall k :: |dir| < k < |path| ==> path[k] == name[k - |dir| - 1];
    assert path[..|dir|] == dir;
  }

  /** Trimming `c` off both ends of `c s c`, where `s` starts and ends with
      characters outside the set, gives `s`. */
  lemma {:induction false} TrimEnclosed(s: string, chars: set<char>, c: char)
    requires c in chars
    requires s != [] && s[0] !in chars && s[|s| - 1] !in chars
    ensures Trim([c] + s + [c], chars) == s
  {
    var t := [c] + s + [c];
    assert t[1..] == s + [c];
    assert TrimStart(t, chars) == TrimStart(s + [c], chars) == s + [c];
    assert (s + [c])[..|s|] == s;
    assert TrimEnd(s + [c], chars) == TrimEnd(s, chars) == s;
  }

  /** One of the ASCII digits `0`..`9`. */
  predicate IsDigit(c: char) {
    '0' as int <= c as int <= '9' as int
  }

  /** Every character of `s` is a digit. */
  predicate AllDigits(s: string) {
    forall i :: 0 <= i < |s| ==> IsDigit(s[i])
  }

  /** The value of a string of decimal digits. */
  function DecimalValue(s: string): nat
    requires forall i :: 0 <= i < |s| ==> IsDigit(s[i])
  {
    if s == [] then 0
    else
      assert IsDigit(s[|s| - 1]);
      DecimalValue(s[..|s| - 1]) * 10 + (s[|s| - 1] as int - '0' as int)
  }

  /** The decimal digit of `d`. */
  function DigitChar(d: nat): (c: char)
    requires d < 10
    ensures IsDigit(c) && c as int - '0' as int == d
  {
    ('0' as int + d) as char
  }

  /** `n.ToString()` for a non-negative `n`: its decimal digits, no leading zeros. */
  function NatToDecimal(n: nat): (s: string)
    ensures s != [] && forall i :: 0 <= i < |s| ==> IsDigit(s[i])
    ensures |s| > 1 ==> s[0] != '0'
  {
    if n < 10 then [DigitChar(n)] else NatToDecimal(n / 10) + [DigitChar(n % 10)]
  }

  /** Reading back the digits `NatToDecimal` writes gives the number. */
  lemma {:induction false} DecimalRoundTrip(n: nat)
    ensures DecimalValue(NatToDecimal(n)) == n
  {
    if n >= 10 {
      var s := NatToDecimal(n);
      assert s[..|s| - 1] == NatToDecimal(n / 10);
      DecimalRoundTrip(n / 10);
    }
  }

  /** `n.ToString()` for any integer: a `-` before the digits of a negative number. */
  function IntToDecimal(n: int): (s: string)
    ensures s != []
  {
    if n < 0 then "-" + NatToDecimal(-n) else NatToDecimal(n)
  }

  /** The upper-case hexadecimal digit of `d`. */
  function HexDigit(d: nat): (c: char)
    requires d < 16
    ensures d < 10 ==> c == DigitChar(d)
    ensures d >= 10 ==> 'A' <= c <= 'F' && !IsDigit(c)
  {
    if d < 10 then DigitChar(d) else ('A' as int + (d - 10)) as char
  }

  /** The lowest `width` hexadecimal digits of `n`, most significant first. */
  function HexDigits(n: nat, width: nat): (s: string)
    ensures |s| == width
  {
    if width == 0 then [] else HexDigits(n / 16, width - 1) + [HexDigit(n % 16)]
  }

  /** How many hexadecimal digits `n` needs (at least one). */
  function HexLength(n: nat): (k: nat)
    ensures k >= 1
  {
    if n < 16 then 1 else 1 + HexLength(n / 16)
  }

  /** 16 to the power `k`. */
  function Pow16(k: nat): (p: nat)
    ensures p >= 1
  {
    if k == 0 then 1 else 16 * Pow16(k - 1)
  }

  /** A number below `16^k` needs at most `k` hexadecimal digits. */
  lemma {:induction false} HexLengthBound(n: nat, k: nat)
    requires k >= 1 && n < Pow16(k)
    ensures HexLength(n) <= k
  {
    if n >= 16 {
      assert k >= 2;
      HexLengthBound(n / 16, k - 1);
    }
  }
}
