/**
 * The string operations the Python and JavaScript code relies on, over
 * `seq<char>`: digit stripping (`re.sub(r'\D', '', s)`, `s.replace(/\D/g, '')`),
 * ASCII lower-casing, `strip()`/`trim()`, `startswith`, substring tests,
 * Python's `str.replace`, `str.split` and `str.join`, and decimal rendering
 * of a count.
 */
module Text {

  predicate IsDigit(c: char) { '0' <= c <= '9' }

  predicate AllDigits(s: string) { forall i :: 0 <= i < |s| ==> IsDigit(s[i]) }

  /** Python's `s.startswith(p)` and JavaScript's `s.startsWith(p)`. */
  predicate StartsWith(s: string, p: string) { |p| <= |s| && s[..|p|] == p }

  /** Python's `p in s` and JavaScript's `s.includes(p)`. */
  predicate Contains(s: string, p: string)
    decreases |s|
  {
    StartsWith(s, p) || (s != [] && Contains(s[1..], p))
  }

  /** Every character of `s` that is an ASCII digit, in order. */
  function DigitsOf(s: string): (r: string)
    ensures AllDigits(r) && |r| <= |s|
  {
    if s == [] then []
    else (if IsDigit(s[0]) then [s[0]] else []) + DigitsOf(s[1..])
  }

  lemma {:induction false} DigitsOfAppend(a: string, b: string)
    ensures DigitsOf(a + b) == DigitsOf(a) + DigitsOf(b)
  {
    if a == [] {
      assert a + b == b;
    } else {
      assert (a + b)[0] == a[0];
      assert (a + b)[1..] == a[1..] + b;
      DigitsOfAppend(a[1..], b);
    }
  }

  /** A string without digits contributes nothing. */
  lemma {:induction false} DigitsOfNone(s: string)
    requires forall i :: 0 <= i < |s| ==> !IsDigit(s[i])
    ensures DigitsOf(s) == []
  {
    if s != [] { DigitsOfNone(s[1..]); }
  }

  /** Removing the non-digits is the identity exactly on digit strings. */
  lemma {:induction false} DigitsOfIdentity(s: string)
    ensures DigitsOf(s) == s <==> AllDigits(s)
  {
    if s != [] {
      DigitsOfIdentity(s[1..]);
      if !IsDigit(s[0]) {
        assert |DigitsOf(s)| < |s| by { assert |DigitsOf(s[1..])| <= |s[1..]|; }
      }
    }
  }

  /** The characters of `s` that are not in `drop`, in order. */
  function RemoveChars(s: string, drop: set<char>): (r: string)
    ensures |r| <= |s|
    ensures forall i :: 0 <= i < |r| ==> r[i] !in drop
  {
    if s == [] then []
    else (if s[0] in drop then [] else [s[0]]) + RemoveChars(s[1..], drop)
  }

  /** `RemoveChars` keeps every character outside `drop`, in order: it is the identity on such strings. */
  lemma {:induction false} RemoveCharsKeeps(s: string, drop: set<char>)
    requires forall i :: 0 <= i < |s| ==> s[i] !in drop
    ensures RemoveChars(s, drop) == s
  {
    if s != [] { RemoveCharsKeeps(s[1..], drop); }
  }

  function LowerChar(c: char): (r: char)
    ensures 'A' <= c <= 'Z' ==> 'a' <= r <= 'z'
    ensures !('A' <= c <= 'Z') ==> r == c
  {
    if 'A' <= c <= 'Z' then (c - 'A' + 'a') as char else c
  }

  /** ASCII `str.lower()` / `toLowerCase()`: same length, no upper-case letter left. */
  function Lower(s: string): (r: string)
    ensures |r| == |s|
    ensures forall i :: 0 <= i < |s| ==> r[i] == LowerChar(s[i])
  {
    seq(|s|, i requires 0 <= i < |s| => LowerChar(s[i]))
  }

  /** Replaces every occurrence of the character `c` by `d` (a one-character `str.replace`). */
  function ReplaceChar(s: string, c: char, d: char): (r: string)
    ensures |r| == |s|
    ensures forall i :: 0 <= i < |s| ==> r[i] == if s[i] == c then d else s[i]
  {
    seq(|s|, i requires 0 <= i < |s| => if s[i] == c then d else s[i])
  }

  /** The ASCII characters JavaScript's `String.prototype.trim` removes. */
  predicate IsSpace(c: char) {
    c == ' ' || c == '\t' || c == '\n' || c == '\r' || c == '\U{000B}' || c == '\U{000C}'
  }

  /** The ASCII characters Python's `str.isspace()` accepts: those above and the separators U+001C..U+001F. */
  predicate IsPySpace(c: char) {
    IsSpace(c) || ('\U{001C}' <= c <= '\U{001F}')
  }

  /** Whitespace for `trim` (`python` false) or for `strip` (`python` true). */
  predicate Blank(c: char, python: bool) {
    if python then IsPySpace(c) else IsSpace(c)
  }

  function TrimStart(s: string, python: bool): (r: string)
    ensures |r| <= |s| && r == s[|s| - |r|..]
    ensures r != [] ==> !Blank(r[0], python)
  {
    if s != [] && Blank(s[0], python) then TrimStart(s[1..], python) else s
  }

  function TrimEnd(s: string, python: bool): (r: string)
    ensures |r| <= |s| && r == s[..|r|]
    ensures r != [] ==> !Blank(r[|r| - 1], python)
  {
    if s != [] && Blank(s[|s| - 1], python) then TrimEnd(s[..|s| - 1], python) else s
  }

  /** JavaScript's `s.trim()`: a slice of `s` with no space at either end. */
  function Trim(s: string): (r: string)
    ensures |r| <= |s|
    ensures r != [] ==> !IsSpace(r[0]) && !IsSpace(r[|r| - 1])
  {
    TrimEnd(TrimStart(s, false), false)
  }

  /** Python's `s.strip()`: a slice of `s` with no Python whitespace at either end. */
  function Strip(s: string): (r: string)
    ensures |r| <= |s|
    ensures r != [] ==> !IsPySpace(r[0]) && !IsPySpace(r[|r| - 1])
  {
    TrimEnd(TrimStart(s, true), true)
  }

  /** Does `s` hold a character that is not whitespace? */
  predicate HasNonBlank(s: string, python: bool) {
    s != [] && (!Blank(s[0], python) || HasNonBlank(s[1..], python))
  }

  lemma {:induction false} TrimStartEmpty(s: string, python: bool)
    ensures TrimStart(s, python) == [] <==> !HasNonBlank(s, python)
    decreases |s|
  {
    if s != [] {
      TrimStartEmpty(s[1..], python);
    }
  }

  lemma {:induction false} TrimEndKeepsFirst(s: string, python: bool)
    requires s != [] && !Blank(s[0], python)
    ensures TrimEnd(s, python) != []
    decreases |s|
  {
    if Blank(s[|s| - 1], python) {
      TrimEndKeepsFirst(s[..|s| - 1], python);
    }
  }

  /** `s.strip()` is truthy exactly when `s` has a character that is not whitespace. */
  lemma StripNonEmpty(s: string)
    ensures Strip(s) != "" <==> HasNonBlank(s, true)
  {
    TrimStartEmpty(s, true);
    var r := TrimStart(s, true);
    if r != [] {
      TrimEndKeepsFirst(r, true);
    }
  }

  /** The two differ on the ASCII separators: `strip` removes U+001F, `trim` keeps it. */
  lemma StripRemovesSeparators()
    ensures Strip("\U{001F}") == "" && Trim("\U{001F}") == "\U{001F}"
  {
    var s := "\U{001F}";
    assert Blank(s[0], true) && !Blank(s[0], false);
    assert TrimStart(s, true) == TrimStart(s[1..], true) == "";
    assert TrimStart(s, false) == s;
  }

  /** Number of occurrences of the character `c` in `s`. */
  function Count(s: string, c: char): nat {
    if s == [] then 0 else (if s[0] == c then 1 else 0) + Count(s[1..], c)
  }

  /**
   * Python's `s.replace(pat, rep)`: scans left to right and replaces each
   * non-overlapping occurrence of `pat`.
   */
  function ReplaceAll(s: string, pat: string, rep: string): string
    requires pat != []
    decreases |s|
  {
    if |s| < |pat| then s
    else if s[..|pat|] == pat then rep + ReplaceAll(s[|pat|..], pat, rep)
    else [s[0]] + ReplaceAll(s[1..], pat, rep)
  }

  /** Python's `s.split(sep)`: always at least one piece. */
  function Split(s: string, sep: string): (r: seq<string>)
    requires sep != []
    ensures |r| >= 1
    decreases |s|
  {
    if |s| < |sep| then [s]
    else if s[..|sep|] == sep then [[]] + Split(s[|sep|..], sep)
    else
      var rest := Split(s[1..], sep);
      [[s[0]] + rest[0]] + rest[1..]
  }

  /** Python's `sep.join(parts)` (and JavaScript's `parts.join(sep)`). */
  function Join(parts: seq<string>, sep: string): string {
    if parts == [] then []
    else if |parts| == 1 then parts[0]
    else parts[0] + sep + Join(parts[1..], sep)
  }

  lemma JoinConsChar(c: char, parts: seq<string>, sep: string)
    requires parts != []
    ensures Join([[c] + parts[0]] + parts[1..], sep) == [c] + Join(parts, sep)
  {
    var ps := [[c] + parts[0]] + parts[1..];
    assert ps[1..] == parts[1..];
  }

  /** Python's documented identity `s.replace(old, new) == new.join(s.split(old))`. */
  lemma {:induction false} ReplaceIsSplitJoin(s: string, pat: string, rep: string)
    requires pat != []
    ensures ReplaceAll(s, pat, rep) == Join(Split(s, pat), rep)
    decreases |s|
  {
    if |s| < |pat| {
    } else if s[..|pat|] == pat {
      ReplaceIsSplitJoin(s[|pat|..], pat, rep);
      var ps := [[]] + Split(s[|pat|..], pat);
      assert ps[1..] == Split(s[|pat|..], pat);
    } else {
      ReplaceIsSplitJoin(s[1..], pat, rep);
      JoinConsChar(s[0], Split(s[1..], pat), rep);
    }
  }

  /** Splitting on one character yields one piece more than there are occurrences of it. */
  lemma {:induction false} SplitCharCount(s: string, c: char)
    ensures |Split(s, [c])| == Count(s, c) + 1
    decreases |s|
  {
    if s != [] {
      SplitCharCount(s[1..], c);
      assert s[..1] == [s[0]];
    }
  }

  lemma {:induction false} SplitNoSep(x: string, c: char)
    requires c !in x
    ensures Split(x, [c]) == [x]
    decreases |x|
  {
    if x != [] {
      assert x[..1] == [x[0]];
      SplitNoSep(x[1..], c);
      assert [x[0]] + x[1..] == x;
    }
  }

  lemma {:induction false} SplitAtFirst(x: string, c: char, y: string)
    requires c !in x
    ensures Split(x + [c] + y, [c]) == [x] + Split(y, [c])
    decreases |x|
  {
    var s := x + [c] + y;
    if x == [] {
      assert s[..1] == [c];
      assert s[1..] == y;
    } else {
      assert s[..1] == [x[0]];
      assert s[1..] == x[1..] + [c] + y;
      SplitAtFirst(x[1..], c, y);
      assert [x[0]] + x[1..] == x;
    }
  }

  /**
   * Joining lines that hold no separator and splitting the result again
   * gives the same lines back.
   */
  lemma {:induction false} JoinSplitRoundTrip(parts: seq<string>, c: char)
    requires parts != []
    requires forall k :: 0 <= k < |parts| ==> c !in parts[k]
    ensures Split(Join(parts, [c]), [c]) == parts
    decreases |parts|
  {
    if |parts| == 1 {
      SplitNoSep(parts[0], c);
    } else {
      JoinSplitRoundTrip(parts[1..], c);
      SplitAtFirst(parts[0], c, Join(parts[1..], [c]));
      assert [parts[0]] + parts[1..] == parts;
    }
  }

  /** `Join` distributes over concatenation of non-empty part lists. */
  lemma {:induction false} JoinAppend(a: seq<string>, b: seq<string>, sep: string)
    requires a != [] && b != []
    ensures Join(a + b, sep) == Join(a, sep) + sep + Join(b, sep)
    decreases |a|
  {
    if |a| == 1 {
      assert (a + b)[1..] == b;
    } else {
      JoinAppend(a[1..], b, sep);
      assert (a + b)[1..] == a[1..] + b;
    }
  }

  /** Python's `s.replace(c, '')` for a single character removes exactly that character. */
  lemma {:induction false} ReplaceCharByNothing(s: string, c: char)
    ensures ReplaceAll(s, [c], []) == RemoveChars(s, {c})
    decreases |s|
  {
    if s != [] {
      assert s[..1] == [s[0]];
      ReplaceCharByNothing(s[1..], c);
    }
  }

  /** The decimal digit for `d`. */
  function DigitChar(d: nat): (c: char)
    requires d < 10
    ensures IsDigit(c)
  {
    ('0' as int + d) as char
  }

  /** Python's `str(n)` / f-string rendering of a non-negative integer. */
  function NatToString(n: nat): (r: string)
    ensures r != [] && AllDigits(r)
    ensures n < 10 <==> |r| == 1
  {
    if n < 10 then [DigitChar(n)] else NatToString(n / 10) + [DigitChar(n % 10)]
  }
}
