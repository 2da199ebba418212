/** The string operations the source takes from JavaScript: `trim`,
    `toLowerCase`, `includes`, `startsWith`, `join` and `split("@")[0]`. */
module Text {

  /** The characters `String.prototype.trim` strips: ECMAScript's
      WhiteSpace (tab, vertical tab, form feed, space, no-break space,
      byte-order mark and the Unicode space separators) and its
      LineTerminator (line feed, carriage return, line and paragraph
      separators). */
  predicate IsSpace(c: char)
  {
    var n := c as int;
    n == 0x09 || n == 0x0A || n == 0x0B || n == 0x0C || n == 0x0D ||
    n == 0x20 || n == 0xA0 || n == 0x1680 || (0x2000 <= n <= 0x200A) ||
    n == 0x2028 || n == 0x2029 || n == 0x202F || n == 0x205F ||
    n == 0x3000 || n == 0xFEFF
  }

  predicate AllSpace(s: string)
  {
    forall k :: 0 <= k < |s| ==> IsSpace(s[k])
  }

  /** The number of whitespace characters `s` starts with. */
  function LeadingSpaces(s: string): (n: nat)
    ensures n <= |s|
    ensures forall k :: 0 <= k < n ==> IsSpace(s[k])
    ensures n < |s| ==> !IsSpace(s[n])
  {
    if s == [] || !IsSpace(s[0]) then 0 else 1 + LeadingSpaces(s[1..])
  }

  /** The number of whitespace characters `s` ends with. */
  function TrailingSpaces(s: string): (n: nat)
    ensures n <= |s|
    ensures forall k :: |s| - n <= k < |s| ==> IsSpace(s[k])
    ensures n < |s| ==> !IsSpace(s[|s| - 1 - n])
  {
    if s == [] || !IsSpace(s[|s| - 1]) then 0 else 1 + TrailingSpaces(s[..|s| - 1])
  }

  /** `s.trim()` */
  function Trim(s: string): (r: string)
    ensures |r| <= |s|
    ensures r == [] <==> AllSpace(s)
    ensures r != [] ==> !IsSpace(r[0]) && !IsSpace(r[|r| - 1])
  {
    var a := LeadingSpaces(s);
    if a == |s| then []
    else
      var b := TrailingSpaces(s);
      s[a..|s| - b]
  }

  /** Empty after trimming: the `!x.trim()` test of the source. */
  predicate IsBlank(s: string)
  {
    Trim(s) == []
  }

  /** Trimming removes only surrounding whitespace: `s` is the trimmed
      string with blanks before and after it. */
  lemma TrimIsInfix(s: string)
    ensures exists a, b ::
      0 <= a <= b <= |s| && s[a..b] == Trim(s) && AllSpace(s[..a]) && AllSpace(s[b..])
  {
    var a := LeadingSpaces(s);
    if a == |s| {
      assert s[a..a] == Trim(s) && AllSpace(s[..a]) && AllSpace(s[a..]);
    } else {
      var b := |s| - TrailingSpaces(s);
      assert s[a..b] == Trim(s);
      assert AllSpace(s[..a]) && AllSpace(s[b..]);
    }
  }

  /** A string without surrounding whitespace trims to itself. */
  lemma TrimNoSurroundingSpace(s: string)
    requires s != [] ==> !IsSpace(s[0]) && !IsSpace(s[|s| - 1])
    ensures Trim(s) == s
  {
    if s != [] {
      assert LeadingSpaces(s) == 0;
      assert TrailingSpaces(s) == 0;
    }
  }

  /** Trimming twice is trimming once. */
  lemma TrimIdempotent(s: string)
    ensures Trim(Trim(s)) == Trim(s)
  {
    TrimNoSurroundingSpace(Trim(s));
  }

  /** Blanks in front of a string that does not start with one are
      exactly its leading whitespace. */
  lemma {:induction false} LeadingSpacesPadded(a: string, t: string)
    requires AllSpace(a) && t != [] && !IsSpace(t[0])
    ensures LeadingSpaces(a + t) == |a|
  {
    if a != [] {
      assert (a + t)[1..] == a[1..] + t;
      LeadingSpacesPadded(a[1..], t);
    }
  }

  /** Blanks after a string that does not end with one are exactly its
      trailing whitespace. */
  lemma {:induction false} TrailingSpacesPadded(t: string, b: string)
    requires AllSpace(b) && t != [] && !IsSpace(t[|t| - 1])
    ensures TrailingSpaces(t + b) == |b|
  {
    if b != [] {
      assert (t + b)[..|t + b| - 1] == t + b[..|b| - 1];
      TrailingSpacesPadded(t, b[..|b| - 1]);
    }
  }

  /** Trimming a string padded with blanks on both sides gives it back. */
  lemma TrimPadded(a: string, s: string, b: string)
    requires AllSpace(a) && AllSpace(b)
    requires s != [] && !IsSpace(s[0]) && !IsSpace(s[|s| - 1])
    ensures Trim(a + s + b) == s
  {
    LeadingSpacesPadded(a, s + b);
    TrailingSpacesPadded(a + s, b);
    assert (a + s + b)[|a|..|a + s + b| - |b|] == s;
  }

  /** `c.toLowerCase()` for the basic Latin and Latin-1 letters: A-Z and
      the accented capitals U+00C0-U+00DE except the multiplication sign. */
  function LowerChar(c: char): (r: char)
    ensures ('A' <= c <= 'Z') ==> r as int == c as int + 32
    ensures !('A' <= c <= 'Z') && !(0xC0 <= c as int <= 0xDE && c as int != 0xD7) ==> r == c
  {
    if 'A' <= c <= 'Z' || (0xC0 <= c as int <= 0xDE && c as int != 0xD7)
    then (c as int + 32) as char
    else c
  }

  /** `s.toLowerCase()`, character by character. */
  function Lower(s: string): (r: string)
    ensures |r| == |s|
    ensures forall k :: 0 <= k < |s| ==> r[k] == LowerChar(s[k])
  {
    if s == [] then [] else [LowerChar(s[0])] + Lower(s[1..])
  }

  /** `s.startsWith(p)` */
  predicate StartsWith(s: string, p: string)
  {
    |p| <= |s| && s[..|p|] == p
  }

  /** `needle` occurs in `hay` starting at position `k`. */
  predicate OccursAt(hay: string, needle: string, k: nat)
  {
    k + |needle| <= |hay| && hay[k..k + |needle|] == needle
  }

  /** `hay.includes(needle)`, computed by trying each start position. */
  function Contains(hay: string, needle: string): (b: bool)
    ensures b <==> exists k: nat :: OccursAt(hay, needle, k)
  {
    if StartsWith(hay, needle) then
      assert OccursAt(hay, needle, 0);
      true
    else if hay == [] then
      assert forall k: nat :: !OccursAt(hay, needle, k);
      false
    else
      var b := Contains(hay[1..], needle);
      if b then
        var k: nat :| OccursAt(hay[1..], needle, k);
        assert hay[k + 1..k + 1 + |needle|] == hay[1..][k..k + |needle|];
        assert OccursAt(hay, needle, k + 1);
        true
      else
        assert forall k: nat :: !OccursAt(hay, needle, k) by {
          forall k: nat ensures !OccursAt(hay, needle, k) {
            if k > 0 && k + |needle| <= |hay| {
              assert hay[k..k + |needle|] == hay[1..][k - 1..k - 1 + |needle|];
              assert !OccursAt(hay[1..], needle, k - 1);
            }
          }
        }
        false
  }

  /** `parts.join(sep)` */
  function Join(parts: seq<string>, sep: string): string
  {
    if parts == [] then []
    else if |parts| == 1 then parts[0]
    else parts[0] + sep + Join(parts[1..], sep)
  }

  /** `s.split("@")[0]`: everything before the first '@', or all of `s`. */
  function BeforeAt(s: string): (r: string)
    ensures r <= s
    ensures '@' !in r
    ensures |r| < |s| ==> s[|r|] == '@'
  {
    if s == [] || s[0] == '@' then [] else [s[0]] + BeforeAt(s[1..])
  }

  /** `s.slice(0, n)` */
  function Prefix(s: string, n: nat): (r: string)
    ensures r <= s
    ensures |r| == if |s| < n then |s| else n
  {
    if |s| < n then s else s[..n]
  }
}
