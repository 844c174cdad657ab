/**
 * The JavaScript string operations used to derive avatar initials:
 * the white-space class shared by `String.prototype.trim` and the regular
 * expression `\s`, an ASCII `toUpperCase`, `slice(0, n)`, `trim()` and
 * `split(/\s+/)`.
 */
module JsString {

  /**
   * ECMAScript white space: the WhiteSpace code points (tab, vertical tab,
   * form feed, the byte order mark and the space separators) and the
   * LineTerminator code points. `trim()` and `\s` use this same set.
   */
  predicate IsSpace(c: char)
    ensures IsSpace(c) ==> c as int < 0x1_0000
    ensures IsSpace(c) ==> !('a' <= c <= 'z' || 'A' <= c <= 'Z' || '0' <= c <= '9')
  {
    || c == '\t' || c == '\n' || c == '\U{B}' || c == '\U{C}' || c == '\r'
    || c == ' ' || c == '\U{A0}' || c == '\U{1680}'
    || ('\U{2000}' <= c <= '\U{200A}')
    || c == '\U{2028}' || c == '\U{2029}' || c == '\U{202F}' || c == '\U{205F}'
    || c == '\U{3000}' || c == '\U{FEFF}'
  }

  /** True when some character of `s` is white space. */
  predicate HasSpace(s: string) {
    exists i :: 0 <= i < |s| && IsSpace(s[i])
  }

  /** Neither the first nor the last character of `s` is white space. */
  predicate NoEdgeSpace(s: string) {
    s == [] || (!IsSpace(s[0]) && !IsSpace(s[|s| - 1]))
  }

  /** Upper-cases one character; only the ASCII letters a-z change. */
  function ToUpperChar(c: char): (u: char)
    ensures 'a' <= c <= 'z' ==> u as int == c as int - 32
    ensures !('a' <= c <= 'z') ==> u == c
    ensures IsSpace(c) ==> u == c
  {
    if 'a' <= c <= 'z' then (c as int - 32) as char else c
  }

  /** `s.toUpperCase()`, character by character. */
  function ToUpperCase(s: string): (r: string)
    ensures |r| == |s|
    ensures forall i :: 0 <= i < |s| ==> r[i] == ToUpperChar(s[i])
  {
    seq(|s|, i requires 0 <= i < |s| => ToUpperChar(s[i]))
  }

  /** Upper-casing a two-character string upper-cases each character. */
  lemma ToUpperCasePair(a: char, b: char)
    ensures ToUpperCase([a, b]) == [ToUpperChar(a), ToUpperChar(b)]
  {
  }

  /** `s.slice(0, n)`: the first `n` characters, or all of `s` if it is shorter. */
  function Prefix(s: string, n: nat): (r: string)
    ensures |r| == if |s| < n then |s| else n
    ensures r <= s
  {
    if |s| <= n then s else s[..n]
  }

  /** The first index at or after `i` that is not white space, or `|s|`. */
  function SpaceEnd(s: string, i: nat): (j: nat)
    requires i <= |s|
    ensures i <= j <= |s|
    ensures forall k :: i <= k < j ==> IsSpace(s[k])
    ensures j < |s| ==> !IsSpace(s[j])
    decreases |s| - i
  {
    if i == |s| || !IsSpace(s[i]) then i else SpaceEnd(s, i + 1)
  }

  /** The first index at or after `i` that is white space, or `|s|`. */
  function WordEnd(s: string, i: nat): (j: nat)
    requires i <= |s|
    ensures i <= j <= |s|
    ensures forall k :: i <= k < j ==> !IsSpace(s[k])
    ensures j < |s| ==> IsSpace(s[j])
    decreases |s| - i
  {
    if i == |s| || IsSpace(s[i]) then i else WordEnd(s, i + 1)
  }

  /**
   * Walking down from `j` but not below `lo`, the start of the run of white
   * space that ends at `j`.
   */
  function SpaceStart(s: string, lo: nat, j: nat): (b: nat)
    requires lo <= j <= |s|
    ensures lo <= b <= j
    ensures forall k :: b <= k < j ==> IsSpace(s[k])
    ensures b > lo ==> !IsSpace(s[b - 1])
    decreases j - lo
  {
    if j == lo || !IsSpace(s[j - 1]) then j else SpaceStart(s, lo, j - 1)
  }

  /**
   * `r` is what remains of `s` once white space is removed at both ends,
   * starting at index `i` of `s`.
   */
  predicate TrimmedAt(s: string, r: string, i: int) {
    && 0 <= i <= |s| - |r|
    && r == s[i..i + |r|]
    && (forall j :: 0 <= j < i ==> IsSpace(s[j]))
    && (forall j :: i + |r| <= j < |s| ==> IsSpace(s[j]))
  }

  /**
   * `s.trim()`: the infix of `s` left after removing white space at both
   * ends; every removed character is white space and the result has none
   * at its edges.
   */
  function Trim(s: string): (r: string)
    ensures exists i :: TrimmedAt(s, r, i)
    ensures NoEdgeSpace(r)
  {
    var a := SpaceEnd(s, 0);
    var b := SpaceStart(s, a, |s|);
    assert TrimmedAt(s, s[a..b], a);
    s[a..b]
  }

  /**
   * The pieces of `s` from index `i` on, between maximal runs of white space;
   * a run at the very end leaves an empty last piece.
   */
  function SplitFrom(s: string, i: nat): (parts: seq<string>)
    requires i <= |s|
    ensures |parts| >= 1
    decreases |s| - i
  {
    var j := WordEnd(s, i);
    if j == |s| then [s[i..]]
    else [s[i..j]] + SplitFrom(s, SpaceEnd(s, j))
  }

  /**
   * `s.split(/\s+/)`: the pieces of `s` between maximal runs of white space.
   * As in JavaScript, leading or trailing white space yields an empty first
   * or last piece, and `""` splits into `[""]`.
   */
  function Split(s: string): (parts: seq<string>)
    ensures |parts| >= 1
    ensures parts[0] == s[..WordEnd(s, 0)]
  {
    SplitFrom(s, 0)
  }

  /** The index just after the last white-space character of `s`, or 0 if there is none. */
  function LastWordStart(s: string): (k: nat)
    ensures k <= |s|
    ensures forall j :: k <= j < |s| ==> !IsSpace(s[j])
    ensures k > 0 ==> IsSpace(s[k - 1])
  {
    WordStart(s, |s|)
  }

  /** Walking down from `j`, the start of the white-space-free run that ends at `j`. */
  function WordStart(s: string, j: nat): (b: nat)
    requires j <= |s|
    ensures b <= j
    ensures forall k :: b <= k < j ==> !IsSpace(s[k])
    ensures b > 0 ==> IsSpace(s[b - 1])
  {
    if j == 0 || IsSpace(s[j - 1]) then j else WordStart(s, j - 1)
  }

  /** The two clauses of LastWordStart's contract determine it. */
  lemma LastWordStartUnique(s: string, k: nat)
    requires k <= |s|
    requires forall j :: k <= j < |s| ==> !IsSpace(s[j])
    requires k > 0 ==> IsSpace(s[k - 1])
    ensures LastWordStart(s) == k
  {
  }

  /** A string splits into at least two pieces exactly when it contains white space. */
  lemma SplitCount(s: string)
    ensures |Split(s)| >= 2 <==> HasSpace(s)
  {
    if WordEnd(s, 0) < |s| {
      assert IsSpace(s[WordEnd(s, 0)]);
    }
  }

  /** The first piece of a split starts with the first character of a string that does not start with white space. */
  lemma SplitFirst(s: string)
    requires s != [] && !IsSpace(s[0])
    ensures Split(s)[0] != [] && Split(s)[0][0] == s[0]
  {
  }

  /**
   * The last piece of the split from `i` starts at the last white space's
   * successor, or at `i` when no white space follows `i`.
   */
  lemma {:induction false} SplitFromLast(s: string, i: nat)
    requires i <= |s|
    ensures var parts := SplitFrom(s, i);
            parts[|parts| - 1] == s[if LastWordStart(s) < i then i else LastWordStart(s)..]
    decreases |s| - i
  {
    var j := WordEnd(s, i);
    var n := LastWordStart(s);
    if j < |s| {
      var k := SpaceEnd(s, j);
      SplitFromLast(s, k);
      var rest := SplitFrom(s, k);
      assert SplitFrom(s, i) == [s[i..j]] + rest;
      assert IsSpace(s[k - 1]);
      assert n >= k;
    }
  }

  /** The last piece of a split is the suffix after the last white-space character. */
  lemma SplitLast(s: string)
    ensures Split(s)[|Split(s)| - 1] == s[LastWordStart(s)..]
  {
    SplitFromLast(s, 0);
  }

  /**
   * Splitting from a position that does not hold white space, in a string
   * that does not end with white space, gives non-empty pieces only.
   */
  lemma {:induction false} SplitFromPiecesNonEmpty(s: string, i: nat)
    requires i < |s| && !IsSpace(s[i]) && !IsSpace(s[|s| - 1])
    ensures forall p :: p in SplitFrom(s, i) ==> p != []
    decreases |s| - i
  {
    var j := WordEnd(s, i);
    if j < |s| {
      var k := SpaceEnd(s, j);
      assert k < |s|;
      SplitFromPiecesNonEmpty(s, k);
      assert SplitFrom(s, i) == [s[i..j]] + SplitFrom(s, k);
    }
  }

  /** Every piece of a non-empty string without edge white space is non-empty. */
  lemma SplitPiecesNonEmpty(s: string)
    requires s != [] && NoEdgeSpace(s)
    ensures forall k :: 0 <= k < |Split(s)| ==> Split(s)[k] != []
  {
    SplitFromPiecesNonEmpty(s, 0);
    forall k | 0 <= k < |Split(s)| ensures Split(s)[k] != [] {
      assert Split(s)[k] in Split(s);
    }
  }
}
