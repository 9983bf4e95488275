/**
 * Reading the marker file back: the marker is the first line of the file with
 * surrounding whitespace removed (readline followed by strip). A missing file
 * reads as the empty text.
 */
module MarkerStore {

  /** The characters Python's str.isspace accepts, which str.strip removes. */
  predicate IsSpace(c: char) {
    var n := c as int;
    (0x09 <= n <= 0x0D) || (0x1C <= n <= 0x20) || n == 0x85 || n == 0xA0 || n == 0x1680
    || (0x2000 <= n <= 0x200A) || n == 0x2028 || n == 0x2029 || n == 0x202F || n == 0x205F || n == 0x3000
  }

  /** The line ends readline recognises on a file opened in text mode. */
  predicate IsLineEnd(c: char) {
    c == '\n' || c == '\r'
  }

  /**
   * The first line of the text, without its line end. readline keeps the line
   * end, but it is whitespace that Strip removes next, so leaving it out here
   * gives the same marker (ReadLineStrip).
   */
  function FirstLine(s: string): (r: string)
    ensures |r| <= |s| && r == s[..|r|]
    ensures forall k :: 0 <= k < |r| ==> !IsLineEnd(r[k])
    ensures |r| < |s| ==> IsLineEnd(s[|r|])
  {
    if s == [] || IsLineEnd(s[0]) then [] else [s[0]] + FirstLine(s[1..])
  }

  /** Drops leading whitespace. */
  function TrimStart(s: string): (r: string)
    ensures |r| <= |s| && r == s[|s| - |r|..]
    ensures forall k :: 0 <= k < |s| - |r| ==> IsSpace(s[k])
    ensures r != [] ==> !IsSpace(r[0])
  {
    if s != [] && IsSpace(s[0]) then TrimStart(s[1..]) else s
  }

  /** Drops trailing whitespace. */
  function TrimEnd(s: string): (r: string)
    ensures |r| <= |s| && r == s[..|r|]
    ensures forall k :: |r| <= k < |s| ==> IsSpace(s[k])
    ensures r != [] ==> !IsSpace(r[|r| - 1])
  {
    if s != [] && IsSpace(s[|s| - 1]) then TrimEnd(s[..|s| - 1]) else s
  }

  /** str.strip() without arguments. */
  function Strip(s: string): (r: string)
    ensures |r| <= |s|
    ensures r != [] ==> !IsSpace(r[0]) && !IsSpace(r[|r| - 1])
    ensures s == [] || (!IsSpace(s[0]) && !IsSpace(s[|s| - 1])) ==> r == s
  {
    TrimEnd(TrimStart(s))
  }

  /**
   * Strip removes only whitespace, and only from the two ends: the result is the
   * slice of the input between the cut points `i` and `j`.
   */
  lemma StripRemovesOnlySpace(s: string) returns (i: nat, j: nat)
    ensures i <= j <= |s| && Strip(s) == s[i..j]
    ensures forall k :: 0 <= k < i ==> IsSpace(s[k])
    ensures forall k :: j <= k < |s| ==> IsSpace(s[k])
  {
    i := TrimStartCut(s);
    var t := s[i..];
    var n := TrimEndCut(t);
    j := i + n;
    SliceFacts(s, t, n, i, j);
    assert Strip(s) == t[..n];
  }

  /** The leading trim cuts the text at `i`, with only whitespace before it. */
  lemma TrimStartCut(s: string) returns (i: nat)
    ensures i <= |s| && TrimStart(s) == s[i..]
    ensures forall k :: 0 <= k < i ==> IsSpace(s[k])
  {
    i := |s| - |TrimStart(s)|;
  }

  /** The trailing trim cuts the text at `n`, with only whitespace after it. */
  lemma TrimEndCut(t: string) returns (n: nat)
    ensures n <= |t| && TrimEnd(t) == t[..n]
    ensures forall k :: n <= k < |t| ==> IsSpace(t[k])
  {
    n := |TrimEnd(t)|;
  }

  /**
   * `t` is the suffix of `s` from `i`, and its first `n` characters are followed
   * only by whitespace: they are the slice of `s` from `i` to `j = i + n`, followed
   * in `s` only by whitespace.
   */
  lemma SliceFacts(s: string, t: string, n: nat, i: nat, j: nat)
    requires i <= |s| && t == s[i..] && n <= |t| && j == i + n
    requires forall k :: n <= k < |t| ==> IsSpace(t[k])
    ensures j <= |s| && t[..n] == s[i..j]
    ensures forall k :: j <= k < |s| ==> IsSpace(s[k])
  {
    forall k | j <= k < |s| ensures IsSpace(s[k]) {
      assert s[k] == t[k - i];
    }
  }

  lemma {:induction false} TrimStartSnoc(t: string, c: char)
    requires IsSpace(c)
    ensures TrimStart(t + [c]) == if TrimStart(t) == [] then [] else TrimStart(t) + [c]
  {
    if t == [] {
      assert [] + [c] == [c];
      assert [c][1..] == [];
    } else {
      assert (t + [c])[0] == t[0];
      assert (t + [c])[1..] == t[1..] + [c];
      if IsSpace(t[0]) {
        TrimStartSnoc(t[1..], c);
      }
    }
  }

  lemma TrimEndSnoc(u: string, c: char)
    requires IsSpace(c)
    ensures TrimEnd(u + [c]) == TrimEnd(u)
  {
    assert (u + [c])[..|u|] == u;
  }

  /** Whitespace appended at the end does not change the stripped text. */
  lemma StripSnocSpace(t: string, c: char)
    requires IsSpace(c)
    ensures Strip(t + [c]) == Strip(t)
  {
    TrimStartSnoc(t, c);
    if TrimStart(t) != [] {
      TrimEndSnoc(TrimStart(t), c);
    }
  }

  /**
   * readline on a file opened in text mode: the first line, followed by '\n'
   * when the text has a line end. Universal newlines turn '\r', '\n' and
   * "\r\n" alike into '\n'.
   */
  function ReadLine(s: string): (r: string)
    ensures |FirstLine(s)| < |s| ==> r == FirstLine(s) + ['\n']
    ensures |FirstLine(s)| == |s| ==> r == s
  {
    var f := FirstLine(s);
    if |f| < |s| then f + ['\n'] else s
  }

  /** Stripping what readline returns gives the same marker as stripping the line without its end. */
  lemma ReadLineStrip(s: string)
    ensures Strip(ReadLine(s)) == ReadMarker(s)
  {
    var f := FirstLine(s);
    if |f| < |s| {
      StripSnocSpace(f, '\n');
    } else {
      assert f == s[..|s|] == s;
    }
  }

  /** The marker the processor compares leg ids with, for the given file text. */
  function ReadMarker(content: string): string {
    Strip(FirstLine(content))
  }

  /** A leg id that survives being written to the marker file and read back. */
  predicate Clean(id: string) {
    (forall k :: 0 <= k < |id| ==> !IsLineEnd(id[k]))
    && (id != [] ==> !IsSpace(id[0]) && !IsSpace(id[|id| - 1]))
  }

  lemma ReadMarkerClean(id: string)
    requires Clean(id)
    ensures ReadMarker(id) == id
  {
  }
}
