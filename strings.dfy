/** The JavaScript string operations the relay relies on, over `seq<char>`:
    `String.prototype.split` and `Array.prototype.join` with a non-empty
    separator, `trim`, `startsWith`, and `replace` with a string pattern. */
module Strings {
  import opened Wrappers

  /** `d` occurs in `s` starting at index `i`. */
  predicate OccursAt(s: string, d: string, i: nat) {
    i + |d| <= |s| && s[i..i + |d|] == d
  }

  /** `s` contains no occurrence of `d`. */
  predicate Free(s: string, d: string) {
    forall i: nat | i <= |s| :: !OccursAt(s, d, i)
  }

  lemma OccursShift(s: string, d: string)
    requires |s| > 0
    ensures forall j: nat :: 1 <= j ==> (OccursAt(s, d, j) <==> OccursAt(s[1..], d, j - 1))
    ensures forall j: nat :: OccursAt(s[1..], d, j) ==> OccursAt(s, d, j + 1)
  {
    forall j: nat ensures OccursAt(s, d, j + 1) <==> OccursAt(s[1..], d, j) {
      if j + 1 + |d| <= |s| {
        assert s[1..][j..j + |d|] == s[j + 1..j + 1 + |d|];
      }
    }
  }

  /** `indexOf`: the position of the first occurrence of `d` in `s`. */
  function IndexOf(s: string, d: string): (r: Option<nat>)
    requires d != []
    ensures r.Some? ==> OccursAt(s, d, r.value) && forall j: nat :: j < r.value ==> !OccursAt(s, d, j)
    ensures r.None? ==> Free(s, d)
    decreases |s|
  {
    if |s| < |d| then None
    else if s[..|d|] == d then Some(0)
    else
      OccursShift(s, d);
      assert !OccursAt(s, d, 0);
      match IndexOf(s[1..], d)
      case None => None
      case Some(i) => Some(i + 1)
  }

  /** The first occurrence is unique: whatever satisfies IndexOf's
      contract is its result. */
  lemma IndexOfIs(s: string, d: string, i: nat)
    requires d != []
    requires OccursAt(s, d, i)
    requires forall j: nat :: j < i ==> !OccursAt(s, d, j)
    ensures IndexOf(s, d) == Some(i)
  {
  }

  /** The first occurrence of `d` in `x` is also the first one in `x + c`. */
  lemma IndexOfAppend(x: string, c: string, d: string)
    requires d != [] && IndexOf(x, d).Some?
    ensures IndexOf(x + c, d) == IndexOf(x, d)
  {
    var i := IndexOf(x, d).value;
    assert (x + c)[i..i + |d|] == x[i..i + |d|];
    forall j: nat | j < i ensures !OccursAt(x + c, d, j) {
      assert (x + c)[j..j + |d|] == x[j..j + |d|];
      assert !OccursAt(x, d, j);
    }
    IndexOfIs(x + c, d, i);
  }

  /** `parts.join(d)`. */
  function Join(parts: seq<string>, d: string): string
    decreases |parts|
  {
    if |parts| == 0 then ""
    else if |parts| == 1 then parts[0]
    else parts[0] + d + Join(parts[1..], d)
  }

  /** `s.split(d)` for a non-empty separator: the pieces between successive
      leftmost, non-overlapping occurrences of `d`. There is always at least
      one piece. */
  function Split(s: string, d: string): (r: seq<string>)
    requires d != []
    ensures |r| >= 1
    decreases |s|
  {
    match IndexOf(s, d)
    case None => [s]
    case Some(i) => [s[..i]] + Split(s[i + |d|..], d)
  }

  /** No piece of a split contains the separator, and joining the pieces
      with the separator gives the text back. */
  lemma {:induction false} SplitPieces(s: string, d: string)
    requires d != []
    ensures AllFree(Split(s, d), d)
    ensures Join(Split(s, d), d) == s
    decreases |s|
  {
    if IndexOf(s, d).None? {
      SplitNone(s, d);
      assert Free(s, d);
    } else {
      var i := IndexOf(s, d).value;
      var head, rest := s[..i], s[i + |d|..];
      SplitAt(s, d, i);
      PrefixFree(s, d, i);
      SplitPieces(rest, d);
      JoinCons(head, Split(rest, d), d);
      FreeCons(head, Split(rest, d), d);
      assert s == head + d + rest;
    }
  }

  /** Every piece is free of the separator. */
  predicate AllFree(parts: seq<string>, d: string) {
    forall k :: 0 <= k < |parts| ==> Free(parts[k], d)
  }

  lemma JoinCons(a: string, r: seq<string>, d: string)
    requires |r| >= 1
    ensures Join([a] + r, d) == a + d + Join(r, d)
  {
    assert ([a] + r)[1..] == r;
  }

  lemma FreeCons(a: string, r: seq<string>, d: string)
    requires Free(a, d) && AllFree(r, d)
    ensures AllFree([a] + r, d)
  {
    forall k | 0 <= k < |[a] + r| ensures Free(([a] + r)[k], d) {
      if k > 0 {
        assert ([a] + r)[k] == r[k - 1];
      }
    }
  }

  lemma SplitEmpty(d: string)
    requires d != []
    ensures Split("", d) == [""]
  {
    assert IndexOf("", d) == None;
  }

  /** The text before the first occurrence of `d` does not contain `d`. */
  lemma PrefixFree(s: string, d: string, i: nat)
    requires d != [] && IndexOf(s, d) == Some(i)
    ensures Free(s[..i], d)
  {
    forall j: nat ensures !OccursAt(s[..i], d, j) {
      if j + |d| <= i {
        assert s[..i][j..j + |d|] == s[j..j + |d|];
        assert !OccursAt(s, d, j);
      }
    }
  }

  /** All elements but the last: the complete units after a split. */
  function DropLast<T>(s: seq<T>): seq<T>
    requires |s| > 0
  {
    s[..|s| - 1]
  }

  /** The last element: the pending, possibly partial, unit after a split. */
  function Last<T>(s: seq<T>): T
    requires |s| > 0
  {
    s[|s| - 1]
  }

  /** Appending to a non-empty sequence keeps its last element at the end. */
  lemma DropLastAppend<T>(a: seq<T>, b: seq<T>)
    requires |b| > 0
    ensures DropLast(a + b) == a + DropLast(b) && Last(a + b) == Last(b)
  {
  }

  lemma Halves<T>(s: seq<T>, k: nat)
    requires k <= |s|
    ensures s[..k] + s[k..] == s
  {
  }

  lemma Assoc<T>(a: seq<T>, b: seq<T>, c: seq<T>)
    ensures a + (b + c) == (a + b) + c
  {
  }

  /** Splitting at the first separator, `s[..i]`, then the split of the rest. */
  lemma SplitAt(s: string, d: string, i: nat)
    requires d != [] && IndexOf(s, d) == Some(i)
    ensures Split(s, d) == [s[..i]] + Split(s[i + |d|..], d)
  {
  }

  /** A string in which the separator does not occur is one piece. */
  lemma SplitNone(s: string, d: string)
    requires d != [] && IndexOf(s, d) == None
    ensures Split(s, d) == [s]
  {
  }

  /** A text whose only delimiter is the one that ends it splits into
      that text and an empty pending piece. */
  lemma SplitTerminated(p: string, d: string)
    requires d != [] && IndexOf(p + d, d) == Some(|p|)
    ensures Split(p + d, d) == [p, ""]
  {
    var x := p + d;
    SplitAt(x, d, |p|);
    assert x[..|p|] == p;
    assert x[|p| + |d|..] == "";
    SplitEmpty(d);
  }

  /** Splitting is incremental: appending `c` to `x` neither moves nor
      removes the separators already found in `x`; only the last piece of
      `x`, extended by `c`, is split again. */
  lemma {:induction false} SplitAppend(x: string, c: string, d: string)
    requires d != []
    ensures Split(x + c, d) == DropLast(Split(x, d)) + Split(Last(Split(x, d)) + c, d)
    decreases |x|
  {
    if IndexOf(x, d).None? {
      SplitNone(x, d);
      assert DropLast([x]) == [] && Last([x]) == x;
    } else {
      var i := IndexOf(x, d).value;
      IndexOfAppend(x, c, d);
      var head, tail := x[..i], x[i + |d|..];
      assert (x + c)[i + |d|..] == tail + c;
      assert (x + c)[..i] == head;
      SplitAt(x, d, i);
      SplitAt(x + c, d, i);
      var rx := Split(tail, d);
      SplitAppend(tail, c, d);
      DropLastAppend([head], rx);
      Assoc([head], DropLast(rx), Split(Last(rx) + c, d));
    }
  }

  /** A string without the separator is a single piece. */
  lemma SplitFree(s: string, d: string)
    requires d != [] && Free(s, d)
    ensures Split(s, d) == [s]
  {
  }

  /** The complete units of `s`: every piece of the split but the last, each
      of which was followed by a separator. */
  function Complete(s: string, d: string): seq<string>
    requires d != []
  {
    DropLast(Split(s, d))
  }

  /** The pending unit of `s`: the text after the last separator. */
  function Pending(s: string, d: string): string
    requires d != []
  {
    Last(Split(s, d))
  }

  /** One step of an incremental splitter, `buffer += chunk; units =
      buffer.split(d); buffer = units.pop() || ""`: the new buffer holds no
      separator, nor does any unit, and the units followed by the new buffer,
      joined by the separator, are exactly the old buffer plus the chunk. */
  function Reframe(buffer: string, chunk: string, d: string): (r: (seq<string>, string))
    requires d != []
    ensures Free(r.1, d) && AllFree(r.0, d)
    ensures Join(r.0 + [r.1], d) == buffer + chunk
  {
    var parts := Split(buffer + chunk, d);
    SplitPieces(buffer + chunk, d);
    assert parts == DropLast(parts) + [Last(parts)];
    assert Free(parts[|parts| - 1], d);
    (DropLast(parts), Last(parts))
  }

  /** Splitting is insensitive to where the text was cut: the complete
      units of `x + c` are those of `x` followed by those that appear once
      the pending unit of `x` is extended by `c`, and the pending unit is
      the one left over from that. */
  lemma CompleteAppend(x: string, c: string, d: string)
    requires d != []
    ensures Complete(x + c, d) == Complete(x, d) + Complete(Pending(x, d) + c, d)
    ensures Pending(x + c, d) == Pending(Pending(x, d) + c, d)
  {
    SplitAppend(x, c, d);
    var a, b := DropLast(Split(x, d)), Split(Pending(x, d) + c, d);
    assert DropLast(a + b) == a + DropLast(b);
    assert Last(a + b) == Last(b);
  }

  /** Text that adds no separator to the pending unit completes no unit:
      an unterminated tail is never processed. */
  lemma CompleteUnterminated(x: string, t: string, d: string)
    requires d != [] && Free(Pending(x, d) + t, d)
    ensures Complete(x + t, d) == Complete(x, d)
    ensures Pending(x + t, d) == Pending(x, d) + t
  {
    CompleteAppend(x, t, d);
    SplitFree(Pending(x, d) + t, d);
    assert Complete(x, d) + [] == Complete(x, d);
  }

  /** With a single-character separator, a tail without that character
      appended to a pending unit keeps it free of the separator. */
  lemma FreeCharAppend(x: string, t: string, c: char)
    requires Free(x, [c]) && c !in t
    ensures Free(x + t, [c])
  {
    FreeChar(x, c);
    FreeChar(x + t, c);
    assert forall i :: 0 <= i < |x + t| ==> (x + t)[i] == if i < |x| then x[i] else t[i - |x|];
  }

  /** Pieces of a split on the empty text. */
  lemma PendingEmpty(d: string)
    requires d != []
    ensures Complete("", d) == [] && Pending("", d) == ""
  {
    SplitEmpty(d);
  }

  /** A piece without the (one-character) separator, followed by the
      separator, is the first piece of the split. */
  lemma SplitCons(a: string, c: char, rest: string)
    requires c !in a
    ensures Split(a + [c] + rest, [c]) == [a] + Split(rest, [c])
  {
    var x := a + [c] + rest;
    assert x[|a|..|a| + 1] == [c];
    forall j: nat | j < |a| ensures !OccursAt(x, [c], j) {
      assert x[j..j + 1][0] == x[j] == a[j];
    }
    IndexOfIs(x, [c], |a|);
    assert x[..|a|] == a && x[|a| + 1..] == rest;
  }

  /** The text delivered so far, as the concatenation of its chunks. */
  function Concat(chunks: seq<string>): string
    decreases |chunks|
  {
    if chunks == [] then "" else Concat(DropLast(chunks)) + Last(chunks)
  }

  lemma {:induction false} ConcatAppend(a: seq<string>, b: seq<string>)
    ensures Concat(a + b) == Concat(a) + Concat(b)
    decreases |b|
  {
    if b == [] {
      assert a + b == a;
    } else {
      DropLastAppend(a, b);
      ConcatAppend(a, DropLast(b));
      Assoc(Concat(a), Concat(DropLast(b)), Last(b));
    }
  }

  lemma ConcatPair(x: string, y: string)
    ensures Concat([x, y]) == x + y
  {
    assert DropLast([x, y]) == [x] && Last([x, y]) == y;
    assert DropLast([x]) == [] && Last([x]) == x;
    assert Concat([x]) == Concat([]) + x;
    assert Concat([]) == [];
    assert [] + x == x;
  }

  /** The characters `String.prototype.trim` removes: ECMAScript's
      WhiteSpace and LineTerminator code points. */
  predicate IsWhite(c: char) {
    || c == '\t' || c == '\n' || c == '\U{000B}' || c == '\U{000C}' || c == '\r' || c == ' '
    || c == '\U{00A0}' || c == '\U{1680}' || ('\U{2000}' <= c <= '\U{200A}')
    || c == '\U{2028}' || c == '\U{2029}' || c == '\U{202F}' || c == '\U{205F}'
    || c == '\U{3000}' || c == '\U{FEFF}'
  }

  predicate AllWhite(s: string) {
    forall i :: 0 <= i < |s| ==> IsWhite(s[i])
  }

  /** `trimStart`: the longest suffix that does not begin with white space,
      everything cut off being white space. */
  function TrimStart(s: string): (r: string)
    ensures |r| <= |s| && r == s[|s| - |r|..]
    ensures AllWhite(s[..|s| - |r|])
    ensures r == [] || !IsWhite(r[0])
    decreases |s|
  {
    if |s| > 0 && IsWhite(s[0]) then
      var r := TrimStart(s[1..]);
      assert s[..|s| - |r|] == [s[0]] + s[1..][..|s| - 1 - |r|];
      r
    else s
  }

  /** `trimEnd`: the longest prefix that does not end with white space,
      everything cut off being white space. */
  function TrimEnd(s: string): (r: string)
    ensures |r| <= |s| && r == s[..|r|]
    ensures AllWhite(s[|r|..])
    ensures r == [] || !IsWhite(r[|r| - 1])
    decreases |s|
  {
    if |s| > 0 && IsWhite(s[|s| - 1]) then
      var t := s[..|s| - 1];
      var r := TrimEnd(t);
      assert r == s[..|r|] by {
        assert t[..|r|] == s[..|r|];
      }
      assert AllWhite(s[|r|..]) by {
        assert s[|r|..] == t[|r|..] + [s[|s| - 1]];
      }
      r
    else s
  }

  /** `trim`. */
  function Trim(s: string): string {
    TrimEnd(TrimStart(s))
  }

  /** `!s.trim()` holds exactly for the strings made only of white space. */
  lemma TrimEmptyIff(s: string)
    ensures Trim(s) == "" <==> AllWhite(s)
  {
    var t := TrimStart(s);
    if AllWhite(s) {
      TrimStartAllWhite(s);
    }
    if Trim(s) == "" {
      assert t[0..] == t;
      assert s == s[..|s| - |t|] + t;
    }
  }

  lemma TrimStartAllWhite(s: string)
    requires AllWhite(s)
    ensures TrimStart(s) == []
    decreases |s|
  {
    if |s| > 0 {
      TrimStartAllWhite(s[1..]);
    }
  }

  /** Trimming a string that neither begins nor ends with white space,
      behind any amount of leading white space, gives that string. */
  lemma TrimAfterWhite(w: string, s: string)
    requires AllWhite(w)
    requires s == [] || (!IsWhite(s[0]) && !IsWhite(s[|s| - 1]))
    ensures Trim(w + s) == s
    decreases |w|
  {
    if |w| == 0 {
      assert w + s == s;
    } else {
      assert (w + s)[1..] == w[1..] + s;
      TrimAfterWhite(w[1..], s);
    }
  }

  /** `s.startsWith(p)`. */
  predicate StartsWith(s: string, p: string) {
    |p| <= |s| && s[..|p|] == p
  }

  /** `s.replace(p, "")` for a non-empty string pattern: removes the first
      occurrence of `p`, if any. */
  function RemoveFirst(s: string, p: string): string
    requires p != []
  {
    match IndexOf(s, p)
    case None => s
    case Some(i) => s[..i] + s[i + |p|..]
  }

  /** On a string that starts with `p`, `replace(p, "")` strips exactly that
      prefix. */
  lemma RemoveFirstPrefix(s: string, p: string)
    requires p != [] && StartsWith(s, p)
    ensures RemoveFirst(s, p) == s[|p|..]
  {
    assert OccursAt(s, p, 0);
    IndexOfIs(s, p, 0);
  }

  /** With a one-character separator, freedom from the separator is just
      not containing that character. */
  lemma FreeChar(s: string, c: char)
    ensures Free(s, [c]) <==> c !in s
  {
    if c in s {
      var i :| 0 <= i < |s| && s[i] == c;
      assert s[i..i + 1] == [c];
      assert OccursAt(s, [c], i);
    }
    if !Free(s, [c]) {
      var i: nat :| i <= |s| && OccursAt(s, [c], i);
      assert s[i..i + 1] == [c];
      assert s[i] == s[i..i + 1][0];
    }
  }
}
