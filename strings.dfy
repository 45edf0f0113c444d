/** JavaScript string operations the handlers rely on: `startsWith` and `split` on one character. */
module Strings {

  predicate StartsWith(s: string, prefix: string)
  {
    |prefix| <= |s| && s[..|prefix|] == prefix
  }

  /** Position of the first occurrence of `c` in `s`. */
  function IndexOf(s: string, c: char): (i: nat)
    requires c in s
    ensures i < |s| && s[i] == c && c !in s[..i]
  {
    if s[0] == c then 0
    else
      var j := IndexOf(s[1..], c);
      assert s[..j + 1] == [s[0]] + s[1..][..j];
      j + 1
  }

  /** Glues fields back together with `sep` between neighbours; the inverse of Split. */
  function Join(fields: seq<string>, sep: char): string
    requires |fields| >= 1
  {
    if |fields| == 1 then fields[0] else fields[0] + [sep] + Join(fields[1..], sep)
  }

  /**
   * JavaScript's `s.split(sep)` for a one-character separator: the pieces
   * between consecutive separators, so k separators give k + 1 pieces,
   * empty ones included.
   */
  function Split(s: string, sep: char): (fields: seq<string>)
    ensures |fields| >= 1
    ensures forall k :: 0 <= k < |fields| ==> sep !in fields[k]
    ensures Join(fields, sep) == s
    decreases |s|
  {
    if sep !in s then [s]
    else
      var i := IndexOf(s, sep);
      var rest := Split(s[i + 1..], sep);
      assert ([s[..i]] + rest)[1..] == rest;
      assert s == s[..i] + [sep] + s[i + 1..];
      [s[..i]] + rest
  }

  /** Join is injective on separator-free fields, so Split recovers exactly the fields that were joined. */
  lemma {:induction false} SplitJoin(fields: seq<string>, sep: char)
    requires |fields| >= 1
    requires forall k :: 0 <= k < |fields| ==> sep !in fields[k]
    ensures Split(Join(fields, sep), sep) == fields
    decreases |fields|
  {
    var s := Join(fields, sep);
    if |fields| == 1 {
      assert sep !in s;
    } else {
      var head, tail := fields[0], fields[1..];
      assert s == head + [sep] + Join(tail, sep);
      assert s[|head|] == sep;
      assert s[..|head|] == head;
      var i := IndexOf(s, sep);
      assert i == |head|;
      assert s[i + 1..] == Join(tail, sep);
      SplitJoin(tail, sep);
    }
  }

  /** The text before the first space of `s` (all of `s` when it has none). */
  function FirstWord(s: string): (w: string)
    ensures ' ' !in w && StartsWith(s, w)
    ensures |w| == |s| || s[|w|] == ' '
  {
    if ' ' in s then s[..IndexOf(s, ' ')] else s
  }
}
