/**
 * The string primitives the link component relies on: `startsWith`,
 * `includes` (Dafny's `in`) and `split` with a one-character separator.
 */
module Strings {

  /** `s` begins with `prefix` (JavaScript's `String.prototype.startsWith`). */
  predicate StartsWith(s: string, prefix: string) {
    |prefix| <= |s| && s[..|prefix|] == prefix
  }

  /** Position of the first `c` in `s`, or `|s|` when `c` does not occur. */
  function IndexOf(s: string, c: char): (i: nat)
    ensures i <= |s|
    ensures c !in s[..i]
    ensures i < |s| ==> s[i] == c
  {
    if s == [] then 0
    else if s[0] == c then 0
    else 1 + IndexOf(s[1..], c)
  }

  /**
   * The pieces of `s` between the occurrences of `sep`, as JavaScript's
   * `split` with a one-character separator: always at least one piece,
   * empty pieces kept, and no piece containing the separator.
   */
  function Split(s: string, sep: char): (pieces: seq<string>)
    ensures |pieces| >= 1
    ensures forall i :: 0 <= i < |pieces| ==> sep !in pieces[i]
    decreases |s|
  {
    if s == [] then [""]
    else
      var rest := Split(s[1..], sep);
      if s[0] == sep then [""] + rest
      else [[s[0]] + rest[0]] + rest[1..]
  }

  /** The pieces glued back together with `sep` between neighbours. */
  function Join(pieces: seq<string>, sep: char): string
    requires |pieces| >= 1
    decreases |pieces|
  {
    if |pieces| == 1 then pieces[0]
    else pieces[0] + [sep] + Join(pieces[1..], sep)
  }

  /** Splitting loses nothing: joining the pieces gives the string back. */
  lemma {:induction false} JoinSplit(s: string, sep: char)
    ensures Join(Split(s, sep), sep) == s
    decreases |s|
  {
    if s != [] {
      var rest := Split(s[1..], sep);
      JoinSplit(s[1..], sep);
      if s[0] != sep && |rest| > 1 {
        calc {
          Join(Split(s, sep), sep);
          ([s[0]] + rest[0]) + [sep] + Join(rest[1..], sep);
          [s[0]] + (rest[0] + [sep] + Join(rest[1..], sep));
          [s[0]] + Join(rest, sep);
        }
      }
    }
  }

  /**
   * The first piece is the text before the first `sep`; when `sep` occurs,
   * the remaining pieces are those of the text after it, and when it does not
   * there is exactly one piece, `s` itself.
   */
  lemma {:induction false} SplitAtFirst(s: string, sep: char)
    ensures Split(s, sep)[0] == s[..IndexOf(s, sep)]
    ensures IndexOf(s, sep) < |s| ==> Split(s, sep)[1..] == Split(s[IndexOf(s, sep) + 1..], sep)
    ensures IndexOf(s, sep) == |s| <==> Split(s, sep) == [s]
    decreases |s|
  {
    if s != [] && s[0] != sep {
      var j := IndexOf(s[1..], sep);
      SplitAtFirst(s[1..], sep);
      assert s[1..][..j] == s[1..j + 1];
      assert [s[0]] + s[1..j + 1] == s[..j + 1];
      if j < |s| - 1 {
        assert s[1..][j + 1..] == s[j + 2..];
        assert |Split(s, sep)| >= 2;
      } else {
        assert [s[0]] + s[1..] == s;
      }
    }
  }
}
