/** Case-insensitive substring search over strings, enough to state which
    words an error or information message contains. */
module Text {

  /** ASCII lower-casing of one character; other characters are unchanged. */
  function LowerChar(c: char): char {
    if 'A' <= c <= 'Z' then (c as int + 32) as char else c
  }

  function Lower(s: string): (r: string)
    ensures |r| == |s|
    ensures forall i :: 0 <= i < |s| ==> r[i] == LowerChar(s[i])
  {
    seq(|s|, i requires 0 <= i < |s| => LowerChar(s[i]))
  }

  /** `sub` occurs in `s` at offset `i`, ignoring case. */
  predicate OccursAt(s: string, sub: string, i: int) {
    0 <= i && i + |sub| <= |s| && Lower(s[i..i + |sub|]) == Lower(sub)
  }

  /** `s` matches the regular expression `/sub/i` for a literal `sub`. */
  predicate Mentions(s: string, sub: string) {
    exists i | 0 <= i <= |s| :: OccursAt(s, sub, i)
  }

  /** Joins strings with a separator, as JavaScript's `Array.prototype.join`. */
  function Join(parts: seq<string>, sep: string): (r: string)
    decreases |parts|
  {
    if |parts| == 0 then ""
    else if |parts| == 1 then parts[0]
    else parts[0] + sep + Join(parts[1..], sep)
  }

  /** A string mentions every piece it is assembled from. */
  lemma MentionsPiece(pre: string, piece: string, post: string)
    ensures Mentions(pre + piece + post, piece)
  {
    var s := pre + piece + post;
    assert s[|pre|..|pre| + |piece|] == piece;
    assert OccursAt(s, piece, |pre|);
  }

  /** The concatenation of a list of pieces, the way a template literal
      assembles fixed text and interpolated values. */
  function Concat(parts: seq<string>): (r: string)
    decreases |parts|
  {
    if |parts| == 0 then "" else parts[0] + Concat(parts[1..])
  }

  lemma {:induction false} ConcatSplit(parts: seq<string>, k: nat)
    requires k < |parts|
    ensures Concat(parts) == Concat(parts[..k]) + parts[k] + Concat(parts[k + 1..])
    decreases k
  {
    if k > 0 {
      ConcatSplit(parts[1..], k - 1);
      assert parts[1..][..k - 1] == parts[1..k];
      assert parts[1..][k - 1 + 1..] == parts[k + 1..];
      assert parts[..k] == [parts[0]] + parts[1..k];
      assert Concat(parts[..k]) == parts[0] + Concat(parts[1..k]);
    } else {
      assert parts[..0] == [];
    }
  }

  /** A message assembled from pieces mentions each of its pieces. */
  lemma MentionsPart(parts: seq<string>, k: nat)
    requires k < |parts|
    ensures Mentions(Concat(parts), parts[k])
  {
    ConcatSplit(parts, k);
    MentionsPiece(Concat(parts[..k]), parts[k], Concat(parts[k + 1..]));
  }
}
