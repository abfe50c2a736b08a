/**
 * The two functions of Go's `strings` package the bridge uses to parse header
 * flags, `strings.Split` and `strings.Join`, for a one-character separator.
 */
module GoStrings {

  /** The position of the first `c` in `s`. */
  function IndexOf(s: string, c: char): (i: nat)
    requires c in s
    ensures i < |s| && s[i] == c && c !in s[..i]
  {
    if s[0] == c then 0 else 1 + IndexOf(s[1..], c)
  }

  /**
   * `strings.Split(s, string(c))`: the pieces of `s` between the occurrences
   * of `c`; one piece more than there are occurrences, so `[""]` for `""`.
   */
  function Split(s: string, c: char): (parts: seq<string>)
    ensures |parts| >= 1
    ensures c !in s <==> |parts| == 1
    ensures c in s ==> parts[0] == s[..IndexOf(s, c)] && parts[1..] == Split(s[IndexOf(s, c) + 1..], c)
    decreases |s|
  {
    if c !in s then [s]
    else
      var i := IndexOf(s, c);
      [s[..i]] + Split(s[i + 1..], c)
  }

  /** `strings.Join(parts, string(c))`. */
  function Join(parts: seq<string>, c: char): string
  {
    if parts == [] then ""
    else if |parts| == 1 then parts[0]
    else parts[0] + [c] + Join(parts[1..], c)
  }

  /** No piece of a split holds the separator. */
  lemma {:induction false} SplitPiecesLackSeparator(s: string, c: char)
    ensures forall k :: 0 <= k < |Split(s, c)| ==> c !in Split(s, c)[k]
    decreases |s|
  {
    if c in s {
      var i := IndexOf(s, c);
      SplitPiecesLackSeparator(s[i + 1..], c);
      forall k | 0 <= k < |Split(s, c)|
        ensures c !in Split(s, c)[k]
      {
        if k > 0 {
          assert Split(s, c)[k] == Split(s[i + 1..], c)[k - 1];
        }
      }
    }
  }

  /** Joining the pieces of a split with the same separator gives the string back. */
  lemma {:induction false} JoinSplit(s: string, c: char)
    ensures Join(Split(s, c), c) == s
    decreases |s|
  {
    if c in s {
      var i := IndexOf(s, c);
      var rest := s[i + 1..];
      JoinSplit(rest, c);
      assert s == s[..i] + [c] + rest;
    }
  }
}
