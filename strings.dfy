/** The `strings` operations the core uses: searching for a character and joining with "\n". */
module Strings {
  import opened Outcomes

  /** The first position of `c` in `s`, if any. */
  function IndexOf(s: string, c: char): (r: Option<nat>)
    ensures r.None? <==> c !in s
    ensures r.Some? ==> r.value < |s| && s[r.value] == c && c !in s[..r.value]
  {
    if |s| == 0 then None
    else if s[0] == c then Some(0)
    else
      match IndexOf(s[1..], c)
      case None => None
      case Some(i) =>
        assert s[..i + 1] == [s[0]] + s[1..][..i];
        Some(i + 1)
  }

  /** In `p + [c] + rest` with no `c` in `p`, the first `c` is the one after `p`. */
  lemma IndexOfAfterPrefix(p: string, c: char, rest: string)
    requires c !in p
    ensures IndexOf(p + [c] + rest, c) == Some(|p|)
  {
    var s := p + [c] + rest;
    var i := IndexOf(s, c).value;
    assert s[..|p|] == p;
    assert s[|p|] == c;
    assert forall j :: 0 <= j < i ==> s[..i][j] == s[j];
  }

  /** `strings.Join(parts, "\n")`. */
  function JoinLines(parts: seq<string>): string {
    if |parts| == 0 then ""
    else if |parts| == 1 then parts[0]
    else parts[0] + "\n" + JoinLines(parts[1..])
  }

  /** Joining two non-empty runs of lines is joining each and putting one newline between them. */
  lemma {:induction false} JoinLinesConcat(a: seq<string>, b: seq<string>)
    requires |a| > 0 && |b| > 0
    ensures JoinLines(a + b) == JoinLines(a) + "\n" + JoinLines(b)
  {
    if |a| == 1 {
      assert (a + b)[1..] == b;
    } else {
      assert (a + b)[1..] == a[1..] + b;
      JoinLinesConcat(a[1..], b);
    }
  }

  /** Parts that hold newlines lose their boundaries: two different lists of lines join to the same text. */
  lemma JoinLinesLosesLineBoundaries()
    ensures ["A\nB", "C"] != ["A", "B\nC"]
    ensures JoinLines(["A\nB", "C"]) == JoinLines(["A", "B\nC"])
  {
  }
}
