/** The string operations the translators use: ASCII case folding for
    `strings.EqualFold`, joining pieces with a separator, and
    `strings.TrimSuffix`. */
module Text {

  /** Upper-case ASCII letters to lower case; every other character as is. */
  function ToLower(c: char): char {
    if 'A' <= c <= 'Z' then (c as int - 'A' as int + 'a' as int) as char else c
  }

  /** Every character of `s` through `ToLower`. */
  function LowerAll(s: string): string {
    seq(|s|, i requires 0 <= i < |s| => ToLower(s[i]))
  }

  /** `strings.EqualFold`, for the ASCII range: the two strings are equal
      once both are lower-cased, so equal strings always match. */
  function EqualFold(a: string, b: string): (r: bool)
    ensures r <==> LowerAll(a) == LowerAll(b)
    ensures a == b ==> r
  {
    assert forall i :: 0 <= i < |a| ==> LowerAll(a)[i] == ToLower(a[i]);
    assert forall i :: 0 <= i < |b| ==> LowerAll(b)[i] == ToLower(b[i]);
    |a| == |b| && forall i :: 0 <= i < |a| ==> ToLower(a[i]) == ToLower(b[i])
  }

  /** The pieces joined by `sep`: `p0 + sep + p1 + ... + sep + pn`. */
  function Join(pieces: seq<string>, sep: string): string
    decreases |pieces|
  {
    if |pieces| == 0 then ""
    else if |pieces| == 1 then pieces[0]
    else Join(pieces[..|pieces| - 1], sep) + sep + pieces[|pieces| - 1]
  }

  /** Every piece followed by `sep`: what a loop writing `piece` then `sep`
      into a buffer leaves there. */
  function Terminated(pieces: seq<string>, sep: string): string
    decreases |pieces|
  {
    if |pieces| == 0 then ""
    else Terminated(pieces[..|pieces| - 1], sep) + pieces[|pieces| - 1] + sep
  }

  /** `strings.TrimSuffix`: drop `suffix` from the end of `s` once, if it is there. */
  function TrimSuffix(s: string, suffix: string): (r: string)
    ensures |suffix| <= |s| && s[|s| - |suffix|..] == suffix ==> r + suffix == s
    ensures !(|suffix| <= |s| && s[|s| - |suffix|..] == suffix) ==> r == s
  {
    if |suffix| <= |s| && s[|s| - |suffix|..] == suffix then s[..|s| - |suffix|] else s
  }

  /** The buffer of terminated pieces is the joined pieces plus one trailing
      separator, as soon as there is a piece. */
  lemma {:induction false} TerminatedIsJoinPlusSep(pieces: seq<string>, sep: string)
    requires |pieces| > 0
    ensures Terminated(pieces, sep) == Join(pieces, sep) + sep
  {
    if |pieces| > 1 {
      var init := pieces[..|pieces| - 1];
      TerminatedIsJoinPlusSep(init, sep);
      assert init[..|init| - 1] == pieces[..|pieces| - 2];
    }
  }

  /** Trimming one trailing separator from the buffer of terminated pieces
      gives exactly the joined pieces, with no trailing separator, for every
      list of pieces, the empty one included. */
  lemma TrimTerminated(pieces: seq<string>, sep: string)
    requires |sep| > 0
    ensures TrimSuffix(Terminated(pieces, sep), sep) == Join(pieces, sep)
  {
    if |pieces| > 0 {
      TerminatedIsJoinPlusSep(pieces, sep);
      var s := Join(pieces, sep) + sep;
      assert s[|s| - |sep|..] == sep;
      assert s[..|s| - |sep|] == Join(pieces, sep);
    }
  }

  /** The joined string is empty exactly when there are no pieces, provided
      no piece is empty. */
  lemma {:induction false} JoinEmptyIff(pieces: seq<string>, sep: string)
    requires forall i :: 0 <= i < |pieces| ==> pieces[i] != ""
    ensures Join(pieces, sep) == "" <==> pieces == []
  {
    if |pieces| > 1 {
      assert pieces[|pieces| - 1] != "";
    }
  }
}
