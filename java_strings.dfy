/**
 * The few `java.lang.String` operations the message parsers rely on, with
 * Java's exact edge cases: `split(" ")`, `endsWith`, `contains`,
 * `trim().length() < 1` and an ASCII `equalsIgnoreCase`.
 */
module JavaStrings {
  import opened Wrappers

  /** The pieces between the spaces of `s`, empty pieces included. */
  function Pieces(s: string): (r: seq<string>)
    ensures |r| >= 1
    ensures forall i :: 0 <= i < |r| ==> ' ' !in r[i]
  {
    if s == [] then [""]
    else
      var rest := Pieces(s[1..]);
      if s[0] == ' ' then [""] + rest
      else [[s[0]] + rest[0]] + rest[1..]
  }

  /** Puts the pieces back together with one space between neighbours. */
  function Join(pieces: seq<string>): string
  {
    if pieces == [] then ""
    else if |pieces| == 1 then pieces[0]
    else pieces[0] + " " + Join(pieces[1..])
  }

  /** Splitting at the spaces loses nothing: joining the pieces gives `s` back. */
  lemma {:induction false} JoinPieces(s: string)
    ensures Join(Pieces(s)) == s
  {
    if s != [] {
      JoinPieces(s[1..]);
      var rest := Pieces(s[1..]);
      if s[0] == ' ' {
        assert [""] + rest == [""] + rest;
        assert ([""] + rest)[1..] == rest;
        assert s == [' '] + s[1..];
      } else {
        var r := [[s[0]] + rest[0]] + rest[1..];
        if |rest| == 1 {
          assert s == [s[0]] + s[1..];
        } else {
          assert r[1..] == rest[1..];
          assert Join(rest) == rest[0] + " " + Join(rest[1..]);
          assert s == [s[0]] + s[1..];
        }
      }
    }
  }

  /** Drops the empty strings at the end of `pieces`. */
  function DropTrailingEmpty(pieces: seq<string>): (r: seq<string>)
    ensures |r| <= |pieces| && r == pieces[..|r|]
    ensures r != [] ==> r[|r| - 1] != ""
    ensures forall i :: |r| <= i < |pieces| ==> pieces[i] == ""
  {
    if pieces != [] && pieces[|pieces| - 1] == "" then DropTrailingEmpty(pieces[..|pieces| - 1])
    else pieces
  }

  /**
   * `s.split(" ")`: the input itself when it has no space (so `""` gives
   * `[""]`), otherwise the pieces with the trailing empty ones removed.
   */
  function Split(s: string): (r: seq<string>)
    ensures forall i :: 0 <= i < |r| ==> ' ' !in r[i]
    ensures ' ' !in s ==> r == [s]
  {
    if ' ' in s then DropTrailingEmpty(Pieces(s)) else [s]
  }

  /** The token at `i` is the first one that satisfies `p`. */
  predicate IsFirstMatch(tokens: seq<string>, p: string -> bool, i: int)
  {
    0 <= i < |tokens| && p(tokens[i]) && forall j :: 0 <= j < i ==> !p(tokens[j])
  }

  /**
   * The index of the first token that satisfies `p`: the find-first loop
   * with an early `return` that the message types use.
   */
  function FindFirst(tokens: seq<string>, p: string -> bool): (r: Option<nat>)
    ensures r.Some? ==> IsFirstMatch(tokens, p, r.value)
    ensures r.None? ==> forall j :: 0 <= j < |tokens| ==> !p(tokens[j])
  {
    if tokens == [] then None
    else if p(tokens[0]) then Some(0)
    else
      match FindFirst(tokens[1..], p)
      case Some(i) => Some(i + 1)
      case None => None
  }

  /** `s.endsWith(suffix)`: case-sensitive, on the raw characters. */
  predicate EndsWith(s: string, suffix: string)
  {
    |suffix| <= |s| && s[|s| - |suffix|..] == suffix
  }

  /** `s.contains(t)`. */
  predicate Contains(s: string, t: string)
    decreases |s|
  {
    |t| <= |s| && (s[..|t|] == t || (s != [] && Contains(s[1..], t)))
  }

  /** `s.trim().length() < 1`: `trim` strips every character up to U+0020. */
  predicate IsBlank(s: string)
  {
    forall i :: 0 <= i < |s| ==> s[i] <= ' '
  }

  function LowerAscii(c: char): char
  {
    if 'A' <= c <= 'Z' then (c as int - 'A' as int + 'a' as int) as char else c
  }

  /** `a.equalsIgnoreCase(b)`, restricted to ASCII case folding. */
  predicate EqualsIgnoreCaseAscii(a: string, b: string)
  {
    |a| == |b| && forall i :: 0 <= i < |a| ==> LowerAscii(a[i]) == LowerAscii(b[i])
  }
}
