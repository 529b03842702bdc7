/**
 * The string operations the toolkit relies on: `Split` on one separator
 * character keeps empty pieces, as in .NET; `StartsWith` is an ordinal
 * prefix test, whereas .NET's `String.StartsWith(string)` compares under the
 * current culture.
 */
module Text {

  /** `s.StartsWith(prefix)`. */
  predicate StartsWith(s: string, prefix: string) {
    |prefix| <= |s| && s[..|prefix|] == prefix
  }

  /** The pieces joined back with the separator between each two. */
  function Join(pieces: seq<string>, sep: char): string
    decreases |pieces|
  {
    if |pieces| == 0 then ""
    else if |pieces| == 1 then pieces[0]
    else pieces[0] + [sep] + Join(pieces[1..], sep)
  }

  /** The number of occurrences of a character. */
  function Count(s: string, c: char): (n: nat)
    ensures n <= |s|
    ensures n == 0 <==> c !in s
  {
    if s == [] then 0 else (if s[0] == c then 1 else 0) + Count(s[1..], c)
  }

  /**
   * `s.Split(new char[] { sep })`: the maximal separator-free pieces between
   * separators, empty ones included; there is always at least one piece.
   */
  function Split(s: string, sep: char): (r: seq<string>)
    ensures |r| == Count(s, sep) + 1
    ensures forall k :: 0 <= k < |r| ==> sep !in r[k]
    ensures Join(r, sep) == s
    decreases |s|
  {
    if |s| == 0 then [""]
    else
      var rest := Split(s[1..], sep);
      if s[0] == sep then
        assert s == [sep] + s[1..];
        [""] + rest
      else
        var first := [s[0]] + rest[0];
        assert rest == [rest[0]] + rest[1..];
        JoinCons(s[0], rest, sep);
        [first] + rest[1..]
  }

  /** Putting a character in front of the first piece puts it in front of the joined string. */
  lemma JoinCons(c: char, pieces: seq<string>, sep: char)
    requires |pieces| >= 1
    ensures Join([[c] + pieces[0]] + pieces[1..], sep) == [c] + Join(pieces, sep)
  {
    var p := [[c] + pieces[0]] + pieces[1..];
    if |pieces| > 1 {
      assert p[1..] == pieces[1..];
    }
  }

  /** Splitting the join of separator-free pieces gives the pieces back. */
  lemma {:induction false} SplitJoin(pieces: seq<string>, sep: char)
    requires |pieces| >= 1
    requires forall k :: 0 <= k < |pieces| ==> sep !in pieces[k]
    ensures Split(Join(pieces, sep), sep) == pieces
    decreases |pieces|, |pieces[0]|
  {
    if |pieces[0]| > 0 {
      var c := pieces[0][0];
      var shorter := [pieces[0][1..]] + pieces[1..];
      assert pieces[0] == [c] + pieces[0][1..];
      assert shorter[1..] == pieces[1..];
      JoinCons(c, shorter, sep);
      assert [[c] + shorter[0]] + shorter[1..] == pieces;
      assert forall k :: 0 <= k < |shorter| ==> sep !in shorter[k] by {
        forall k | 0 <= k < |shorter| ensures sep !in shorter[k] {
          if k == 0 {
            assert forall x :: x in pieces[0][1..] ==> x in pieces[0];
          } else {
            assert shorter[k] == pieces[k];
          }
        }
      }
      SplitJoin(shorter, sep);
      var s := Join(pieces, sep);
      assert s == [c] + Join(shorter, sep);
      assert s[1..] == Join(shorter, sep);
    } else if |pieces| == 1 {
    } else {
      var s := Join(pieces, sep);
      assert s == [sep] + Join(pieces[1..], sep);
      assert s[1..] == Join(pieces[1..], sep);
      SplitJoin(pieces[1..], sep);
      assert pieces == [""] + pieces[1..];
    }
  }
}
