/** Splitting strings, and putting them together. */
module Strings {

  /** The pieces between the separators in `s`; the empty string is one empty piece. */
  function Split(s: string, separator: char): (pieces: seq<string>)
    ensures |pieces| > 0
  {
    if s == "" then [""]
    else
      var rest := Split(s[1..], separator);
      if s[0] == separator then [""] + rest else [[s[0]] + rest[0]] + rest[1..]
  }

  /** The entries of a comma-separated list. */
  function Entries(s: string): (entries: seq<string>)
    ensures |entries| > 0
  {
    Split(s, ',')
  }

  function Join(pieces: seq<string>, glue: string): string {
    if pieces == [] then ""
    else if |pieces| == 1 then pieces[0]
    else pieces[0] + glue + Join(pieces[1..], glue)
  }

  predicate Within(pieces: seq<string>, separator: char) {
    forall i :: 0 <= i < |pieces| ==> separator !in pieces[i]
  }

  lemma {:induction false} SplitFirst(piece: string, rest: string, separator: char)
    requires separator !in piece
    ensures Split(piece, separator) == [piece]
    ensures Split(piece + [separator] + rest, separator) == [piece] + Split(rest, separator)
  {
    if piece == "" {
      assert (piece + [separator] + rest)[1..] == rest;
    } else {
      SplitFirst(piece[1..], rest, separator);
      assert piece == [piece[0]] + piece[1..];
      assert (piece + [separator] + rest)[1..] == piece[1..] + [separator] + rest;
    }
  }

  /** No separator is lost, and no piece has one. */
  lemma {:induction false} SplitJoins(s: string, separator: char)
    ensures Join(Split(s, separator), [separator]) == s
    ensures Within(Split(s, separator), separator)
  {
    if s != "" {
      var rest := Split(s[1..], separator);
      SplitJoins(s[1..], separator);
      if s[0] == separator {
        assert ([""] + rest)[1..] == rest;
        assert "" + [separator] + s[1..] == s;
      } else {
        JoinStarts(s[0], rest, [separator]);
      }
    }
  }

  /** A character that is not in a string is in none of its pieces. */
  lemma {:induction false} SplitWithin(s: string, separator: char, c: char)
    requires c !in s
    ensures Within(Split(s, separator), c)
  {
    if s != "" {
      SplitWithin(s[1..], separator, c);
    }
  }

  lemma JoinStarts(c: char, pieces: seq<string>, glue: string)
    requires pieces != []
    ensures Join([[c] + pieces[0]] + pieces[1..], glue) == [c] + Join(pieces, glue)
  {
    var longer := [[c] + pieces[0]] + pieces[1..];
    assert longer[1..] == pieces[1..];
    if |pieces| > 1 {
      assert ([c] + pieces[0]) + glue + Join(pieces[1..], glue) == [c] + (pieces[0] + glue + Join(pieces[1..], glue));
    }
  }

  lemma {:induction false} JoinSplits(pieces: seq<string>, separator: char)
    requires pieces != [] && Within(pieces, separator)
    ensures Split(Join(pieces, [separator]), separator) == pieces
  {
    SplitFirst(pieces[0], Join(pieces[1..], [separator]), separator);
    if |pieces| > 1 {
      JoinSplits(pieces[1..], separator);
    }
  }

  predicate Distinct<T(==)>(s: seq<T>) {
    forall i, j :: 0 <= i < j < |s| ==> s[i] != s[j]
  }
}
