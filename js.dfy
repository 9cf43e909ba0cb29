/** JavaScript values and string operations that the route handlers rely on:
    optional values, truthiness of strings, `toUpperCase` on ASCII letters
    and `split`/`join` on a one-character separator. */
module Js {

  /** A value that may be absent (`undefined` or `null` in the source). */
  datatype Option<T> = None | Some(value: T)

  /** A string-valued field tested for truth: absent and "" are both falsy. */
  predicate Truthy(s: Option<string>) {
    s.Some? && s.value != ""
  }

  // ---------------------------------------------------------------------
  // Upper-casing
  // ---------------------------------------------------------------------

  function UpperChar(c: char): char {
    if 'a' <= c <= 'z' then (c as int - 32) as char else c
  }

  /** `s.toUpperCase()`, restricted to the ASCII letters. */
  function Upper(s: string): (r: string)
    ensures |r| == |s|
    ensures forall i :: 0 <= i < |s| ==> r[i] == UpperChar(s[i])
  {
    if s == [] then [] else [UpperChar(s[0])] + Upper(s[1..])
  }

  /** A code that upper-casing leaves as it is. */
  predicate IsUpper(s: string) {
    forall i :: 0 <= i < |s| ==> !('a' <= s[i] <= 'z')
  }

  /** The result of upper-casing is upper case, and upper-casing it again changes nothing. */
  lemma UpperIsUpper(s: string)
    ensures IsUpper(Upper(s))
    ensures Upper(Upper(s)) == Upper(s)
  {
  }

  /** Upper-casing leaves exactly the strings without lower-case letters unchanged. */
  lemma UpperFixesExactlyUpper(s: string)
    ensures Upper(s) == s <==> IsUpper(s)
  {
    if Upper(s) == s {
      forall i | 0 <= i < |s| ensures !('a' <= s[i] <= 'z') {
        assert Upper(s)[i] == UpperChar(s[i]);
      }
    }
  }

  // ---------------------------------------------------------------------
  // split / join on a one-character separator
  // ---------------------------------------------------------------------

  /** `s.split(sep)`: the pieces between separators, in order, empty pieces
      included; splitting "" gives [""]. */
  function Split(s: string, sep: char): (r: seq<string>)
    ensures |r| >= 1
  {
    if s == [] then [""]
    else
      var rest := Split(s[1..], sep);
      if s[0] == sep then [""] + rest
      else [[s[0]] + rest[0]] + rest[1..]
  }

  /** `pieces.join(sep)`. */
  function Join(pieces: seq<string>, sep: char): string {
    if pieces == [] then ""
    else if |pieces| == 1 then pieces[0]
    else pieces[0] + [sep] + Join(pieces[1..], sep)
  }

  /** No piece of a split contains the separator. */
  lemma {:induction false} SplitPiecesHaveNoSeparator(s: string, sep: char)
    ensures forall p :: p in Split(s, sep) ==> sep !in p
  {
    if s != [] {
      SplitPiecesHaveNoSeparator(s[1..], sep);
      var rest := Split(s[1..], sep);
      if s[0] != sep {
        assert rest[0] in rest;
        forall p | p in Split(s, sep) ensures sep !in p {
          if p != [s[0]] + rest[0] {
            assert p in rest[1..];
          }
        }
      }
    }
  }

  /** Joining the pieces of a split gives back the original string. */
  lemma {:induction false} JoinSplit(s: string, sep: char)
    ensures Join(Split(s, sep), sep) == s
  {
    if s != [] {
      JoinSplit(s[1..], sep);
      var rest := Split(s[1..], sep);
      if s[0] == sep {
        assert Split(s, sep) == [""] + rest;
        assert s == [sep] + s[1..];
      } else {
        var p := [[s[0]] + rest[0]] + rest[1..];
        if |rest| == 1 {
          assert rest == [rest[0]];
        } else {
          assert rest[1..][1..] == rest[2..];
          assert Join(rest, sep) == rest[0] + [sep] + Join(rest[1..], sep);
          assert p[1..] == rest[1..];
          assert Join(p, sep) == [s[0]] + rest[0] + [sep] + Join(rest[1..], sep);
        }
        assert s == [s[0]] + s[1..];
      }
    }
  }

  /** A separator-free piece followed by the separator splits off as its own piece. */
  lemma {:induction false} SplitSeparatorPrefix(piece: string, rest: string, sep: char)
    requires sep !in piece
    ensures Split(piece + [sep] + rest, sep) == [piece] + Split(rest, sep)
    decreases |piece|
  {
    if piece == [] {
      assert piece + [sep] + rest == [sep] + rest;
      assert ([sep] + rest)[1..] == rest;
    } else {
      var s := piece + [sep] + rest;
      assert s[0] == piece[0];
      assert s[1..] == piece[1..] + [sep] + rest;
      SplitSeparatorPrefix(piece[1..], rest, sep);
      assert [piece[0]] + piece[1..] == piece;
    }
  }

  /** A piece without the separator splits to itself. */
  lemma {:induction false} SplitNoSeparator(piece: string, sep: char)
    requires sep !in piece
    ensures Split(piece, sep) == [piece]
  {
    if piece != [] {
      SplitNoSeparator(piece[1..], sep);
      assert [piece[0]] + piece[1..] == piece;
    }
  }

  /** Splitting the join of separator-free pieces gives those pieces back. */
  lemma {:induction false} SplitJoin(pieces: seq<string>, sep: char)
    requires |pieces| >= 1
    requires forall p :: p in pieces ==> sep !in p
    ensures Split(Join(pieces, sep), sep) == pieces
  {
    if |pieces| == 1 {
      SplitNoSeparator(pieces[0], sep);
    } else {
      assert pieces[0] in pieces;
      forall p | p in pieces[1..] ensures sep !in p {
        assert p in pieces;
      }
      SplitJoin(pieces[1..], sep);
      SplitSeparatorPrefix(pieces[0], Join(pieces[1..], sep), sep);
      assert [pieces[0]] + pieces[1..] == pieces;
    }
  }
}
