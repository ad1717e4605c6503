/**
 * The JavaScript string operations the application relies on: `trim`,
 * `split`, `includes`, ASCII `toLowerCase`/`toUpperCase`, the `/^\d+$/`
 * test and the comma-separated tag lists built from them.
 */
module Text {
  import opened Seqs

  /** The characters `String.prototype.trim` removes (WhiteSpace and LineTerminator). */
  predicate IsWhitespace(c: char) {
    || c == ' ' || c == '\t' || c == '\n' || c == '\r' || c == '\U{B}' || c == '\U{C}'
    || c == '\U{A0}' || c == '\U{FEFF}' || c == '\U{1680}' || ('\U{2000}' <= c <= '\U{200A}')
    || c == '\U{2028}' || c == '\U{2029}' || c == '\U{202F}' || c == '\U{205F}' || c == '\U{3000}'
  }

  /** A string is blank when `trim` leaves nothing of it. */
  predicate IsBlank(s: string) {
    forall i :: 0 <= i < |s| ==> IsWhitespace(s[i])
  }

  /** The `!s.trim()` test of the input guards: the text is empty once trimmed. */
  function Blank(s: string): (b: bool)
    ensures b <==> IsBlank(s)
  {
    Trim(s) == ""
  }

  /** `trimStart`: drops the leading whitespace and keeps the rest. */
  function TrimStart(s: string): (r: string)
    ensures |r| <= |s|
    ensures r == [] || !IsWhitespace(r[0])
    decreases |s|
  {
    if s != [] && IsWhitespace(s[0]) then TrimStart(s[1..]) else s
  }

  /** `trimStart` keeps a suffix of its input and what it drops is all whitespace. */
  lemma {:induction false} TrimStartSplits(s: string)
    ensures TrimStart(s) == s[|s| - |TrimStart(s)|..]
    ensures IsBlank(s[..|s| - |TrimStart(s)|])
    decreases |s|
  {
    if s != [] && IsWhitespace(s[0]) {
      var r := TrimStart(s[1..]);
      TrimStartSplits(s[1..]);
      assert s[..|s| - |r|] == [s[0]] + s[1..][..|s| - 1 - |r|];
    }
  }

  /** `trimEnd`: drops the trailing whitespace and keeps the rest. */
  function TrimEnd(s: string): (r: string)
    ensures |r| <= |s|
    ensures r == [] || !IsWhitespace(r[|r| - 1])
    decreases |s|
  {
    if s != [] && IsWhitespace(s[|s| - 1]) then TrimEnd(s[..|s| - 1]) else s
  }

  /** `trimEnd` keeps a prefix of its input and what it drops is all whitespace. */
  lemma {:induction false} TrimEndSplits(s: string)
    ensures TrimEnd(s) == s[..|TrimEnd(s)|]
    ensures IsBlank(s[|TrimEnd(s)|..])
    decreases |s|
  {
    if s != [] && IsWhitespace(s[|s| - 1]) {
      var r := TrimEnd(s[..|s| - 1]);
      TrimEndSplits(s[..|s| - 1]);
      assert s[|r|..] == s[..|s| - 1][|r|..] + [s[|s| - 1]];
    }
  }

  /** `trim`: a slice of the input with no whitespace at either end; empty exactly for a blank input. */
  function Trim(s: string): (r: string)
    ensures r == [] <==> IsBlank(s)
    ensures r != [] ==> !IsWhitespace(r[0]) && !IsWhitespace(r[|r| - 1])
    ensures |r| <= |s|
  {
    var t := TrimStart(s);
    var r := TrimEnd(t);
    TrimStartSplits(s);
    TrimEndSplits(t);
    assert t != [] ==> t[0] == s[|s| - |t|];
    assert r == [] ==> IsBlank(s) by {
      if r == [] {
        assert s == s[..|s| - |t|] + t;
        assert t == t[|r|..];
      }
    }
    r
  }

  /** Trimming is idempotent: a trimmed string is left as it is. */
  lemma TrimIdempotent(s: string)
    ensures Trim(Trim(s)) == Trim(s)
  {
    var r := Trim(s);
    if r != [] {
      assert TrimStart(r) == r;
      assert TrimEnd(r) == r;
    }
  }

  function LowerChar(c: char): char {
    if 'A' <= c <= 'Z' then (c as int + 32) as char else c
  }

  function UpperChar(c: char): char {
    if 'a' <= c <= 'z' then (c as int - 32) as char else c
  }

  /**
   * ASCII `toLowerCase`: same length, each capital becomes its small letter
   * (32 code points on), every other character is kept.
   */
  function Lower(s: string): (r: string)
    ensures |r| == |s|
    ensures forall i :: 0 <= i < |s| && 'A' <= s[i] <= 'Z' ==> r[i] as int == s[i] as int + 32
    ensures forall i :: 0 <= i < |s| && !('A' <= s[i] <= 'Z') ==> r[i] == s[i]
    ensures forall i :: 0 <= i < |r| ==> !('A' <= r[i] <= 'Z')
  {
    seq(|s|, i requires 0 <= i < |s| => LowerChar(s[i]))
  }

  /**
   * ASCII `toUpperCase`: same length, each small letter becomes its capital
   * (32 code points back), every other character is kept.
   */
  function Upper(s: string): (r: string)
    ensures |r| == |s|
    ensures forall i :: 0 <= i < |s| && 'a' <= s[i] <= 'z' ==> r[i] as int == s[i] as int - 32
    ensures forall i :: 0 <= i < |s| && !('a' <= s[i] <= 'z') ==> r[i] == s[i]
    ensures forall i :: 0 <= i < |r| ==> !('a' <= r[i] <= 'z')
  {
    seq(|s|, i requires 0 <= i < |s| => UpperChar(s[i]))
  }

  /** Lower-casing forgets the case the string was written in. */
  lemma LowerOfUpper(s: string)
    ensures Lower(Upper(s)) == Lower(s)
  {
    forall i | 0 <= i < |s| ensures Lower(Upper(s))[i] == Lower(s)[i] {
      assert Upper(s)[i] == UpperChar(s[i]);
    }
  }

  /** `s.includes(sub)`: `sub` occurs in `s` at some position (the empty string occurs everywhere). */
  predicate Contains(s: string, sub: string)
    decreases |s|
  {
    sub <= s || (s != [] && Contains(s[1..], sub))
  }

  /** `sub` occurs in `s` starting at position `k`. */
  predicate OccursAt(s: string, sub: string, k: int) {
    0 <= k <= |s| - |sub| && s[k..k + |sub|] == sub
  }

  /** `Contains` holds exactly when `sub` occurs at some explicit position. */
  lemma {:induction false} ContainsAt(s: string, sub: string)
    ensures Contains(s, sub) <==> exists k :: OccursAt(s, sub, k)
    decreases |s|
  {
    if sub <= s {
      assert OccursAt(s, sub, 0);
    } else if s == [] {
      assert forall k :: !OccursAt(s, sub, k);
    } else {
      ContainsAt(s[1..], sub);
      if exists k :: OccursAt(s, sub, k) {
        var k :| OccursAt(s, sub, k);
        assert k != 0;
        assert OccursAt(s[1..], sub, k - 1);
      }
      if Contains(s[1..], sub) {
        var k :| OccursAt(s[1..], sub, k);
        assert OccursAt(s, sub, k + 1);
      }
    }
  }

  /** Joins pieces with a separator between each pair (the inverse of `Split`). */
  function Join(pieces: seq<string>, sep: char): string
    requires |pieces| >= 1
  {
    if |pieces| == 1 then pieces[0] else pieces[0] + [sep] + Join(pieces[1..], sep)
  }

  /** `s.split(sep)` for a one-character separator; always at least one piece. */
  function Split(s: string, sep: char): (r: seq<string>)
    ensures |r| >= 1
    decreases |s|
  {
    if s == [] then [[]]
    else
      var rest := Split(s[1..], sep);
      if s[0] == sep then [[]] + rest
      else [[s[0]] + rest[0]] + rest[1..]
  }

  /** The position of the first `c` in `s`, or `|s|` when there is none. */
  function IndexOf(s: string, c: char): (k: nat)
    ensures k <= |s|
    ensures c !in s[..k]
    ensures k < |s| ==> s[k] == c
    decreases |s|
  {
    if s == [] || s[0] == c then 0
    else
      var k := IndexOf(s[1..], c);
      assert s[..1 + k] == [s[0]] + s[1..][..k];
      1 + k
  }

  /** The first piece of a split is everything before the first separator. */
  lemma {:induction false} SplitFirstPiece(s: string, sep: char)
    ensures Split(s, sep)[0] == s[..IndexOf(s, sep)]
    decreases |s|
  {
    if s != [] && s[0] != sep {
      SplitFirstPiece(s[1..], sep);
      assert s[..IndexOf(s, sep)] == [s[0]] + s[1..][..IndexOf(s[1..], sep)];
    }
  }

  /** `s.split(sep)[0]`: everything before the first separator, which it never contains. */
  function FirstPiece(s: string, sep: char): (r: string)
    ensures r == s[..IndexOf(s, sep)]
    ensures sep !in r
  {
    SplitFirstPiece(s, sep);
    Split(s, sep)[0]
  }

  /** No piece of a split contains the separator. */
  lemma {:induction false} SplitPieces(s: string, sep: char)
    ensures forall p :: p in Split(s, sep) ==> sep !in p
    decreases |s|
  {
    if s != [] {
      SplitPieces(s[1..], sep);
      var rest := Split(s[1..], sep);
      if s[0] != sep {
        assert rest[0] in rest;
        assert forall c :: c in [s[0]] + rest[0] ==> c == s[0] || c in rest[0];
        assert forall p :: p in rest[1..] ==> p in rest;
      }
    }
  }

  /** Joining the pieces of a split with the separator gives the input back. */
  lemma {:induction false} SplitThenJoin(s: string, sep: char)
    ensures Join(Split(s, sep), sep) == s
    decreases |s|
  {
    if s != [] {
      SplitThenJoin(s[1..], sep);
      var rest := Split(s[1..], sep);
      if s[0] == sep {
        assert ([[]] + rest)[1..] == rest;
      } else if |rest| == 1 {
        assert [s[0]] + rest[0] == [s[0]] + s[1..];
      } else {
        var pieces := [[s[0]] + rest[0]] + rest[1..];
        assert pieces[1..] == rest[1..];
        assert Join(pieces, sep) == [s[0]] + (rest[0] + [sep] + Join(rest[1..], sep));
      }
    }
  }

  /** Splitting the join of separator-free pieces gives the pieces back. */
  lemma {:induction false} SplitJoin(pieces: seq<string>, sep: char)
    requires |pieces| >= 1
    requires forall p :: p in pieces ==> sep !in p
    ensures Split(Join(pieces, sep), sep) == pieces
    decreases |pieces|, |pieces[0]|
  {
    var p0 := pieces[0];
    if |pieces| == 1 {
      SplitNoSep(p0, sep);
    } else if p0 == [] {
      var tail := Join(pieces[1..], sep);
      assert Join(pieces, sep) == [sep] + tail;
      SplitJoin(pieces[1..], sep);
      assert ([sep] + tail)[1..] == tail;
    } else {
      var shorter := [p0[1..]] + pieces[1..];
      assert forall p :: p in shorter ==> sep !in p by {
        assert forall c :: c in p0[1..] ==> c in p0;
      }
      SplitJoin(shorter, sep);
      var j := Join(pieces, sep);
      assert j == [p0[0]] + Join(shorter, sep) by {
        if |pieces| > 1 {
          assert shorter[1..] == pieces[1..];
        }
      }
      assert j[1..] == Join(shorter, sep);
      assert p0 in pieces && p0[0] in p0;
      assert j[0] == p0[0] && p0[0] != sep;
      assert [p0[0]] + p0[1..] == p0;
    }
  }

  /** A string without the separator splits into itself alone. */
  lemma {:induction false} SplitNoSep(s: string, sep: char)
    requires sep !in s
    ensures Split(s, sep) == [s]
    decreases |s|
  {
    if s != [] {
      assert sep !in s[1..] by {
        assert forall c :: c in s[1..] ==> c in s;
      }
      SplitNoSep(s[1..], sep);
      assert [s[0]] + s[1..] == s;
    }
  }

  /** Every piece trimmed, in order (`.map(tag => tag.trim())`). */
  function TrimAll(pieces: seq<string>): (r: seq<string>)
    ensures |r| == |pieces|
  {
    if pieces == [] then [] else [Trim(pieces[0])] + TrimAll(pieces[1..])
  }

  /** Position `i` of the trimmed list is piece `i` trimmed. */
  lemma {:induction false} TrimAllAt(pieces: seq<string>, i: int)
    requires 0 <= i < |pieces|
    ensures TrimAll(pieces)[i] == Trim(pieces[i])
    decreases |pieces|
  {
    if i > 0 {
      TrimAllAt(pieces[1..], i - 1);
    }
  }

  /** The non-empty pieces, in order (`.filter(tag => tag.length > 0)`). */
  function NonEmpty(pieces: seq<string>): (r: seq<string>)
    ensures |r| <= |pieces|
  {
    if pieces == [] then []
    else if pieces[0] == [] then NonEmpty(pieces[1..])
    else [pieces[0]] + NonEmpty(pieces[1..])
  }

  /** A string is kept exactly when it is one of the pieces and not empty. */
  lemma {:induction false} NonEmptyMembership(pieces: seq<string>, p: string)
    ensures p in NonEmpty(pieces) <==> p in pieces && p != []
    decreases |pieces|
  {
    if pieces != [] {
      NonEmptyMembership(pieces[1..], p);
      assert pieces == [pieces[0]] + pieces[1..];
    }
  }

  predicate Filled(piece: string) {
    piece != []
  }

  /** The recursive selection is the general filter with the non-empty test. */
  lemma {:induction false} NonEmptyIsFilter(pieces: seq<string>)
    ensures NonEmpty(pieces) == Filter(pieces, Filled)
    decreases |pieces|
  {
    if pieces != [] {
      NonEmptyIsFilter(pieces[1..]);
    }
  }

  /** A comma-separated tag field: split on commas, trim each piece, drop the empty ones. */
  function Tags(field: string): seq<string> {
    NonEmpty(TrimAll(Split(field, ',')))
  }

  /** The tags keep the order of the pieces they come from. */
  lemma TagsInOrder(field: string)
    ensures IsSubsequence(Tags(field), TrimAll(Split(field, ',')))
  {
    var trimmed := TrimAll(Split(field, ','));
    NonEmptyIsFilter(trimmed);
    FilterIsSubsequence(trimmed, Filled);
  }

  /**
   * What a tag list built from a field promises: every tag is non-empty,
   * has no comma and no surrounding whitespace, and is the trimmed form of
   * one comma-separated piece of the field.
   */
  lemma TagsWellFormed(field: string, t: string)
    requires t in Tags(field)
    ensures t != [] && ',' !in t && Trim(t) == t
    ensures exists p :: p in Split(field, ',') && t == Trim(p)
  {
    var pieces := Split(field, ',');
    var trimmed := TrimAll(pieces);
    NonEmptyMembership(trimmed, t);
    SplitPieces(field, ',');
    assert t in trimmed && t != [];
    var i :| 0 <= i < |trimmed| && trimmed[i] == t;
    TrimAllAt(pieces, i);
    var p := pieces[i];
    assert p in pieces;
    assert ',' !in p;
    assert t == Trim(p);
    TrimIdempotent(p);
    TrimIsSlice(p);
  }

  /** Every piece that is not blank contributes its trimmed form to the tags. */
  lemma TagsComplete(field: string, p: string)
    requires p in Split(field, ',') && !IsBlank(p)
    ensures Trim(p) in Tags(field)
  {
    var pieces := Split(field, ',');
    var i :| 0 <= i < |pieces| && pieces[i] == p;
    TrimAllAt(pieces, i);
    NonEmptyMembership(TrimAll(pieces), Trim(p));
  }

  /** A trimmed string is a slice of the original, so all its characters come from it. */
  lemma TrimIsSlice(s: string)
    ensures exists a, b :: 0 <= a <= b <= |s| && Trim(s) == s[a..b]
    ensures forall c :: c in Trim(s) ==> c in s
  {
    var t := TrimStart(s);
    TrimStartSplits(s);
    var r := TrimEnd(t);
    TrimEndSplits(t);
    var a := |s| - |t|;
    assert r == s[a..a + |r|];
  }

  /** `/^\d+$/.test(s)`: one or more ASCII digits and nothing else. */
  predicate AllDigits(s: string) {
    |s| > 0 && forall i :: 0 <= i < |s| ==> '0' <= s[i] <= '9'
  }
}
