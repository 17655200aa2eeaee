/** The JavaScript string operations the pages rely on: `trim`, `split`,
    `join`, `includes`, `<` on strings, and case mapping (restricted to ASCII
    letters), plus the comma-separated list parser shared by the attendee
    field of the calendar and the tag field of the notes. */
module Text {
  import opened Seqs

  type String = seq<char>

  /** The characters `String.prototype.trim` removes: WhiteSpace and
      LineTerminator of ECMAScript (section 12.2 and 12.3 of ECMA-262). */
  predicate IsJsSpace(c: char) {
    c == '\t' || c == '\n' || c == '\U{000B}' || c == '\U{000C}' || c == '\r' || c == ' '
    || c == '\U{00A0}' || c == '\U{1680}' || ('\U{2000}' <= c <= '\U{200A}')
    || c == '\U{2028}' || c == '\U{2029}' || c == '\U{202F}' || c == '\U{205F}'
    || c == '\U{3000}' || c == '\U{FEFF}'
  }

  function TrimStart(s: String): (r: String)
    ensures |r| <= |s|
  {
    if s != [] && IsJsSpace(s[0]) then TrimStart(s[1..]) else s
  }

  /** `TrimStart` keeps a suffix that does not start with white space, and
      everything it drops is white space. */
  lemma {:induction false} TrimStartFacts(s: String)
    ensures var r := TrimStart(s);
            r == s[|s| - |r|..] && (r == [] || !IsJsSpace(r[0]))
    ensures forall i :: 0 <= i < |s| - |TrimStart(s)| ==> IsJsSpace(s[i])
  {
    if s != [] && IsJsSpace(s[0]) {
      TrimStartFacts(s[1..]);
      assert forall i :: 1 <= i < |s| ==> s[i] == s[1..][i - 1];
    }
  }

  function TrimEnd(s: String): (r: String)
    ensures |r| <= |s|
  {
    if s != [] && IsJsSpace(s[|s| - 1]) then TrimEnd(s[..|s| - 1]) else s
  }

  /** `TrimEnd` keeps a prefix that does not end with white space, and
      everything it drops is white space. */
  lemma {:induction false} TrimEndFacts(s: String)
    ensures var r := TrimEnd(s);
            r == s[..|r|] && (r == [] || !IsJsSpace(r[|r| - 1]))
    ensures forall i :: |TrimEnd(s)| <= i < |s| ==> IsJsSpace(s[i])
  {
    if s != [] && IsJsSpace(s[|s| - 1]) {
      TrimEndFacts(s[..|s| - 1]);
    }
  }

  /** `s.trim()` */
  function Trim(s: String): String {
    TrimEnd(TrimStart(s))
  }

  /** A string that `trim` leaves as it is. */
  predicate IsTrimmed(s: String) {
    s == [] || (!IsJsSpace(s[0]) && !IsJsSpace(s[|s| - 1]))
  }

  lemma TrimOfTrimmed(s: String)
    requires IsTrimmed(s)
    ensures Trim(s) == s
  {
  }

  /** `trim` yields a trimmed string, and the empty string exactly when every
      character is white space: `!s.trim()` is a blank test. */
  lemma TrimFacts(s: String)
    ensures IsTrimmed(Trim(s))
    ensures Trim(s) == [] <==> forall i :: 0 <= i < |s| ==> IsJsSpace(s[i])
  {
    TrimIsTrimmed(s);
    TrimEmptyIffSpaces(s);
  }

  lemma TrimIsTrimmed(s: String)
    ensures IsTrimmed(Trim(s))
  {
    var t := TrimStart(s);
    TrimStartFacts(s);
    TrimEndFacts(t);
    if Trim(s) != [] {
      assert Trim(s)[0] == t[0];
    }
  }

  lemma TrimEmptyIffSpaces(s: String)
    ensures Trim(s) == [] <==> forall i :: 0 <= i < |s| ==> IsJsSpace(s[i])
  {
    var t := TrimStart(s);
    TrimStartFacts(s);
    TrimEndFacts(t);
    if Trim(s) == [] {
      assert t == [];
    } else {
      assert t != [] && !IsJsSpace(t[0]);
      assert t[0] == s[|s| - |t|];
    }
  }

  /** The blank test the forms use before saving, `!s.trim()`: nothing but
      white space (see `BlankIsTrimmedEmpty`). */
  predicate IsBlank(s: String) {
    s == [] || (IsJsSpace(s[0]) && IsBlank(s[1..]))
  }

  /** A string is blank exactly when trimming it leaves nothing. */
  lemma BlankIsTrimmedEmpty(s: String)
    ensures IsBlank(s) <==> Trim(s) == []
  {
    TrimFacts(s);
    AllSpaces(s);
  }

  lemma {:induction false} AllSpaces(s: String)
    ensures IsBlank(s) <==> forall i :: 0 <= i < |s| ==> IsJsSpace(s[i])
  {
    if s != [] {
      AllSpaces(s[1..]);
      assert forall i :: 1 <= i < |s| ==> s[i] == s[1..][i - 1];
    }
  }

  // ---------------------------------------------------------------------
  // split and join

  /** `s.split(c)` for a one-character separator: the pieces between the
      separators, always at least one (`"".split(",")` is `[""]`). */
  function Split(s: String, c: char): (r: seq<String>)
    ensures |r| >= 1
    ensures forall i :: 0 <= i < |r| ==> c !in r[i]
  {
    if s == [] then [[]]
    else
      var rest := Split(s[1..], c);
      if s[0] == c then [[]] + rest
      else [[s[0]] + rest[0]] + rest[1..]
  }

  /** `xs.join(sep)` */
  function Join(xs: seq<String>, sep: String): String {
    if xs == [] then []
    else if |xs| == 1 then xs[0]
    else xs[0] + sep + Join(xs[1..], sep)
  }

  /** Splitting undoes joining with the same one-character separator, and
      joining undoes splitting: the pieces are exactly the text between
      separators. */
  lemma {:induction false} JoinSplit(s: String, c: char)
    ensures Join(Split(s, c), [c]) == s
  {
    if s != [] {
      JoinSplit(s[1..], c);
      var rest := Split(s[1..], c);
      if s[0] == c {
        assert Split(s, c) == [[]] + rest;
        assert ([[]] + rest)[1..] == rest;
        assert s == [c] + s[1..];
      } else {
        var r := Split(s, c);
        assert r == [[s[0]] + rest[0]] + rest[1..];
        if |rest| == 1 {
          assert s == [s[0]] + rest[0];
        } else {
          assert r[1..] == rest[1..];
          assert Join(rest, [c]) == rest[0] + [c] + Join(rest[1..], [c]);
          assert s == [s[0]] + s[1..];
        }
      }
    }
  }

  lemma {:induction false} SplitWithoutSeparator(s: String, c: char)
    requires c !in s
    ensures Split(s, c) == [s]
  {
    if s != [] {
      SplitWithoutSeparator(s[1..], c);
      assert s == [s[0]] + s[1..];
    }
  }

  lemma {:induction false} SplitAfterPiece(a: String, b: String, c: char)
    requires c !in a
    ensures Split(a + [c] + b, c) == [a] + Split(b, c)
  {
    if a == [] {
      assert a + [c] + b == [c] + b;
      assert ([c] + b)[1..] == b;
    } else {
      assert (a + [c] + b)[1..] == a[1..] + [c] + b;
      SplitAfterPiece(a[1..], b, c);
      assert [a[0]] + a[1..] == a;
    }
  }

  /** Joining pieces that do not contain the separator and splitting again
      gives the pieces back. */
  lemma {:induction false} SplitJoin(xs: seq<String>, c: char)
    requires |xs| >= 1
    requires forall i :: 0 <= i < |xs| ==> c !in xs[i]
    ensures Split(Join(xs, [c]), c) == xs
  {
    if |xs| == 1 {
      SplitWithoutSeparator(xs[0], c);
    } else {
      SplitJoin(xs[1..], c);
      assert Join(xs, [c]) == xs[0] + [c] + Join(xs[1..], [c]);
      SplitAfterPiece(xs[0], Join(xs[1..], [c]), c);
      assert [xs[0]] + xs[1..] == xs;
    }
  }

  /** A piece at either end of a split is empty only when the text starts,
      respectively ends, with the separator. */
  lemma {:induction false} SplitEnds(s: String, c: char)
    requires s != []
    ensures s[0] != c ==> Split(s, c)[0] != []
    ensures s[|s| - 1] != c ==> Split(s, c)[|Split(s, c)| - 1] != []
  {
    var rest := Split(s[1..], c);
    if |s| > 1 {
      SplitEnds(s[1..], c);
      assert s[1..][|s| - 2] == s[|s| - 1];
    }
  }

  // ---------------------------------------------------------------------
  // the comma-separated list fields

  /** The trimmed, non-empty pieces, in order. */
  function CleanPieces(ps: seq<String>): (r: seq<String>)
    ensures |r| <= |ps|
    ensures forall i :: 0 <= i < |r| ==> r[i] != [] && IsTrimmed(r[i])
  {
    if ps == [] then []
    else
      var t := Trim(ps[0]);
      TrimFacts(ps[0]);
      (if t == [] then [] else [t]) + CleanPieces(ps[1..])
  }

  /** `s ? s.split(',').map(x => x.trim()).filter(x => x) : []`, the parser of
      the attendee field of the calendar and of the tag field of the notes. */
  function ParseCommaList(s: String): (r: seq<String>)
    ensures forall i :: 0 <= i < |r| ==> r[i] != [] && IsTrimmed(r[i]) && ',' !in r[i]
  {
    if s == [] then []
    else
      var ps := Split(s, ',');
      CleanPiecesFromSplit(ps);
      CleanPieces(ps)
  }

  /** Every piece, trimmed. */
  function TrimEach(ps: seq<String>): (r: seq<String>)
    ensures |r| == |ps|
  {
    seq(|ps|, i requires 0 <= i < |ps| => Trim(ps[i]))
  }

  predicate IsNonEmpty(x: String) {
    x != []
  }

  /** Keeping the non-empty trimmed pieces is the `map(trim)` followed by
      the `filter`: the same pieces in the same order. */
  lemma {:induction false} CleanPiecesIsFilter(ps: seq<String>)
    ensures CleanPieces(ps) == Filter(TrimEach(ps), IsNonEmpty)
  {
    if ps != [] {
      CleanPiecesIsFilter(ps[1..]);
      assert TrimEach(ps)[1..] == TrimEach(ps[1..]);
      assert TrimEach(ps)[0] == Trim(ps[0]);
    }
  }

  /** The parser splits a non-empty text at the commas, trims each piece and
      keeps the non-empty ones in order; an item is exactly the trimmed form
      of some non-blank piece. */
  lemma ParseCommaListMeaning(s: String)
    ensures ParseCommaList(s) == if s == [] then [] else Filter(TrimEach(Split(s, ',')), IsNonEmpty)
    ensures forall x :: x in ParseCommaList(s) <==>
              s != [] && x != [] && exists i :: 0 <= i < |Split(s, ',')| && Trim(Split(s, ',')[i]) == x
  {
    if s != [] {
      var ps := Split(s, ',');
      CleanPiecesIsFilter(ps);
      FilterMembership(TrimEach(ps), IsNonEmpty);
      TrimEachMembership(ps);
    }
  }

  lemma TrimEachMembership(ps: seq<String>)
    ensures forall x :: x in TrimEach(ps) <==> exists i :: 0 <= i < |ps| && Trim(ps[i]) == x
  {
    forall x ensures x in TrimEach(ps) <==> exists i :: 0 <= i < |ps| && Trim(ps[i]) == x {
      if x in TrimEach(ps) {
        var i :| 0 <= i < |ps| && TrimEach(ps)[i] == x;
        assert Trim(ps[i]) == x;
      }
      if exists i :: 0 <= i < |ps| && Trim(ps[i]) == x {
        var i :| 0 <= i < |ps| && Trim(ps[i]) == x;
        assert TrimEach(ps)[i] == x;
      }
    }
  }

  lemma {:induction false} CleanPiecesFromSplit(ps: seq<String>)
    requires forall i :: 0 <= i < |ps| ==> ',' !in ps[i]
    ensures forall i :: 0 <= i < |CleanPieces(ps)| ==> ',' !in CleanPieces(ps)[i]
  {
    if ps != [] {
      CleanPiecesFromSplit(ps[1..]);
      TrimKeepsOut(ps[0], ',');
      var t := Trim(ps[0]);
      assert CleanPieces(ps) == (if t == [] then [] else [t]) + CleanPieces(ps[1..]);
    }
  }

  /** `trim` only removes characters. */
  lemma TrimKeepsOut(s: String, c: char)
    requires c !in s
    ensures c !in Trim(s)
  {
    var u := TrimStart(s);
    TrimStartFacts(s);
    TrimEndFacts(u);
    assert forall k :: 0 <= k < |u| ==> u[k] == s[|s| - |u| + k];
    assert c !in u;
    var t := Trim(s);
    assert forall k :: 0 <= k < |t| ==> t[k] == u[k];
  }

  /** A name or tag the list field can carry through a round trip. */
  predicate IsListItem(x: String) {
    x != [] && IsTrimmed(x) && ',' !in x
  }

  /** `xs.map(x => " " + x)`: the pieces `split(',')` yields after the first
      when the text was joined with `", "`. */
  function Spaced(xs: seq<String>): (r: seq<String>)
    ensures |r| == |xs|
    ensures forall i :: 0 <= i < |xs| ==> r[i] == [' '] + xs[i]
  {
    if xs == [] then [] else [[' '] + xs[0]] + Spaced(xs[1..])
  }

  lemma {:induction false} SplitJoinedList(xs: seq<String>)
    requires |xs| >= 1
    requires forall i :: 0 <= i < |xs| ==> ',' !in xs[i]
    ensures Split(Join(xs, ", "), ',') == [xs[0]] + Spaced(xs[1..])
  {
    if |xs| == 1 {
      SplitWithoutSeparator(xs[0], ',');
    } else {
      var tail := Join(xs[1..], ", ");
      assert Join(xs, ", ") == xs[0] + [','] + ([' '] + tail);
      SplitAfterPiece(xs[0], [' '] + tail, ',');
      SplitJoinedList(xs[1..]);
      assert Split([' '] + tail, ',') == [[' '] + xs[1]] + Spaced(xs[2..]) by {
        assert ([' '] + tail)[1..] == tail;
      }
      assert xs[1..][1..] == xs[2..];
      assert Spaced(xs[1..]) == [[' '] + xs[1]] + Spaced(xs[2..]);
    }
  }

  lemma {:induction false} CleanSpaced(xs: seq<String>)
    requires forall i :: 0 <= i < |xs| ==> IsListItem(xs[i])
    ensures CleanPieces(Spaced(xs)) == xs
  {
    if xs != [] {
      var rest := Spaced(xs[1..]);
      CleanSpaced(xs[1..]);
      TrimSpaced(xs[0]);
      assert Spaced(xs) == [[' '] + xs[0]] + rest;
      CleanPiecesCons([' '] + xs[0], rest);
      assert CleanPieces(Spaced(xs)) == [xs[0]] + xs[1..];
    }
  }

  /** The space `", "` leaves in front of an item is trimmed away. */
  lemma TrimSpaced(x: String)
    requires IsListItem(x)
    ensures Trim([' '] + x) == x
  {
    assert ([' '] + x)[1..] == x;
    TrimOfTrimmed(x);
  }

  /** A piece that does not trim to nothing contributes its trimmed text. */
  lemma CleanPiecesCons(p: String, rest: seq<String>)
    requires Trim(p) != []
    ensures CleanPieces([p] + rest) == [Trim(p)] + CleanPieces(rest)
  {
    assert ([p] + rest)[1..] == rest;
  }

  /** Editing a record shows its list as `xs.join(", ")`; saving parses the
      text back. For non-empty, trimmed names without commas the list comes
      back unchanged. */
  lemma {:induction false} ParseJoinRoundTrip(xs: seq<String>)
    requires forall i :: 0 <= i < |xs| ==> IsListItem(xs[i])
    ensures ParseCommaList(Join(xs, ", ")) == xs
  {
    if xs != [] {
      var text := Join(xs, ", ");
      JoinStartsWithFirst(xs);
      SplitJoinedList(xs);
      assert ParseCommaList(text) == CleanPieces([xs[0]] + Spaced(xs[1..]));
      TrimOfTrimmed(xs[0]);
      CleanPiecesCons(xs[0], Spaced(xs[1..]));
      CleanSpaced(xs[1..]);
      assert [xs[0]] + xs[1..] == xs;
    }
  }

  lemma JoinStartsWithFirst(xs: seq<String>)
    requires |xs| >= 1 && xs[0] != []
    ensures Join(xs, ", ") != []
  {
    if |xs| > 1 {
      assert Join(xs, ", ") == xs[0] + ", " + Join(xs[1..], ", ");
    }
  }

  // ---------------------------------------------------------------------
  // searching and comparing

  predicate IsPrefix(q: String, s: String) {
    |q| <= |s| && s[..|q|] == q
  }

  /** `s.includes(q)` */
  predicate Contains(s: String, q: String) {
    IsPrefix(q, s) || (s != [] && Contains(s[1..], q))
  }

  /** Every string includes the empty string, so an empty query matches. */
  lemma ContainsEmpty(s: String)
    ensures Contains(s, [])
  {
    assert s[0..0] == [];
  }

  function LowerChar(c: char): char {
    if 'A' <= c <= 'Z' then (c as int + 32) as char else c
  }

  function UpperChar(c: char): char {
    if 'a' <= c <= 'z' then (c as int - 32) as char else c
  }

  /** `s.toLowerCase()`, for ASCII letters */
  function Lower(s: String): (r: String)
    ensures |r| == |s|
    ensures forall i :: 0 <= i < |s| ==> r[i] == LowerChar(s[i])
  {
    seq(|s|, i requires 0 <= i < |s| => LowerChar(s[i]))
  }

  /** `s.toUpperCase()`, for ASCII letters */
  function Upper(s: String): (r: String)
    ensures |r| == |s|
    ensures forall i :: 0 <= i < |s| ==> r[i] == UpperChar(s[i])
  {
    seq(|s|, i requires 0 <= i < |s| => UpperChar(s[i]))
  }

  /** `s.toLowerCase().includes(q.toLowerCase())` */
  predicate ContainsIgnoringCase(s: String, q: String) {
    Contains(Lower(s), Lower(q))
  }

  /** The search ignores case: changing the case of ASCII letters in the text
      or the query does not change the answer. */
  lemma ContainsIgnoringCaseIsCaseBlind(s: String, q: String)
    ensures ContainsIgnoringCase(s, q) == ContainsIgnoringCase(Upper(s), q)
    ensures ContainsIgnoringCase(s, q) == ContainsIgnoringCase(s, Upper(q))
  {
    LowerUpper(s);
    LowerUpper(q);
  }

  lemma LowerUpper(s: String)
    ensures Lower(Upper(s)) == Lower(s)
  {
  }

  /** `a < b` on strings: lexicographic order on characters. */
  predicate Less(a: String, b: String) {
    if a == [] then b != []
    else if b == [] then false
    else if a[0] != b[0] then a[0] < b[0]
    else Less(a[1..], b[1..])
  }

  /** For strings of one length, the order is decided at the first character
      where they differ. */
  lemma {:induction false} LessAtFirstDifference(a: String, b: String, k: nat)
    requires |a| == |b| && k < |a|
    requires a[..k] == b[..k] && a[k] != b[k]
    ensures Less(a, b) <==> a[k] < b[k]
  {
    if k > 0 {
      assert a[0] == a[..k][0] == b[..k][0] == b[0];
      assert a[1..][..k - 1] == a[..k][1..];
      assert b[1..][..k - 1] == b[..k][1..];
      LessAtFirstDifference(a[1..], b[1..], k - 1);
    }
  }

  lemma {:induction false} NotLessSelf(a: String)
    ensures !Less(a, a)
  {
    if a != [] {
      NotLessSelf(a[1..]);
    }
  }
}
