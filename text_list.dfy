/**
 * The delimiter-list normaliser of the edit forms: a text field is split on one
 * delimiter character, every piece is trimmed with JavaScript's `String.prototype.trim`
 * and empty pieces are dropped (`split(d).map(x => x.trim()).filter(Boolean)`).
 * The edit dialogs fill the text field back in with `join`.
 */
module TextList {

  /** The characters `trim` removes: ECMAScript WhiteSpace and LineTerminator. */
  const Whitespace: set<char> := {
    '\t', '\n', '\U{000B}', '\U{000C}', '\r', ' ', '\U{00A0}', '\U{1680}',
    '\U{2000}', '\U{2001}', '\U{2002}', '\U{2003}', '\U{2004}', '\U{2005}',
    '\U{2006}', '\U{2007}', '\U{2008}', '\U{2009}', '\U{200A}',
    '\U{2028}', '\U{2029}', '\U{202F}', '\U{205F}', '\U{3000}', '\U{FEFF}'
  }

  predicate IsWhitespace(c: char) {
    c in Whitespace
  }

  /** A string with no whitespace at either end. */
  predicate IsTrimmed(s: string) {
    s == [] || (!IsWhitespace(s[0]) && !IsWhitespace(s[|s| - 1]))
  }

  function TrimStart(s: string): (r: string)
    ensures r == [] || !IsWhitespace(r[0])
    ensures forall c :: c in r ==> c in s
  {
    if |s| > 0 && IsWhitespace(s[0]) then TrimStart(s[1..]) else s
  }

  function TrimEnd(s: string): (r: string)
    ensures r == [] || !IsWhitespace(r[|r| - 1])
    ensures r != [] ==> s != [] && r[0] == s[0]
    ensures forall c :: c in r ==> c in s
  {
    if |s| > 0 && IsWhitespace(s[|s| - 1]) then TrimEnd(s[..|s| - 1]) else s
  }

  /** `s.trim()`: the result has no whitespace at either end and is a piece of `s`. */
  function Trim(s: string): (r: string)
    ensures IsTrimmed(r)
    ensures forall c :: c in r ==> c in s
  {
    var t := TrimStart(s);
    var r := TrimEnd(t);
    assert r != [] ==> r[0] == t[0];
    assert forall c :: c in r ==> c in t;
    assert forall c :: c in t ==> c in s;
    r
  }

  /** No string of `xs` holds the character `d`. */
  predicate NoneContains(xs: seq<string>, d: char) {
    forall i :: 0 <= i < |xs| ==> d !in xs[i]
  }

  /** `s.split(d)` for a one-character separator: never empty, no piece holds `d`. */
  function Split(s: string, d: char): (r: seq<string>)
    ensures |r| >= 1
    ensures NoneContains(r, d)
  {
    if s == [] then [[]]
    else
      var rest := Split(s[1..], d);
      if s[0] == d then [[]] + rest
      else [[s[0]] + rest[0]] + rest[1..]
  }

  /** `parts.join(sep)`; joining no parts gives the empty string. */
  function Join(parts: seq<string>, sep: string): (r: string)
    ensures |parts| == 0 ==> r == []
    ensures |parts| == 1 ==> r == parts[0]
  {
    if |parts| == 0 then []
    else if |parts| == 1 then parts[0]
    else parts[0] + sep + Join(parts[1..], sep)
  }

  /** `.map(x => x.trim()).filter(Boolean)`: trim each piece and keep the non-empty ones. */
  function Clean(pieces: seq<string>): (r: seq<string>)
    ensures |r| <= |pieces|
    ensures forall i :: 0 <= i < |r| ==> r[i] != [] && IsTrimmed(r[i])
    ensures forall d :: NoneContains(pieces, d) ==> NoneContains(r, d)
  {
    if pieces == [] then []
    else
      var t := Trim(pieces[0]);
      var rest := Clean(pieces[1..]);
      var r := (if t == [] then [] else [t]) + rest;
      assert forall d :: NoneContains(pieces, d) ==> NoneContains(r, d) by {
        forall d | NoneContains(pieces, d)
          ensures NoneContains(r, d)
        {
          assert d !in pieces[0] && d !in t;
          assert NoneContains(pieces[1..], d) by {
            forall i | 0 <= i < |pieces[1..]| ensures d !in pieces[1..][i] {
              assert pieces[1..][i] == pieces[i + 1];
            }
          }
        }
      }
      r
  }

  /** The normaliser applied on save: no element of the result is empty, has
      surrounding whitespace or holds the delimiter. */
  function Normalise(s: string, d: char): (r: seq<string>)
    ensures forall i :: 0 <= i < |r| ==> r[i] != [] && IsTrimmed(r[i]) && d !in r[i]
  {
    Clean(Split(s, d))
  }

  /** Elements the edit dialog can join and the normaliser gets back unchanged. */
  predicate Normalised(xs: seq<string>, d: char) {
    forall i :: 0 <= i < |xs| ==> xs[i] != [] && IsTrimmed(xs[i]) && d !in xs[i]
  }

  // ---------------------------------------------------------------------------
  // Split and join are inverse to each other.

  /** Joining the pieces of a split with the separator gives the text back. */
  lemma {:induction false} JoinSplit(s: string, d: char)
    ensures Join(Split(s, d), [d]) == s
  {
    if s != [] {
      var rest := Split(s[1..], d);
      JoinSplit(s[1..], d);
      if s[0] == d {
        assert Split(s, d) == [[]] + rest;
        assert ([[]] + rest)[1..] == rest;
      } else {
        var r := Split(s, d);
        assert r == [[s[0]] + rest[0]] + rest[1..];
        if |rest| == 1 {
          assert Join(r, [d]) == [s[0]] + rest[0];
        } else {
          assert r[1..] == rest[1..];
          assert Join(rest, [d]) == rest[0] + [d] + Join(rest[1..], [d]);
          calc {
            Join(r, [d]);
            ([s[0]] + rest[0]) + [d] + Join(rest[1..], [d]);
            [s[0]] + (rest[0] + [d] + Join(rest[1..], [d]));
            [s[0]] + s[1..];
          }
        }
      }
    }
  }

  /** Text without the delimiter splits into itself alone. */
  lemma {:induction false} SplitWithoutDelimiter(x: string, d: char)
    requires d !in x
    ensures Split(x, d) == [x]
  {
    if x != [] {
      SplitWithoutDelimiter(x[1..], d);
      var rest := Split(x[1..], d);
      assert rest == [x[1..]];
      assert x[0] != d;
      assert Split(x, d) == [[x[0]] + rest[0]] + rest[1..];
      assert [x[0]] + x[1..] == x;
    }
  }

  /** A piece followed by the delimiter is split off as the first piece. */
  lemma {:induction false} SplitAtDelimiter(x: string, t: string, d: char)
    requires d !in x
    ensures Split(x + [d] + t, d) == [x] + Split(t, d)
  {
    var s := x + [d] + t;
    if x == [] {
      assert s[0] == d && s[1..] == t;
      assert Split(s, d) == [[]] + Split(t, d);
    } else {
      assert s[0] == x[0] && s[1..] == x[1..] + [d] + t;
      SplitAtDelimiter(x[1..], t, d);
      var rest := Split(s[1..], d);
      assert rest == [x[1..]] + Split(t, d);
      assert Split(s, d) == [[x[0]] + rest[0]] + rest[1..];
      assert [x[0]] + x[1..] == x;
      assert rest[1..] == Split(t, d);
    }
  }

  /** A delimiter-free prefix lands in the first piece. */
  lemma {:induction false} SplitPrefix(p: string, u: string, d: char)
    requires d !in p
    ensures Split(p + u, d) == [p + Split(u, d)[0]] + Split(u, d)[1..]
  {
    if p != [] {
      var s := p + u;
      assert s[0] == p[0] && s[1..] == p[1..] + u;
      SplitPrefix(p[1..], u, d);
      var su := Split(u, d);
      var rest := Split(s[1..], d);
      assert rest == [p[1..] + su[0]] + su[1..];
      assert p[0] != d;
      assert Split(s, d) == [[p[0]] + rest[0]] + rest[1..];
      assert [p[0]] + (p[1..] + su[0]) == p + su[0];
    } else {
      assert p + u == u;
      var su := Split(u, d);
      assert su == [su[0]] + su[1..];
      assert p + su[0] == su[0];
    }
  }

  /** Leading whitespace does not change what `trim` gives. */
  lemma {:induction false} TrimStartSkipsWhitespace(p: string, y: string)
    requires forall c :: c in p ==> IsWhitespace(c)
    ensures TrimStart(p + y) == TrimStart(y)
  {
    if p != [] {
      assert (p + y)[0] == p[0] && (p + y)[1..] == p[1..] + y;
      assert IsWhitespace(p[0]);
      TrimStartSkipsWhitespace(p[1..], y);
      assert TrimStart(p + y) == TrimStart(p[1..] + y);
    } else {
      assert p + y == y;
    }
  }

  /** Trailing whitespace does not change what `trim` gives. */
  lemma {:induction false} TrimEndSkipsWhitespace(y: string, q: string)
    requires forall c :: c in q ==> IsWhitespace(c)
    ensures TrimEnd(y + q) == TrimEnd(y)
  {
    if q != [] {
      var s := y + q;
      var q' := q[..|q| - 1];
      assert s[|s| - 1] == q[|q| - 1] && s[..|s| - 1] == y + q';
      assert IsWhitespace(q[|q| - 1]);
      assert forall c :: c in q' ==> c in q;
      TrimEndSkipsWhitespace(y, q');
      assert TrimEnd(s) == TrimEnd(y + q');
    } else {
      assert y + q == y;
    }
  }

  /** A trimmed word with whitespace around it trims to the word. */
  lemma TrimAround(p: string, w: string, q: string)
    requires forall c :: c in p ==> IsWhitespace(c)
    requires forall c :: c in q ==> IsWhitespace(c)
    requires w != [] && IsTrimmed(w)
    ensures Trim(p + w + q) == w
  {
    assert p + w + q == p + (w + q);
    TrimStartSkipsWhitespace(p, w + q);
    assert (w + q)[0] == w[0];
    assert TrimStart(w + q) == w + q;
    TrimEndSkipsWhitespace(w, q);
    assert TrimEnd(w) == w;
  }

  lemma TrimOfTrimmed(x: string)
    requires IsTrimmed(x)
    ensures Trim(x) == x
  {
  }

  /** A normalised element followed by the separator is normalised to itself
      in front of the normalised rest. */
  lemma NormaliseStep(x: string, d: char, pad: string, u: string)
    requires x != [] && IsTrimmed(x) && d !in x
    requires forall c :: c in pad ==> IsWhitespace(c) && c != d
    ensures Normalise(x + [d] + (pad + u), d) == [x] + Normalise(u, d)
  {
    SplitAtDelimiter(x, pad + u, d);
    var su := Split(u, d);
    var st := Split(pad + u, d);
    SplitPrefix(pad, u, d);
    TrimStartSkipsWhitespace(pad, su[0]);
    assert Trim(pad + su[0]) == Trim(su[0]);
    CleanCons(pad + su[0], su[1..]);
    CleanCons(su[0], su[1..]);
    assert su == [su[0]] + su[1..];
    TrimOfTrimmed(x);
    CleanCons(x, st);
  }

  lemma NormaliseWord(x: string, d: char)
    requires x != [] && IsTrimmed(x) && d !in x
    ensures Normalise(x, d) == [x]
  {
    SplitWithoutDelimiter(x, d);
    TrimOfTrimmed(x);
    CleanCons(x, []);
  }

  /** Round trip of the edit dialog: normalising the `join` of a normalised list,
      with a separator made of the delimiter and whitespace, gives the list back. */
  lemma {:induction false} NormaliseJoin(xs: seq<string>, d: char, pad: string)
    requires Normalised(xs, d)
    requires forall c :: c in pad ==> IsWhitespace(c) && c != d
    ensures Normalise(Join(xs, [d] + pad), d) == xs
  {
    var sep := [d] + pad;
    if |xs| == 0 {
      assert Split([], d) == [[]];
      CleanCons([], []);
    } else if |xs| == 1 {
      NormaliseWord(xs[0], d);
    } else {
      var x, rest := xs[0], xs[1..];
      assert Normalised(rest, d);
      NormaliseJoin(rest, d, pad);
      var u := Join(rest, sep);
      assert Join(xs, sep) == x + [d] + (pad + u);
      NormaliseStep(x, d, pad, u);
      assert xs == [x] + rest;
    }
  }

  /** The projects form: technologies are joined with ", " and split on ','. */
  lemma TechnologiesRoundTrip(xs: seq<string>)
    requires Normalised(xs, ',')
    ensures Normalise(Join(xs, ", "), ',') == xs
  {
    assert ' ' in Whitespace;
    assert [','] + " " == ", ";
    NormaliseJoin(xs, ',', " ");
  }

  /** The experience and education forms: lines are joined with "\n" and split on '\n'. */
  lemma LinesRoundTrip(xs: seq<string>)
    requires Normalised(xs, '\n')
    ensures Normalise(Join(xs, "\n"), '\n') == xs
  {
    assert ['\n'] + "" == "\n";
    NormaliseJoin(xs, '\n', "");
  }

  /** Cleaning a list cleans its first piece, then the rest. */
  lemma CleanCons(p: string, rest: seq<string>)
    ensures Clean([p] + rest) == (if Trim(p) == [] then [] else [Trim(p)]) + Clean(rest)
  {
  }

  /** Cleaning works piece by piece: it splits over concatenation, so the kept
      pieces stay in their order. */
  lemma {:induction false} CleanConcat(a: seq<string>, b: seq<string>)
    ensures Clean(a + b) == Clean(a) + Clean(b)
  {
    if a == [] {
      assert a + b == b;
    } else {
      assert a + b == [a[0]] + (a[1..] + b);
      assert a == [a[0]] + a[1..];
      CleanConcat(a[1..], b);
      CleanCons(a[0], a[1..] + b);
      CleanCons(a[0], a[1..]);
    }
  }

  /** Every piece whose trim is non-empty is kept as its trim, and nothing else is kept. */
  lemma {:induction false} CleanMembers(pieces: seq<string>)
    ensures forall i :: 0 <= i < |pieces| && Trim(pieces[i]) != [] ==> Trim(pieces[i]) in Clean(pieces)
    ensures forall x :: x in Clean(pieces) ==> exists i :: 0 <= i < |pieces| && x == Trim(pieces[i])
  {
    if pieces != [] {
      var rest := pieces[1..];
      CleanMembers(rest);
      CleanCons(pieces[0], rest);
      assert pieces == [pieces[0]] + rest;
      assert forall i :: 1 <= i < |pieces| ==> pieces[i] == rest[i - 1];
      forall x | x in Clean(pieces)
        ensures exists i :: 0 <= i < |pieces| && x == Trim(pieces[i])
      {
        if x !in Clean(rest) {
          assert x == Trim(pieces[0]);
        } else {
          var j :| 0 <= j < |rest| && x == Trim(rest[j]);
          assert x == Trim(pieces[j + 1]);
        }
      }
    }
  }

  /** Three delimiter-free pieces joined by the delimiter split back into them. */
  lemma SplitThree(x: string, y: string, z: string, d: char)
    requires d !in x && d !in y && d !in z
    ensures Split(x + [d] + (y + [d] + z), d) == [x, y, z]
  {
    SplitWithoutDelimiter(z, d);
    SplitAtDelimiter(y, z, d);
    SplitAtDelimiter(x, y + [d] + z, d);
    assert [x] + ([y] + [z]) == [x, y, z];
  }

  /** Four delimiter-free pieces joined by the delimiter split back into them. */
  lemma SplitFour(w: string, x: string, y: string, z: string, d: char)
    requires d !in w && d !in x && d !in y && d !in z
    ensures Split(w + [d] + (x + [d] + (y + [d] + z)), d) == [w, x, y, z]
  {
    SplitThree(x, y, z, d);
    SplitAtDelimiter(w, x + [d] + (y + [d] + z), d);
    assert [w] + [x, y, z] == [w, x, y, z];
  }

  /** The shape of "React, TypeScript ,Next.js": three names, the first separator
      followed by a space and the second preceded by one, normalise to the names. */
  lemma TechnologiesExample(a: string, b: string, c: string)
    requires Normalised([a, b, c], ',')
    ensures Normalise(a + ", " + b + " ," + c, ',') == [a, b, c]
  {
    assert [a, b, c][0] == a && [a, b, c][1] == b && [a, b, c][2] == c;
    var mid := " " + b + " ";
    assert a + ", " + b + " ," + c == a + [','] + (mid + [','] + c);
    assert ' ' in Whitespace;
    assert ',' !in mid;
    SplitThree(a, mid, c, ',');
    TrimOfTrimmed(a);
    TrimOfTrimmed(c);
    TrimAround(" ", b, " ");
    CleanCons(c, []);
    CleanCons(mid, [c]);
    assert [a, mid, c] == [a] + ([mid] + [c]);
    CleanCons(a, [mid] + [c]);
    assert [a] + ([b] + [c]) == [a, b, c];
  }

  /** The shape of "a\nb\n\n c ": a blank line is dropped and a padded line is
      trimmed, so three lines come back. */
  lemma LinesExample(a: string, b: string, c: string)
    requires Normalised([a, b, c], '\n')
    ensures Normalise(a + "\n" + b + "\n\n " + c + " ", '\n') == [a, b, c]
  {
    assert [a, b, c][0] == a && [a, b, c][1] == b && [a, b, c][2] == c;
    var last := " " + c + " ";
    assert a + "\n" + b + "\n\n " + c + " " == a + ['\n'] + (b + ['\n'] + ([] + ['\n'] + last));
    assert ' ' in Whitespace;
    assert '\n' !in last;
    SplitFour(a, b, [], last, '\n');
    TrimOfTrimmed(a);
    TrimOfTrimmed(b);
    TrimAround(" ", c, " ");
    CleanCons(last, []);
    CleanCons([], [last]);
    CleanCons(b, [[]] + [last]);
    assert [a, b, [], last] == [a] + ([b] + ([[]] + [last]));
    CleanCons(a, [b] + ([[]] + [last]));
    assert [a] + ([b] + [c]) == [a, b, c];
  }

  /** "React, TypeScript ,Next.js" is saved as three technology names. */
  lemma TechnologiesLiteral()
    ensures Normalise("React, TypeScript ,Next.js", ',') == ["React", "TypeScript", "Next.js"]
  {
    TechnologiesExample("React", "TypeScript", "Next.js");
    assert "React" + ", " + "TypeScript" + " ," + "Next.js" == "React, TypeScript ,Next.js";
  }

  /** "a\nb\n\n c " is saved as three lines. */
  lemma LinesLiteral()
    ensures Normalise("a\nb\n\n c ", '\n') == ["a", "b", "c"]
  {
    LinesExample("a", "b", "c");
    assert "a" + "\n" + "b" + "\n\n " + "c" + " " == "a\nb\n\n c ";
  }
}
