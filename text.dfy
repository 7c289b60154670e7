/**
 * Character and string helpers shared by the pages: ASCII whitespace (the
 * characters JavaScript's `\s` and `trim` and Python's `str.lower` agree on in
 * ASCII), trimming, lower-casing, splitting and joining.
 */
module Text {

  /** ASCII whitespace: space, tab, line feed, vertical tab, form feed, carriage return. */
  predicate IsSpace(c: char) {
    c == ' ' || c == '\t' || c == '\n' || c == '\r' || c == '\U{0B}' || c == '\U{0C}'
  }

  predicate IsUpper(c: char) {
    'A' <= c <= 'Z'
  }

  /** ASCII lower-casing of one character; every other character is left alone. */
  function LowerChar(c: char): (l: char)
    ensures IsUpper(c) ==> l as int == c as int + 32
    ensures !IsUpper(c) ==> l == c
    ensures !IsUpper(l)
  {
    if IsUpper(c) then (c as int + 32) as char else c
  }

  /** `toLowerCase()` / `str.lower()` restricted to ASCII letters. */
  function Lower(s: string): (r: string)
    ensures |r| == |s|
    ensures forall i :: 0 <= i < |s| ==> r[i] == LowerChar(s[i])
  {
    seq(|s|, i requires 0 <= i < |s| => LowerChar(s[i]))
  }

  lemma LowerIdempotent(s: string)
    ensures Lower(Lower(s)) == Lower(s)
  {
  }

  lemma LowerAppend(s: string, t: string)
    ensures Lower(s + t) == Lower(s) + Lower(t)
  {
  }

  predicate NoSpace(s: string) {
    forall i :: 0 <= i < |s| ==> !IsSpace(s[i])
  }

  /** The number of whitespace characters at the start of `s`. */
  function Leading(s: string): (a: nat)
    ensures a <= |s|
    ensures forall i :: 0 <= i < a ==> IsSpace(s[i])
    ensures a < |s| ==> !IsSpace(s[a])
  {
    if s != [] && IsSpace(s[0]) then 1 + Leading(s[1..]) else 0
  }

  /** The length of `s` without the whitespace at its end. */
  function Kept(s: string): (b: nat)
    ensures b <= |s|
    ensures forall i :: b <= i < |s| ==> IsSpace(s[i])
    ensures b > 0 ==> !IsSpace(s[b - 1])
  {
    if s != [] && IsSpace(s[|s| - 1]) then Kept(s[..|s| - 1]) else |s|
  }

  /**
   * `String.prototype.trim`: the longest middle part of `s` that neither starts
   * nor ends with whitespace; only whitespace is removed around it.
   */
  function Trim(s: string): (r: string)
    ensures r == [] || (!IsSpace(r[0]) && !IsSpace(r[|r| - 1]))
    ensures var a := Leading(s);
              a + |r| <= |s| && r == s[a..a + |r|]
              && (forall i :: 0 <= i < a ==> IsSpace(s[i]))
              && (forall i :: a + |r| <= i < |s| ==> IsSpace(s[i]))
    ensures NoSpace(s) ==> r == s
  {
    var a := Leading(s);
    var t := s[a..];
    var b := Kept(t);
    assert forall i :: a + b <= i < |s| ==> s[i] == t[i - a];
    assert NoSpace(s) ==> a == 0 && b == |t|;
    s[a..a + b]
  }

  /** Every character of `Trim(s)` is a character of `s`. */
  lemma TrimChars(s: string, c: char)
    requires c in Trim(s)
    ensures c in s
  {
    var r := Trim(s);
    var a := Leading(s);
    var k :| 0 <= k < |r| && r[k] == c;
    assert s[a + k] == c;
  }

  /** No character of `s` is in `cs`. */
  predicate Avoids(s: string, cs: set<char>) {
    forall j :: 0 <= j < |s| ==> s[j] !in cs
  }

  /**
   * `s.split(...)` at every character of `seps`: the pieces between
   * consecutive separators, empty ones included, and always at least one
   * piece (`"".split(",")` is `[""]`).
   */
  function SplitWhere(s: string, seps: set<char>): (pieces: seq<string>)
    ensures |pieces| >= 1
    ensures forall i :: 0 <= i < |pieces| ==> Avoids(pieces[i], seps)
  {
    if s == [] then [[]]
    else
      var rest := SplitWhere(s[1..], seps);
      if s[0] in seps then [[]] + rest
      else [[s[0]] + rest[0]] + rest[1..]
  }

  /** `parts.join(sep)`: `[]` joins to the empty string. */
  function Join(parts: seq<string>, sep: string): string
  {
    if |parts| == 0 then []
    else if |parts| == 1 then parts[0]
    else parts[0] + sep + Join(parts[1..], sep)
  }

  /** Joining the pieces of a split on one character with that character gives the text back. */
  lemma {:induction false} JoinSplit(s: string, c: char)
    ensures Join(SplitWhere(s, {c}), [c]) == s
  {
    if s != [] {
      var rest := SplitWhere(s[1..], {c});
      JoinSplit(s[1..], c);
      if s[0] == c {
        assert SplitWhere(s, {c}) == [[]] + rest;
        assert ([[]] + rest)[1..] == rest;
      } else {
        var pieces := [[s[0]] + rest[0]] + rest[1..];
        assert SplitWhere(s, {c}) == pieces;
        assert pieces[1..] == rest[1..];
        if |rest| > 1 {
          assert Join(rest, [c]) == rest[0] + [c] + Join(rest[1..], [c]);
        }
      }
    }
  }

  /** Text without a separator is one piece. */
  lemma {:induction false} SplitWithoutSeparator(s: string, seps: set<char>)
    requires Avoids(s, seps)
    ensures SplitWhere(s, seps) == [s]
  {
    if s != [] {
      SplitWithoutSeparator(s[1..], seps);
      assert [s[0]] + s[1..] == s;
    }
  }

  /** A separator ends the piece in front of it. */
  lemma {:induction false} SplitAfterPiece(p: string, c: char, rest: string, seps: set<char>)
    requires c in seps && Avoids(p, seps)
    ensures SplitWhere(p + [c] + rest, seps) == [p] + SplitWhere(rest, seps)
  {
    if p == [] {
      assert [] + [c] + rest == [c] + rest;
      assert ([c] + rest)[1..] == rest;
    } else {
      SplitAfterPiece(p[1..], c, rest, seps);
      var s := p + [c] + rest;
      assert s[0] == p[0] && s[1..] == p[1..] + [c] + rest;
      assert [p[0]] + p[1..] == p;
    }
  }

  /**
   * Splitting at a set of separators undoes joining with any one of them,
   * provided no piece holds a separator: the other half of `JoinSplit`.
   */
  lemma {:induction false} SplitJoin(parts: seq<string>, c: char, seps: set<char>)
    requires c in seps && |parts| >= 1
    requires forall i :: 0 <= i < |parts| ==> Avoids(parts[i], seps)
    ensures SplitWhere(Join(parts, [c]), seps) == parts
  {
    if |parts| == 1 {
      SplitWithoutSeparator(parts[0], seps);
    } else {
      SplitJoin(parts[1..], c, seps);
      SplitAfterPiece(parts[0], c, Join(parts[1..], [c]), seps);
      assert [parts[0]] + parts[1..] == parts;
    }
  }

  /** Text that neither starts nor ends with whitespace is its own trim. */
  lemma TrimKeeps(s: string)
    requires s == [] || (!IsSpace(s[0]) && !IsSpace(s[|s| - 1]))
    ensures Trim(s) == s
  {
  }

  /** `filter(Boolean)` on strings: keeps the non-empty ones, in order. */
  function DropEmpty(ss: seq<string>): (r: seq<string>)
    ensures |r| <= |ss|
    ensures forall i :: 0 <= i < |r| ==> r[i] != [] && r[i] in ss
    ensures forall i :: 0 <= i < |ss| && ss[i] != [] ==> ss[i] in r
  {
    if ss == [] then []
    else (if ss[0] == [] then [] else [ss[0]]) + DropEmpty(ss[1..])
  }

  /** Dropping the empty strings from a list that has none changes nothing. */
  lemma {:induction false} DropEmptyKeeps(ss: seq<string>)
    requires forall i :: 0 <= i < |ss| ==> ss[i] != []
    ensures DropEmpty(ss) == ss
  {
    if ss != [] {
      DropEmptyKeeps(ss[1..]);
      assert [ss[0]] + ss[1..] == ss;
    }
  }

  /** Filtering a concatenation filters each part: the kept strings stay in order, repeats included. */
  lemma {:induction false} DropEmptyAppend(a: seq<string>, b: seq<string>)
    ensures DropEmpty(a + b) == DropEmpty(a) + DropEmpty(b)
  {
    if a == [] {
      assert a + b == b;
    } else {
      var h := if a[0] == [] then [] else [a[0]];
      DropEmptyAppend(a[1..], b);
      DropEmptyHead(a, b);
      DropEmptyFirst(a);
      Regroup(DropEmpty(a + b), DropEmpty(a), h, DropEmpty(a[1..] + b), DropEmpty(a[1..]), DropEmpty(b));
    }
  }

  /** `h` in front of `t + r` is `h + t` in front of `r`. */
  lemma Regroup(l: seq<string>, la: seq<string>, h: seq<string>, m: seq<string>, t: seq<string>, r: seq<string>)
    requires l == h + m && m == t + r && la == h + t
    ensures l == la + r
  {
  }

  /** The first string is kept or dropped, in front of the rest. */
  lemma DropEmptyFirst(a: seq<string>)
    requires a != []
    ensures DropEmpty(a) == (if a[0] == [] then [] else [a[0]]) + DropEmpty(a[1..])
  {
  }

  /** The first string of `a` is kept or dropped, in front of the rest of `a + b`. */
  lemma DropEmptyHead(a: seq<string>, b: seq<string>)
    requires a != []
    ensures DropEmpty(a + b) == (if a[0] == [] then [] else [a[0]]) + DropEmpty(a[1..] + b)
  {
    assert (a + b)[0] == a[0] && (a + b)[1..] == a[1..] + b;
  }

  /** One string is kept exactly when it is non-empty. */
  lemma DropEmptyOne(s: string)
    ensures DropEmpty([s]) == if s == [] then [] else [s]
  {
    assert DropEmpty([s]) == (if s == [] then [] else [s]) + DropEmpty([]);
  }

  /**
   * A separator cuts the text in two: the pieces of the whole are the pieces
   * before it followed by the pieces after it.
   */
  lemma {:induction false} SplitAt(a: string, c: char, b: string, seps: set<char>)
    requires c in seps
    ensures SplitWhere(a + [c] + b, seps) == SplitWhere(a, seps) + SplitWhere(b, seps)
  {
    if a == [] {
      assert [] + [c] + b == [c] + b;
      SplitCons(c, b, seps);
      Regroup(SplitWhere([c] + b, seps), [[]], [[]], SplitWhere(b, seps), [], SplitWhere(b, seps));
    } else {
      var x, t := a[0], a[1..];
      var whole, rest := a + [c] + b, t + [c] + b;
      assert a == [x] + t && whole == [x] + rest;
      SplitAt(t, c, b, seps);
      SplitCons(x, t, seps);
      SplitCons(x, rest, seps);
      var m, pa, pb := SplitWhere(rest, seps), SplitWhere(t, seps), SplitWhere(b, seps);
      if x in seps {
        Regroup(SplitWhere(whole, seps), SplitWhere(a, seps), [[]], m, pa, pb);
      } else {
        RegroupFirst(SplitWhere(whole, seps), SplitWhere(a, seps), [x], m, pa, pb);
      }
    }
  }

  /** `h` glued onto the first piece of `t + r` is `h` glued onto the first piece of `t`, then `r`. */
  lemma RegroupFirst(l: seq<string>, la: seq<string>, h: string, m: seq<string>, t: seq<string>, r: seq<string>)
    requires |t| >= 1 && m == t + r
    requires l == [h + m[0]] + m[1..] && la == [h + t[0]] + t[1..]
    ensures l == la + r
  {
    assert m[0] == t[0] && m[1..] == t[1..] + r;
  }

  /** `SplitWhere` on text with a known first character. */
  lemma SplitCons(x: char, t: string, seps: set<char>)
    ensures x in seps ==> SplitWhere([x] + t, seps) == [[]] + SplitWhere(t, seps)
    ensures x !in seps ==>
              SplitWhere([x] + t, seps) == [[x] + SplitWhere(t, seps)[0]] + SplitWhere(t, seps)[1..]
  {
    assert ([x] + t)[0] == x && ([x] + t)[1..] == t;
  }

  /** Trimming each of two lists and concatenating is trimming the concatenation. */
  lemma TrimAllAppend(a: seq<string>, b: seq<string>)
    ensures TrimAll(a + b) == TrimAll(a) + TrimAll(b)
  {
    PointwiseAppend(Trim, a, b, TrimAll(a + b), TrimAll(a), TrimAll(b));
  }

  /** Lists that apply `f` pointwise to `a`, `b` and `a + b` line up. */
  lemma PointwiseAppend(f: string -> string, a: seq<string>, b: seq<string>,
                        l: seq<string>, la: seq<string>, lb: seq<string>)
    requires |l| == |a + b| && forall i :: 0 <= i < |a + b| ==> l[i] == f((a + b)[i])
    requires |la| == |a| && forall i :: 0 <= i < |a| ==> la[i] == f(a[i])
    requires |lb| == |b| && forall i :: 0 <= i < |b| ==> lb[i] == f(b[i])
    ensures l == la + lb
  {
    forall i | 0 <= i < |l| ensures l[i] == (la + lb)[i] {
      if i < |a| {
        assert (a + b)[i] == a[i];
      } else {
        assert (a + b)[i] == b[i - |a|];
      }
    }
  }

  /** The non-empty trimmed pieces of `s` split at `seps`: what both parsers produce. */
  function CleanPieces(s: string, seps: set<char>): seq<string> {
    DropEmpty(TrimAll(SplitWhere(s, seps)))
  }

  /** The clean pieces of text cut at a separator are those before it, then those after it. */
  lemma CleanPiecesAt(a: string, c: char, b: string, seps: set<char>)
    requires c in seps
    ensures CleanPieces(a + [c] + b, seps) == CleanPieces(a, seps) + CleanPieces(b, seps)
  {
    SplitAt(a, c, b, seps);
    TrimAllAppend(SplitWhere(a, seps), SplitWhere(b, seps));
    DropEmptyAppend(TrimAll(SplitWhere(a, seps)), TrimAll(SplitWhere(b, seps)));
  }

  /** A non-empty run of separators cuts the clean pieces like a single separator. */
  lemma CleanPiecesAcrossRun(a: string, run: string, b: string, seps: set<char>)
    requires run != [] && forall j :: 0 <= j < |run| ==> run[j] in seps
    ensures CleanPieces(a + run + b, seps) == CleanPieces(a, seps) + CleanPieces(b, seps)
  {
    var c, more := run[0], run[1..];
    assert a + run + b == a + [c] + (more + b) by {
      assert run == [c] + more;
    }
    CleanPiecesAt(a, c, more + b, seps);
    SeparatorsFirst(more, b, seps);
  }

  /** Separators in front of the text add no clean piece. */
  lemma {:induction false} SeparatorsFirst(run: string, b: string, seps: set<char>)
    requires forall j :: 0 <= j < |run| ==> run[j] in seps
    ensures CleanPieces(run + b, seps) == CleanPieces(b, seps)
  {
    if run == [] {
      assert run + b == b;
    } else {
      var c, more := run[0], run[1..];
      assert run + b == [] + [c] + (more + b) by {
        assert run == [c] + more;
      }
      CleanPiecesAt([], c, more + b, seps);
      CleanPiecesOfNothing(seps);
      SeparatorsFirst(more, b, seps);
    }
  }

  lemma CleanPiecesOfNothing(seps: set<char>)
    ensures CleanPieces([], seps) == []
  {
    CleanPiecesOfPiece([], seps);
  }

  /** Text without a separator is at most one clean piece: its trim, if that is not empty. */
  lemma CleanPiecesOfPiece(p: string, seps: set<char>)
    requires Avoids(p, seps)
    ensures CleanPieces(p, seps) == if Trim(p) == [] then [] else [Trim(p)]
  {
    SplitWithoutSeparator(p, seps);
    assert TrimAll([p]) == [Trim(p)];
    DropEmptyOne(Trim(p));
  }

  /** `map((s) => s.trim())`. */
  function TrimAll(ss: seq<string>): (r: seq<string>)
    ensures |r| == |ss| && forall i :: 0 <= i < |ss| ==> r[i] == Trim(ss[i])
  {
    seq(|ss|, i requires 0 <= i < |ss| => Trim(ss[i]))
  }
}
