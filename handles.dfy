/**
 * The "add influencers" page (frontend/src/pages/AddInfluencersPage.tsx): the
 * handle parser and the page state that `add` updates.
 */
module Handles {
  import opened Maybe
  import opened Text
  import opened Api

  /** The regex class `[,\s\n]`: a comma or (ASCII) whitespace. */
  const HandleSeparators: set<char> := {',', ' ', '\t', '\n', '\r', '\U{0B}', '\U{0C}'}

  lemma SpacesAreSeparators(c: char)
    ensures IsSpace(c) ==> c in HandleSeparators
  {
  }

  /** `(h.startsWith("@") ? h.slice(1) : h).toLowerCase()`. */
  function Normalize(token: string): (h: string)
    ensures |token| > 0 && token[0] == '@' ==> h == Lower(token[1..])
    ensures !(|token| > 0 && token[0] == '@') ==> h == Lower(token)
  {
    Lower(if |token| > 0 && token[0] == '@' then token[1..] else token)
  }

  /**
   * The tokens `split(/[,\s\n]+/).map(trim).filter(Boolean)` yields. Splitting
   * at every single separator instead of at runs of them only adds empty
   * pieces, which the filter removes, so the tokens are the same.
   */
  function Tokens(raw: string): (ts: seq<string>)
  {
    CleanPieces(raw, HandleSeparators)
  }

  /** A separator cuts the token list where it cuts the text, keeping order and repeats. */
  lemma TokensAt(a: string, c: char, b: string)
    requires c in HandleSeparators
    ensures Tokens(a + [c] + b) == Tokens(a) + Tokens(b)
  {
    CleanPiecesAt(a, c, b, HandleSeparators);
  }

  /** Empty text has no tokens. */
  lemma TokensOfNothing()
    ensures Tokens([]) == []
  {
    CleanPiecesOfPiece([], HandleSeparators);
  }

  /**
   * A whole run of separators, such as `", "`, cuts the token list like a
   * single one: the run adds no token, which is why splitting at each
   * separator gives the tokens splitting at runs gives.
   */
  lemma {:induction false} TokensAcrossRun(a: string, run: string, b: string)
    requires run != [] && forall j :: 0 <= j < |run| ==> run[j] in HandleSeparators
    ensures Tokens(a + run + b) == Tokens(a) + Tokens(b)
  {
    CleanPiecesAcrossRun(a, run, b, HandleSeparators);
  }

  /**
   * Handles typed one after another, with the same non-empty run of
   * separators (one comma, `", "`, a line break, ...) between them, come back
   * as the tokens, in order.
   */
  lemma {:induction false} TokensOfJoinRun(hs: seq<string>, sep: string)
    requires sep != [] && forall j :: 0 <= j < |sep| ==> sep[j] in HandleSeparators
    requires forall i :: 0 <= i < |hs| ==> hs[i] != [] && Avoids(hs[i], HandleSeparators)
    ensures Tokens(Join(hs, sep)) == hs
  {
    if hs == [] {
      TokensOfNothing();
    } else if |hs| == 1 {
      SingleToken(hs[0]);
    } else {
      TokensOfJoinRun(hs[1..], sep);
      TokensAcrossRun(hs[0], sep, Join(hs[1..], sep));
      SingleToken(hs[0]);
      assert [hs[0]] + hs[1..] == hs;
    }
  }

  /**
   * Handles typed one after another with any one separator between them
   * come back as the tokens, in order.
   */
  lemma TokensOfJoin(hs: seq<string>, c: char)
    requires c in HandleSeparators && |hs| >= 1
    requires forall i :: 0 <= i < |hs| ==> hs[i] != [] && Avoids(hs[i], HandleSeparators)
    ensures Tokens(Join(hs, [c])) == hs
  {
    SplitJoin(hs, c, HandleSeparators);
    forall i | 0 <= i < |hs| ensures Trim(hs[i]) == hs[i] {
      forall j | 0 <= j < |hs[i]| ensures !IsSpace(hs[i][j]) {
        SpacesAreSeparators(hs[i][j]);
      }
    }
    assert TrimAll(hs) == hs;
    DropEmptyKeeps(hs);
  }

  /** Tokens are non-empty and hold no separator. */
  lemma TokensClean(raw: string)
    ensures forall i :: 0 <= i < |Tokens(raw)| ==> Tokens(raw)[i] != [] && Avoids(Tokens(raw)[i], HandleSeparators)
  {
    var pieces := SplitWhere(raw, HandleSeparators);
    var trimmed := TrimAll(pieces);
    forall i | 0 <= i < |pieces| ensures trimmed[i] == pieces[i] {
      forall j | 0 <= j < |pieces[i]| ensures !IsSpace(pieces[i][j]) {
        SpacesAreSeparators(pieces[i][j]);
      }
    }
    assert trimmed == pieces;
  }

  /** `x` occurs in `s`, and `k` is the position of its first occurrence. */
  function FirstIndex<T(==)>(s: seq<T>, x: T): (k: nat)
    requires x in s
    ensures k < |s| && s[k] == x
    ensures forall j :: 0 <= j < k ==> s[j] != x
  {
    if s[0] == x then 0 else 1 + FirstIndex(s[1..], x)
  }

  ghost predicate NoDuplicates<T>(s: seq<T>) {
    forall i, j :: 0 <= i < j < |s| ==> s[i] != s[j]
  }

  /** `Array.from(new Set(s))`: each value once, at the place it first occurs. */
  function Dedup(s: seq<string>): (r: seq<string>)
    ensures NoDuplicates(r)
    ensures forall x :: x in r <==> x in s
    decreases |s|
  {
    if s == [] then []
    else
      var d := Dedup(s[..|s| - 1]);
      var last := s[|s| - 1];
      assert s == s[..|s| - 1] + [last];
      if last in d then d else d + [last]
  }

  /** A prefix that contains `x` finds the same first occurrence. */
  lemma FirstIndexPrefix<T>(s: seq<T>, n: nat, x: T)
    requires n <= |s| && x in s[..n]
    ensures FirstIndex(s, x) == FirstIndex(s[..n], x)
  {
    var k := FirstIndex(s[..n], x);
    var f := FirstIndex(s, x);
    assert s[k] == s[..n][k];
    assert f <= k;
    assert f >= k by {
      assert forall j :: 0 <= j < k ==> s[j] == s[..n][j];
    }
  }

  /** `Dedup` lists the values in the order of their first occurrences. */
  lemma {:induction false} DedupKeepsFirstOccurrenceOrder(s: seq<string>)
    ensures forall i, j :: 0 <= i < j < |Dedup(s)| ==> FirstIndex(s, Dedup(s)[i]) < FirstIndex(s, Dedup(s)[j])
    decreases |s|
  {
    if s != [] {
      var n := |s| - 1;
      var d := Dedup(s[..n]);
      DedupKeepsFirstOccurrenceOrder(s[..n]);
      PrefixOrder(s, n, d);
      if s[n] !in d {
        assert s[n] !in s[..n];
        assert Dedup(s) == d + [s[n]];
        AppendLastOrder(s, d, d + [s[n]]);
      }
    }
  }

  /** Values ordered by first occurrence in a prefix keep that order in the whole sequence, all before the prefix's end. */
  lemma PrefixOrder(s: seq<string>, n: nat, d: seq<string>)
    requires n <= |s|
    requires forall i :: 0 <= i < |d| ==> d[i] in s[..n]
    requires forall i, j :: 0 <= i < j < |d| ==> FirstIndex(s[..n], d[i]) < FirstIndex(s[..n], d[j])
    ensures forall i :: 0 <= i < |d| ==> d[i] in s && FirstIndex(s, d[i]) == FirstIndex(s[..n], d[i]) < n
    ensures forall i, j :: 0 <= i < j < |d| ==> FirstIndex(s, d[i]) < FirstIndex(s, d[j])
  {
    forall i | 0 <= i < |d| ensures d[i] in s && FirstIndex(s, d[i]) == FirstIndex(s[..n], d[i]) < n {
      FirstIndexPrefix(s, n, d[i]);
    }
  }

  /** A value first met at the last position goes after every value met before it. */
  lemma AppendLastOrder(s: seq<string>, d: seq<string>, r: seq<string>)
    requires |s| > 0 && r == d + [s[|s| - 1]] && s[|s| - 1] !in s[..|s| - 1]
    requires forall i :: 0 <= i < |d| ==> d[i] in s && FirstIndex(s, d[i]) < |s| - 1
    requires forall i, j :: 0 <= i < j < |d| ==> FirstIndex(s, d[i]) < FirstIndex(s, d[j])
    ensures forall i :: 0 <= i < |r| ==> r[i] in s
    ensures forall i, j :: 0 <= i < j < |r| ==> FirstIndex(s, r[i]) < FirstIndex(s, r[j])
  {
    var last := s[|s| - 1];
    var p := s[..|s| - 1];
    assert FirstIndex(s, last) == |s| - 1 by {
      assert forall j :: 0 <= j < |p| ==> s[j] == p[j];
    }
    forall i | 0 <= i < |r| ensures r[i] in s && (i < |d| ==> r[i] == d[i]) && (i == |d| ==> r[i] == last) {
    }
  }

  /** `parseHandles`. */
  function ParseHandles(raw: string): (hs: seq<string>)
  {
    var toks := Tokens(raw);
    Dedup(seq(|toks|, i requires 0 <= i < |toks| => Normalize(toks[i])))
  }

  /** The normalised tokens, before duplicates are removed. */
  function Normalized(raw: string): (ns: seq<string>)
    ensures |ns| == |Tokens(raw)|
    ensures forall i :: 0 <= i < |ns| ==> ns[i] == Normalize(Tokens(raw)[i])
  {
    var toks := Tokens(raw);
    seq(|toks|, i requires 0 <= i < |toks| => Normalize(toks[i]))
  }

  /**
   * What `parseHandles` returns: no handle twice; exactly the normalised
   * tokens, in the order of their first occurrence; and no handle contains a
   * comma or whitespace.
   */
  lemma ParseHandlesSpec(raw: string)
    ensures NoDuplicates(ParseHandles(raw))
    ensures forall h :: h in ParseHandles(raw) <==> h in Normalized(raw)
    ensures forall i, j :: 0 <= i < j < |ParseHandles(raw)| ==>
              FirstIndex(Normalized(raw), ParseHandles(raw)[i]) < FirstIndex(Normalized(raw), ParseHandles(raw)[j])
    ensures forall i :: 0 <= i < |ParseHandles(raw)| ==> Avoids(ParseHandles(raw)[i], HandleSeparators)
  {
    var ns := Normalized(raw);
    assert ParseHandles(raw) == Dedup(ns);
    DedupKeepsFirstOccurrenceOrder(ns);
    var toks := Tokens(raw);
    TokensClean(raw);
    forall i | 0 <= i < |ns| ensures Avoids(ns[i], HandleSeparators) {
      NormalizeClean(toks[i]);
    }
    forall i | 0 <= i < |Dedup(ns)| ensures Avoids(Dedup(ns)[i], HandleSeparators) {
      assert Dedup(ns)[i] in ns;
    }
  }

  /** Stripping `@` and lower-casing adds no separator. */
  lemma NormalizeClean(t: string)
    requires Avoids(t, HandleSeparators)
    ensures Avoids(Normalize(t), HandleSeparators)
  {
    var h := Normalize(t);
    var body := if |t| > 0 && t[0] == '@' then t[1..] else t;
    forall j | 0 <= j < |h| ensures h[j] !in HandleSeparators {
      assert h[j] == LowerChar(body[j]);
      assert body[j] in t;
    }
  }

  /** Text with no separator and no surrounding space is a single token. */
  lemma {:induction false} SingleToken(raw: string)
    requires raw != [] && Avoids(raw, HandleSeparators)
    ensures Tokens(raw) == [raw]
  {
    SplitWithoutSeparator(raw, HandleSeparators);
    forall j | 0 <= j < |raw| ensures !IsSpace(raw[j]) {
      SpacesAreSeparators(raw[j]);
    }
    assert TrimAll([raw]) == [raw];
    assert DropEmpty([raw]) == [raw] + DropEmpty([]);
  }

  /** Text with no separator parses to its one normalised handle. */
  lemma SingleHandle(raw: string)
    requires raw != [] && Avoids(raw, HandleSeparators)
    ensures ParseHandles(raw) == [Normalize(raw)]
  {
    SingleToken(raw);
    assert Normalized(raw) == [Normalize(raw)];
    assert Dedup([Normalize(raw)]) == [Normalize(raw)] by {
      assert [Normalize(raw)][..0] == [];
    }
  }

  /** Only one leading `@` goes: `@@Bob` becomes `@bob`. */
  lemma DoubleAtKeepsOne()
    ensures ParseHandles("@@Bob") == ["@bob"]
  {
    var raw := "@@Bob";
    assert Avoids(raw, HandleSeparators);
    SingleHandle(raw);
    assert raw[1..] == "@Bob";
    LowerAtBob();
  }

  lemma LowerAtBob()
    ensures Lower("@Bob") == "@bob"
  {
    var l := Lower("@Bob");
    assert l[0] == '@' && l[1] == 'b' && l[2] == 'o' && l[3] == 'b';
  }

  /** Empty tokens are dropped before the `@` is stripped, so a lone `@` gives the empty handle. */
  lemma LoneAtGivesEmptyHandle()
    ensures ParseHandles("@") == [""]
  {
    var raw := "@";
    assert Avoids(raw, HandleSeparators);
    SingleHandle(raw);
    assert Normalize(raw) == "";
  }

  /** What `POST /influencers` is sent. */
  datatype InfluencerIn = InfluencerIn(handle: string, platform: string)

  /** What it answers with, one per created influencer. */
  datatype Added = Added(id: int, handle: string, platform: string)

  const DefaultPlatform: string := "instagram"

  /** `handles.map((h) => ({ handle: h, platform: "instagram" }))`. */
  function Payload(hs: seq<string>): (p: seq<InfluencerIn>)
    ensures |p| == |hs|
    ensures forall i :: 0 <= i < |hs| ==> p[i] == InfluencerIn(hs[i], DefaultPlatform)
  {
    seq(|hs|, i requires 0 <= i < |hs| => InfluencerIn(hs[i], DefaultPlatform))
  }

  /** The page's state: the text box, the list of added influencers, the busy flag and the error. */
  class AddInfluencersView {
    var input: string
    var added: seq<Added>
    var loading: bool
    var err: Option<string>

    constructor ()
      ensures input == "" && added == [] && !loading && err == None
    {
      input := "";
      added := [];
      loading := false;
      err := None;
    }

    /** Typing in the text box. */
    method SetInput(text: string)
      modifies this`input
      ensures input == text
    {
      input := text;
    }

    /**
     * `add`: clears the error; when the text parses to no handle nothing is
     * sent and nothing else changes. Otherwise one entry per handle is posted
     * (`post` is the server); on success the created influencers go in front
     * of the list and the text box is cleared, on failure the error is shown.
     */
    method Add(post: seq<InfluencerIn> -> Response<seq<Added>>) returns (sent: Option<seq<InfluencerIn>>)
      modifies this
      ensures var hs := ParseHandles(old(input));
              (hs == [] <==> sent == None)
              && (hs != [] ==> sent == Some(Payload(hs)))
      ensures sent == None ==>
                err == None && input == old(input) && added == old(added) && loading == old(loading)
      ensures sent.Some? ==> !loading
      ensures sent.Some? && post(sent.value).Ok? ==>
                added == post(sent.value).data + old(added) && input == "" && err == None
      ensures sent.Some? && post(sent.value).Failed? ==>
                added == old(added) && input == old(input)
                && err == Some(DetailOr(post(sent.value).error, "Failed to add influencers"))
    {
      err := None;
      var handles := ParseHandles(input);
      if |handles| == 0 {
        sent := None;
        return;
      }
      var payload := Payload(handles);
      sent := Some(payload);
      loading := true;
      var response := post(payload);
      if response.Ok? {
        added := response.data + added;
        input := "";
      } else {
        err := Some(DetailOr(response.error, "Failed to add influencers"));
      }
      loading := false;
    }
  }
}
