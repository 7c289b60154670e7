/**
 * The brief form (frontend/src/pages/BriefPage.tsx): the weight clamp, the
 * weight sum, the keyword parser and the page state that loading, saving and
 * resetting update.
 */
module Briefs {
  import opened Maybe
  import opened Text
  import opened Api

  /** The four KPI weights of the form; `ret` is the `return` key (the expected-ROAS weight). */
  datatype Weights = Weights(authenticity: real, relevance: real, resonance: real, ret: real)

  datatype WeightKey = AuthenticityKey | RelevanceKey | ResonanceKey | ReturnKey

  const DefaultWeight: real := 0.25

  /** The form's initial weights, and what saving and Reset go back to. */
  const DefaultWeights: Weights := Weights(DefaultWeight, DefaultWeight, DefaultWeight, DefaultWeight)

  function Get(w: Weights, k: WeightKey): real {
    match k
    case AuthenticityKey => w.authenticity
    case RelevanceKey => w.relevance
    case ResonanceKey => w.resonance
    case ReturnKey => w.ret
  }

  predicate InUnit(x: real) {
    0.0 <= x <= 1.0
  }

  predicate AllInUnit(w: Weights) {
    InUnit(w.authenticity) && InUnit(w.relevance) && InUnit(w.resonance) && InUnit(w.ret)
  }

  /**
   * `number(val)`: `Number(val) || 0` kept within [0, 1]. `parsed` is what
   * `Number(val)` gives, `None` when that is NaN; a number already in [0, 1]
   * is kept, anything above 1 becomes 1 and anything below 0 becomes 0.
   */
  function Clamp(parsed: Option<real>): (w: real)
    ensures InUnit(w)
    ensures parsed == None ==> w == 0.0
    ensures parsed.Some? && InUnit(parsed.value) ==> w == parsed.value
    ensures parsed.Some? && parsed.value > 1.0 ==> w == 1.0
    ensures parsed.Some? && parsed.value < 0.0 ==> w == 0.0
  {
    var x := parsed.GetOr(0.0);
    if x > 1.0 then 1.0 else if x < 0.0 then 0.0 else x
  }

  /** Clamping a clamped weight changes nothing. */
  lemma ClampIdempotent(parsed: Option<real>)
    ensures Clamp(Some(Clamp(parsed))) == Clamp(parsed)
  {
  }

  /** `{ ...weights, [k]: v }`: the weight under `k` becomes `v`, the others stay. */
  function SetWeight(w: Weights, k: WeightKey, v: real): (r: Weights)
    ensures Get(r, k) == v
    ensures forall k' :: k' != k ==> Get(r, k') == Get(w, k')
  {
    match k
    case AuthenticityKey => w.(authenticity := v)
    case RelevanceKey => w.(relevance := v)
    case ResonanceKey => w.(resonance := v)
    case ReturnKey => w.(ret := v)
  }

  /** `Object.values(weights)`, in the object's key order. */
  function Values(w: Weights): seq<real> {
    [w.authenticity, w.relevance, w.resonance, w.ret]
  }

  /** `reduce((a, b) => a + b, 0)`: the sum, added from the left. */
  function Sum(xs: seq<real>): real {
    if xs == [] then 0.0 else Sum(xs[..|xs| - 1]) + xs[|xs| - 1]
  }

  /** `weightSum`. */
  function WeightSum(w: Weights): real {
    Sum(Values(w))
  }

  /** A sum of values from [0, 1] lies in [0, number of values]. */
  lemma {:induction false} SumBounds(xs: seq<real>)
    requires forall i :: 0 <= i < |xs| ==> InUnit(xs[i])
    ensures 0.0 <= Sum(xs) <= |xs| as real
  {
    if xs != [] {
      SumBounds(xs[..|xs| - 1]);
    }
  }

  /** The weight sum is the sum of the four weights, whatever the order of addition. */
  lemma WeightSumIsTotal(w: Weights)
    ensures WeightSum(w) == w.authenticity + w.relevance + w.resonance + w.ret
  {
    var v := Values(w);
    assert v[..3] == [w.authenticity, w.relevance, w.resonance];
    assert v[..3][..2] == [w.authenticity, w.relevance];
    assert v[..3][..2][..1] == [w.authenticity];
    assert v[..3][..2][..1][..0] == [];
    assert Sum([w.authenticity]) == w.authenticity;
    assert Sum([w.authenticity, w.relevance]) == w.authenticity + w.relevance;
    assert Sum([w.authenticity, w.relevance, w.resonance]) == w.authenticity + w.relevance + w.resonance;
  }

  /** With every weight clamped the sum shown lies in [0, 4]. */
  lemma WeightSumBounds(w: Weights)
    requires AllInUnit(w)
    ensures 0.0 <= WeightSum(w) <= 4.0
  {
    SumBounds(Values(w));
  }

  /** The comma separating keywords. */
  const Comma: char := ','

  /** `keywords.split(",").map((k) => k.trim()).filter(Boolean)`. */
  function ParseKeywords(text: string): seq<string> {
    CleanPieces(text, {Comma})
  }

  /** No parsed keyword is empty, holds a comma or has whitespace at either end. */
  lemma ParseKeywordsClean(text: string)
    ensures forall i :: 0 <= i < |ParseKeywords(text)| ==> Keyword(ParseKeywords(text)[i])
  {
    var pieces := SplitWhere(text, {Comma});
    var trimmed := TrimAll(pieces);
    forall i | 0 <= i < |trimmed| && trimmed[i] != [] ensures Keyword(trimmed[i]) {
      TrimmedPieceIsKeyword(pieces[i]);
    }
  }

  lemma TrimmedPieceIsKeyword(p: string)
    requires Avoids(p, {Comma}) && Trim(p) != []
    ensures Keyword(Trim(p))
  {
    var t := Trim(p);
    forall j | 0 <= j < |t| ensures t[j] != Comma {
      TrimChars(p, t[j]);
    }
  }

  /** What a parsed keyword looks like: not empty, no comma, no whitespace at either end. */
  predicate Keyword(k: string) {
    k != [] && !IsSpace(k[0]) && !IsSpace(k[|k| - 1]) && Avoids(k, {Comma})
  }

  /**
   * The keywords are exactly the non-empty trimmed comma-separated pieces of
   * the text.
   */
  lemma ParseKeywordsPieces(text: string, k: string)
    ensures k in ParseKeywords(text) <==> k != [] && k in TrimAll(SplitWhere(text, {Comma}))
  {
  }

  /**
   * A comma cuts the keyword list where it cuts the text: the keywords before
   * it, then those after it, in order and with repeats kept.
   */
  lemma ParseKeywordsAtComma(a: string, b: string)
    ensures ParseKeywords(a + [Comma] + b) == ParseKeywords(a) + ParseKeywords(b)
  {
    CleanPiecesAt(a, Comma, b, {Comma});
  }

  /** Text without a comma gives its trim as the one keyword, or none when that is blank. */
  lemma ParseKeywordsOfPiece(p: string)
    requires Avoids(p, {Comma})
    ensures ParseKeywords(p) == if Trim(p) == [] then [] else [Trim(p)]
  {
    CleanPiecesOfPiece(p, {Comma});
  }

  /**
   * Empty pieces vanish while order and repeats stay: `"k,,l, k"` gives
   * `[k, l, k]`.
   */
  lemma ParseKeywordsKeepsOrderAndRepeats(k: string, l: string)
    requires Keyword(k) && Keyword(l)
    ensures ParseKeywords(k + ",," + l + ", " + k) == [k, l, k]
  {
    var tail := [' '] + k;
    var t2 := l + [Comma] + tail;
    var t1 := [] + [Comma] + t2;
    TypedWithGap(k, l);
    ParseKeywordsAtComma(l, tail);
    ParseKeywordsOfKeyword(l);
    ParseKeywordsAfterSpace(k);
    ParseKeywordsAtComma([], t2);
    ParseKeywordsOfNothing();
    ParseKeywordsAtComma(k, t1);
    ParseKeywordsOfKeyword(k);
    Concat3(ParseKeywords(k + [Comma] + t1), ParseKeywords(t1), ParseKeywords(t2), k, l);
  }

  /** The text of the example, cut at its commas. */
  lemma TypedWithGap(k: string, l: string)
    ensures k + ",," + l + ", " + k == k + [Comma] + ([] + [Comma] + (l + [Comma] + ([' '] + k)))
  {
  }

  /** Putting the example's keyword lists together. */
  lemma Concat3(w: seq<string>, m: seq<string>, t: seq<string>, k: string, l: string)
    requires t == [l] + [k] && m == [] + t && w == [k] + m
    ensures w == [k, l, k]
  {
  }

  /** A keyword typed after a space parses to itself: the space is trimmed. */
  lemma ParseKeywordsAfterSpace(k: string)
    requires Keyword(k)
    ensures ParseKeywords([' '] + k) == [k]
  {
    var s := [' '] + k;
    assert Avoids(s, {Comma}) by {
      forall j | 0 <= j < |s| ensures s[j] != Comma {
        if j > 0 {
          assert s[j] == k[j - 1];
        }
      }
    }
    TrimAfterSpace(k);
    ParseKeywordsOfPiece(s);
  }

  /** A space in front of text without edge whitespace is all that trimming removes. */
  lemma TrimAfterSpace(k: string)
    requires k != [] && !IsSpace(k[0]) && !IsSpace(k[|k| - 1])
    ensures Trim([' '] + k) == k
  {
    var s := [' '] + k;
    assert s[1..] == k;
    assert Leading(k) == 0;
    assert Leading(s) == 1;
    var r := Trim(s);
    assert r == s[1..1 + |r|];
  }

  /** A keyword typed alone parses to itself. */
  lemma ParseKeywordsOfKeyword(k: string)
    requires Keyword(k)
    ensures ParseKeywords(k) == [k]
  {
    ParseKeywordsOfPiece(k);
    TrimKeeps(k);
  }

  /** Typing `ks` joined by commas gives back exactly `ks`. */
  lemma ParseKeywordsOfJoin(ks: seq<string>)
    requires forall i :: 0 <= i < |ks| ==> Keyword(ks[i])
    ensures ParseKeywords(Join(ks, [Comma])) == ks
  {
    if ks == [] {
      ParseKeywordsOfNothing();
    } else {
      SplitJoin(ks, Comma, {Comma});
      KeywordsTrimmed(ks);
      DropEmptyKeeps(ks);
    }
  }

  /** An empty text has no keywords. */
  lemma ParseKeywordsOfNothing()
    ensures ParseKeywords([]) == []
  {
    assert SplitWhere([], {Comma}) == [[]];
    assert TrimAll([[]]) == [[]];
    assert DropEmpty([[]]) == [] + DropEmpty([]);
  }

  /** Keywords are already trimmed. */
  lemma KeywordsTrimmed(ks: seq<string>)
    requires forall i :: 0 <= i < |ks| ==> Keyword(ks[i])
    ensures TrimAll(ks) == ks
  {
    forall i | 0 <= i < |ks| ensures Trim(ks[i]) == ks[i] {
      TrimKeeps(ks[i]);
    }
  }

  /** What `POST /brief` is sent. */
  datatype BriefIn = BriefIn(brand: string, keywords: seq<string>, kpiWeights: Weights)

  /** A stored brief, as the server returns it. */
  datatype Brief = Brief(id: int, brand: string, keywords: seq<string>, kpiWeights: Weights)

  const LoadFallback: string := "Failed to load briefs"
  const CreateFallback: string := "Failed to create brief"

  /** The page's state. `Valid` holds because every weight edit goes through `Clamp`. */
  class BriefView {
    var brand: string
    var keywords: string
    var weights: Weights
    var briefs: seq<Brief>
    var loading: bool
    var err: Option<string>
    var saving: bool

    ghost predicate Valid()
      reads this
    {
      AllInUnit(weights)
    }

    constructor ()
      ensures Valid()
      ensures brand == "" && keywords == "" && weights == DefaultWeights
      ensures briefs == [] && loading && err == None && !saving
    {
      brand := "";
      keywords := "";
      weights := DefaultWeights;
      briefs := [];
      loading := true;
      err := None;
      saving := false;
    }

    /** The sum shown under the weights; always within [0, 4]. */
    function ShownSum(): (s: real)
      reads this
      requires Valid()
      ensures 0.0 <= s <= 4.0
    {
      WeightSumBounds(weights);
      WeightSum(weights)
    }

    method SetBrand(text: string)
      modifies this`brand
      ensures brand == text
    {
      brand := text;
    }

    method SetKeywords(text: string)
      modifies this`keywords
      ensures keywords == text
    {
      keywords := text;
    }

    /** A weight field's `onChange`: the typed value, clamped, replaces that one weight. */
    method EditWeight(k: WeightKey, parsed: Option<real>)
      requires Valid()
      modifies this`weights
      ensures Valid()
      ensures weights == SetWeight(old(weights), k, Clamp(parsed))
    {
      weights := SetWeight(weights, k, Clamp(parsed));
    }

    /**
     * The mount effect: `GET /brief` (`response`) replaces the list on
     * success; on failure the list stays and the error is the response's
     * `detail` or "Failed to load briefs". Loading ends either way.
     */
    method LoadBriefs(response: Response<seq<Brief>>)
      modifies this`briefs, this`err, this`loading
      ensures !loading
      ensures response.Ok? ==> briefs == response.data && err == None
      ensures response.Failed? ==> briefs == old(briefs) && err == Some(DetailOr(response.error, LoadFallback))
    {
      loading := true;
      err := None;
      if response.Ok? {
        briefs := response.data;
      } else {
        err := Some(DetailOr(response.error, LoadFallback));
      }
      loading := false;
    }

    /**
     * `save`. A brand that is blank once trimmed sends nothing and changes
     * nothing. Otherwise the trimmed brand, the parsed keywords and the
     * weights are posted (`post` is the server) and `Submit` handles the answer.
     */
    method Save(post: BriefIn -> Response<Brief>) returns (sent: Option<BriefIn>, reportOf: Option<int>)
      requires Valid()
      modifies this`briefs, this`brand, this`keywords, this`weights, this`err, this`saving
      ensures Valid()
      ensures Trim(old(brand)) == [] <==> sent == None
      ensures sent == None ==>
                reportOf == None && brand == old(brand) && keywords == old(keywords) && weights == old(weights)
                && briefs == old(briefs) && err == old(err) && saving == old(saving) && loading == old(loading)
      ensures sent.Some? ==>
                sent.value == BriefIn(Trim(old(brand)), ParseKeywords(old(keywords)), old(weights)) && !saving
                && loading == old(loading)
      ensures sent.Some? && post(sent.value).Ok? ==>
                briefs == [post(sent.value).data] + old(briefs)
                && brand == "" && keywords == "" && weights == DefaultWeights
                && err == None && reportOf == Some(post(sent.value).data.id)
      ensures sent.Some? && post(sent.value).Failed? ==>
                briefs == old(briefs) && brand == old(brand) && keywords == old(keywords) && weights == old(weights)
                && err == Some(DetailOr(post(sent.value).error, CreateFallback)) && reportOf == None
    {
      var cleaned := Trim(brand);
      if cleaned == [] {
        sent, reportOf := None, None;
        return;
      }
      var payload := BriefIn(cleaned, ParseKeywords(keywords), weights);
      sent := Some(payload);
      reportOf := Submit(post(payload));
    }

    /**
     * The `try` block of `save`, given the server's answer. On success the
     * new brief goes in front of the list, the form goes back to its defaults
     * and the page moves to that brief's report (`reportOf`); on failure the
     * form is kept and the error is the response's `detail` or "Failed to
     * create brief". Saving ends either way.
     */
    method Submit(response: Response<Brief>) returns (reportOf: Option<int>)
      requires Valid()
      modifies this`briefs, this`brand, this`keywords, this`weights, this`err, this`saving
      ensures Valid() && !saving
      ensures response.Ok? ==>
                briefs == [response.data] + old(briefs)
                && brand == "" && keywords == "" && weights == DefaultWeights
                && err == None && reportOf == Some(response.data.id)
      ensures response.Failed? ==>
                briefs == old(briefs) && brand == old(brand) && keywords == old(keywords) && weights == old(weights)
                && err == Some(DetailOr(response.error, CreateFallback)) && reportOf == None
    {
      saving := true;
      err := None;
      if response.Ok? {
        briefs := [response.data] + briefs;
        brand := "";
        keywords := "";
        weights := DefaultWeights;
        reportOf := Some(response.data.id);
      } else {
        err := Some(DetailOr(response.error, CreateFallback));
        reportOf := None;
      }
      saving := false;
    }

    /** The Reset button: the form goes back to its defaults; the list is untouched. */
    method Reset()
      modifies this`brand, this`keywords, this`weights
      ensures Valid()
      ensures brand == "" && keywords == "" && weights == DefaultWeights
    {
      brand := "";
      keywords := "";
      weights := DefaultWeights;
    }
  }
}
