/**
 * The deterministic pseudo-scorer (backend/app/scoring.py): a polynomial hash
 * of the lower-cased handle, four 10-bit windows of it mapped onto score
 * ranges, and the weighted trust index.
 */
module Scoring {
  import opened Text

  /** The hash modulus, 10^9 + 7. */
  const Modulus: nat := 1000000007

  /** The hash multiplier. */
  const Multiplier: nat := 131

  /** `ord(ch)`. */
  function Ord(c: char): nat {
    c as nat
  }

  /** The hash of text that is already lower-cased: `h = (h * 131 + ord(ch)) % (10**9 + 7)` over it, from the left. */
  function Hash(t: string): (h: nat)
    ensures h < Modulus
  {
    if t == [] then 0 else (Hash(t[..|t| - 1]) * Multiplier + Ord(t[|t| - 1])) % Modulus
  }

  /** `_seed_from_text`. */
  function Seed(text: string): (h: nat)
    ensures h < Modulus
  {
    Hash(Lower(text))
  }

  /** The loop of `_seed_from_text`, over `text.lower()`. */
  method SeedFromText(text: string) returns (h: nat)
    ensures h == Seed(text)
    ensures h < Modulus
  {
    var lowered := Lower(text);
    h := 0;
    var i := 0;
    while i < |lowered|
      invariant 0 <= i <= |lowered|
      invariant h == Hash(lowered[..i])
    {
      assert lowered[..i + 1][..i] == lowered[..i];
      h := (h * Multiplier + Ord(lowered[i])) % Modulus;
      i := i + 1;
    }
    assert lowered[..i] == lowered;
  }

  /** The seed ignores case. */
  lemma SeedCaseInsensitive(text: string)
    ensures Seed(Lower(text)) == Seed(text)
  {
    LowerIdempotent(text);
  }

  /** The seed of the empty handle is 0, and each further character takes one hash step. */
  lemma SeedStep(text: string, c: char)
    ensures Seed([]) == 0
    ensures Seed(text + [c]) == (Seed(text) * Multiplier + Ord(LowerChar(c))) % Modulus
  {
    LowerAppend(text, [c]);
    var l := Lower(text + [c]);
    assert l[..|l| - 1] == Lower(text);
  }

  function Pow2(n: nat): (p: nat)
    ensures p >= 1
  {
    if n == 0 then 1 else 2 * Pow2(n - 1)
  }

  lemma Pow2Of22()
    ensures Pow2(22) == 4194304
  {
    assert Pow2(1) == 2 && Pow2(2) == 4 && Pow2(3) == 8 && Pow2(4) == 16;
    assert Pow2(5) == 32 && Pow2(6) == 64 && Pow2(7) == 128 && Pow2(8) == 256;
    assert Pow2(9) == 512 && Pow2(10) == 1024 && Pow2(11) == 2048 && Pow2(12) == 4096;
    assert Pow2(13) == 8192 && Pow2(14) == 16384 && Pow2(15) == 32768 && Pow2(16) == 65536;
    assert Pow2(17) == 131072 && Pow2(18) == 262144 && Pow2(19) == 524288 && Pow2(20) == 1048576;
    assert Pow2(21) == 2097152;
  }

  /** `(seed >> offset) & 1023` for a non-negative seed: the ten bits from `offset` up. */
  function Window(seed: nat, offset: nat): (w: nat)
    ensures w <= 1023
  {
    (seed / Pow2(offset)) % 1024
  }

  /** The top window of a seed holds at most 238, since seeds stay below 10^9 + 7 < 239 * 2^22. */
  lemma TopWindowBound(seed: nat)
    requires seed < Modulus
    ensures Window(seed, 22) <= 238
  {
    Pow2Of22();
    var d := Pow2(22);
    var q := seed / d;
    assert q * d <= seed;
  }

  /** `s(offset)`: the window mapped onto 50..95. */
  function S(seed: nat, offset: nat): (x: real)
    ensures 50.0 <= x <= 95.0
  {
    50.0 + (Window(seed, offset) as real / 1023.0) * 45.0
  }

  /** `expected_roas` before rounding: 1.2 + (s(6) - 50) / 45 * 2. */
  function RoasRaw(seed: nat): real {
    1.2 + (S(seed, 6) - 50.0) / 45.0 * 2.0
  }

  /** The raw expected ROAS lies in [1.2, 3.2]. */
  lemma RoasRawRange(seed: nat)
    ensures 1.2 <= RoasRaw(seed) <= 3.2
  {
    var x := S(seed, 6);
    assert 0.0 <= (x - 50.0) / 45.0 <= 1.0;
  }

  /** The four weights `compute_scores` reads. */
  datatype KpiWeights = KpiWeights(authenticity: real, relevance: real, resonance: real, ret: real)

  const DefaultWeight: real := 0.25

  /** `weights.get(key, 0.25)`. */
  function WeightOf(weights: map<string, real>, key: string): (w: real)
    ensures key in weights ==> w == weights[key]
    ensures key !in weights ==> w == DefaultWeight
  {
    if key in weights then weights[key] else DefaultWeight
  }

  function Read(weights: map<string, real>): KpiWeights {
    KpiWeights(WeightOf(weights, "authenticity"), WeightOf(weights, "relevance"),
               WeightOf(weights, "resonance"), WeightOf(weights, "return"))
  }

  /** An empty weight map reads as four weights of 0.25. */
  lemma EmptyWeightsDefault()
    ensures Read(map[]) == KpiWeights(DefaultWeight, DefaultWeight, DefaultWeight, DefaultWeight)
  {
  }

  function Total(w: KpiWeights): real {
    w.authenticity + w.relevance + w.resonance + w.ret
  }

  predicate NonNegative(w: KpiWeights) {
    w.authenticity >= 0.0 && w.relevance >= 0.0 && w.resonance >= 0.0 && w.ret >= 0.0
  }

  /** `trust_index` before rounding: the weighted mean of the three scores and 30 times the ROAS. */
  function Trust(a: real, r: real, s: real, roas: real, w: KpiWeights): real
    requires Total(w) != 0.0
  {
    (a * w.authenticity + r * w.relevance + s * w.resonance + (roas * 30.0) * w.ret) / Total(w)
  }

  function Min4(a: real, b: real, c: real, d: real): (m: real)
    ensures m <= a && m <= b && m <= c && m <= d
    ensures m == a || m == b || m == c || m == d
  {
    var ab := if a <= b then a else b;
    var cd := if c <= d then c else d;
    if ab <= cd then ab else cd
  }

  function Max4(a: real, b: real, c: real, d: real): (m: real)
    ensures m >= a && m >= b && m >= c && m >= d
    ensures m == a || m == b || m == c || m == d
  {
    var ab := if a >= b then a else b;
    var cd := if c >= d then c else d;
    if ab >= cd then ab else cd
  }

  /**
   * With non-negative weights of positive sum the trust index lies between
   * the smallest and the largest of the four values it averages.
   */
  lemma TrustWithinRange(a: real, r: real, s: real, roas: real, w: KpiWeights)
    requires NonNegative(w) && Total(w) > 0.0
    ensures Min4(a, r, s, roas * 30.0) <= Trust(a, r, s, roas, w) <= Max4(a, r, s, roas * 30.0)
  {
    TrustAtLeast(Min4(a, r, s, roas * 30.0), a, r, s, roas, w);
    TrustAtMost(Max4(a, r, s, roas * 30.0), a, r, s, roas, w);
  }

  /** A weighted mean is at least any bound below all its values. */
  lemma TrustAtLeast(lo: real, a: real, r: real, s: real, roas: real, w: KpiWeights)
    requires NonNegative(w) && Total(w) > 0.0
    requires lo <= a && lo <= r && lo <= s && lo <= roas * 30.0
    ensures lo <= Trust(a, r, s, roas, w)
  {
    var t := Total(w);
    var num := a * w.authenticity + r * w.relevance + s * w.resonance + (roas * 30.0) * w.ret;
    SumAtLeast(lo, a, r, s, roas * 30.0, w.authenticity, w.relevance, w.resonance, w.ret);
    Divide(lo * t, num, t);
    Cancel(lo, t);
  }

  /** A weighted mean is at most any bound above all its values. */
  lemma TrustAtMost(hi: real, a: real, r: real, s: real, roas: real, w: KpiWeights)
    requires NonNegative(w) && Total(w) > 0.0
    requires a <= hi && r <= hi && s <= hi && roas * 30.0 <= hi
    ensures Trust(a, r, s, roas, w) <= hi
  {
    var t := Total(w);
    var num := a * w.authenticity + r * w.relevance + s * w.resonance + (roas * 30.0) * w.ret;
    SumAtMost(hi, a, r, s, roas * 30.0, w.authenticity, w.relevance, w.resonance, w.ret);
    Divide(num, hi * t, t);
    Cancel(hi, t);
  }

  lemma SumAtLeast(lo: real, x1: real, x2: real, x3: real, x4: real, k1: real, k2: real, k3: real, k4: real)
    requires k1 >= 0.0 && k2 >= 0.0 && k3 >= 0.0 && k4 >= 0.0
    requires lo <= x1 && lo <= x2 && lo <= x3 && lo <= x4
    ensures lo * (k1 + k2 + k3 + k4) <= x1 * k1 + x2 * k2 + x3 * k3 + x4 * k4
  {
    Scale(lo, x1, k1);
    Scale(lo, x2, k2);
    Scale(lo, x3, k3);
    Scale(lo, x4, k4);
    assert lo * (k1 + k2 + k3 + k4) == lo * k1 + lo * k2 + lo * k3 + lo * k4;
  }

  lemma SumAtMost(hi: real, x1: real, x2: real, x3: real, x4: real, k1: real, k2: real, k3: real, k4: real)
    requires k1 >= 0.0 && k2 >= 0.0 && k3 >= 0.0 && k4 >= 0.0
    requires x1 <= hi && x2 <= hi && x3 <= hi && x4 <= hi
    ensures x1 * k1 + x2 * k2 + x3 * k3 + x4 * k4 <= hi * (k1 + k2 + k3 + k4)
  {
    Scale(x1, hi, k1);
    Scale(x2, hi, k2);
    Scale(x3, hi, k3);
    Scale(x4, hi, k4);
    assert hi * (k1 + k2 + k3 + k4) == hi * k1 + hi * k2 + hi * k3 + hi * k4;
  }

  lemma Scale(x: real, y: real, k: real)
    requires x <= y && k >= 0.0
    ensures x * k <= y * k
  {
  }

  lemma Cancel(x: real, t: real)
    requires t > 0.0
    ensures x * t / t == x
  {
  }

  lemma Divide(x: real, y: real, t: real)
    requires x <= y && t > 0.0
    ensures x / t <= y / t
  {
  }

  /** One call's results, as `compute_scores` returns them. */
  datatype Scores = Scores(
    authenticity: real,
    relevance: real,
    resonance: real,
    expectedRoas: real,
    trustIndex: real,
    topSignals: seq<string>)

  /** `compute_scores` either returns its scores or raises `ZeroDivisionError` when the weights add up to 0. */
  datatype Outcome = Scored(scores: Scores) | ZeroWeightTotal

  const AuthenticitySignal: string := "Stable L/C ratio proxy: "
  const RelevanceSignal: string := "Keyword similarity proxy: "
  const ResonanceSignal: string := "Engagement depth proxy: "

  /**
   * `compute_scores`. `round(x, n)` and the one-decimal formatting `{x:.1f}`
   * are Python's and come in as parameters. The scores are windows 2, 12 and
   * 22 of the seed, the ROAS comes from window 6 and is rounded to two places
   * before the trust index uses it, and the other results are rounded to one.
   */
  function ComputeScores(handle: string, weights: map<string, real>,
                         round: (real, nat) -> real, format1: real -> string): (o: Outcome)
    ensures o.Scored? <==> Total(Read(weights)) != 0.0
  {
    var seed := Seed(handle);
    var a := S(seed, 2);
    var r := S(seed, 12);
    var s := S(seed, 22);
    var roas := round(RoasRaw(seed), 2);
    var w := Read(weights);
    if Total(w) == 0.0 then ZeroWeightTotal
    else
      var trust := Trust(a, r, s, roas, w);
      Scored(Scores(round(a, 1), round(r, 1), round(s, 1), roas, round(trust, 1),
                    [AuthenticitySignal + format1(a), RelevanceSignal + format1(r), ResonanceSignal + format1(s)]))
  }

  /**
   * What the scores mean before rounding: the three scores lie in 50..95
   * (the resonance one at most 50 + 238 / 1023 * 45), the ROAS in 1.2..3.2,
   * and with non-negative weights the trust index between the smallest and
   * largest value it averages. There are always three signals.
   */
  lemma ComputeScoresRanges(handle: string, weights: map<string, real>,
                            round: (real, nat) -> real, format1: real -> string)
    ensures var seed := Seed(handle);
            50.0 <= S(seed, 2) <= 95.0 && 50.0 <= S(seed, 12) <= 95.0
            && 50.0 <= S(seed, 22) <= 50.0 + 238.0 / 1023.0 * 45.0
            && 1.2 <= RoasRaw(seed) <= 3.2
    ensures ComputeScores(handle, weights, round, format1).Scored? ==>
              |ComputeScores(handle, weights, round, format1).scores.topSignals| == 3
    ensures NonNegative(Read(weights)) && Total(Read(weights)) > 0.0 ==>
              var seed := Seed(handle);
              var roas := round(RoasRaw(seed), 2);
              var t := Trust(S(seed, 2), S(seed, 12), S(seed, 22), roas, Read(weights));
              Min4(S(seed, 2), S(seed, 12), S(seed, 22), roas * 30.0) <= t <= Max4(S(seed, 2), S(seed, 12), S(seed, 22), roas * 30.0)
  {
    var seed := Seed(handle);
    TopWindowBound(seed);
    RoasRawRange(seed);
    var w := Read(weights);
    if NonNegative(w) && Total(w) > 0.0 {
      TrustWithinRange(S(seed, 2), S(seed, 12), S(seed, 22), round(RoasRaw(seed), 2), w);
    }
  }
}
