/**
 * The back end's store rules (backend/app/main.py): who the caller is, sign-up
 * and log-in, briefs scoped to their owner, the global influencer list, and
 * the report that scores every influencer against a brief and records the
 * scores. The database is an in-memory class of tables; a row's id is its
 * position in its table plus one, as SQLite assigns them when nothing is
 * deleted.
 */
module Store {
  import opened Maybe
  import Scoring
  import Handles

  datatype User = User(id: nat, email: string, hashedPassword: string)

  datatype Brief = Brief(id: nat, brand: string, keywords: seq<string>,
                         kpiWeights: map<string, real>, ownerId: Option<nat>)

  datatype Influencer = Influencer(id: nat, handle: string, platform: string)

  datatype Score = Score(id: nat, influencerId: nat, briefId: int,
                         authenticity: real, relevance: real, resonance: real,
                         expectedRoas: real, trustIndex: real)

  datatype BriefIn = BriefIn(brand: string, keywords: seq<string>, kpiWeights: map<string, real>)
  datatype BriefOut = BriefOut(id: nat, brand: string, keywords: seq<string>, kpiWeights: map<string, real>)
  datatype InfluencerIn = InfluencerIn(handle: string, platform: string)

  /** The weights a `BriefIn` gets when the request leaves `kpi_weights` out: a quarter on each KPI. */
  const DefaultKpiWeights: map<string, real> :=
    map["authenticity" := 0.25, "relevance" := 0.25, "resonance" := 0.25, "return" := 0.25]

  /** A `BriefIn` that gives only its brand: no keywords and the default weights. */
  function DefaultBriefIn(brand: string): BriefIn {
    BriefIn(brand, [], DefaultKpiWeights)
  }

  const DefaultPlatform: string := "instagram"

  /** An `InfluencerIn` that gives only its handle. */
  function DefaultInfluencerIn(handle: string): InfluencerIn {
    InfluencerIn(handle, DefaultPlatform)
  }
  datatype InfluencerOut = InfluencerOut(id: nat, handle: string, platform: string)
  datatype ScoreOut = ScoreOut(influencerId: nat, briefId: int, handle: string,
                               authenticity: real, relevance: real, resonance: real,
                               expectedRoas: real, trustIndex: real, topSignals: seq<string>)

  /** An `HTTPException`, or the 500 an uncaught exception turns into. */
  datatype HttpError = HttpError(status: nat, detail: string)

  datatype Result<T> = Ok(value: T) | Err(error: HttpError)

  const NotAuthenticated: HttpError := HttpError(401, "Not authenticated")
  const InvalidToken: HttpError := HttpError(401, "Invalid or expired token")
  const UserNotFound: HttpError := HttpError(401, "User not found")
  const EmailTaken: HttpError := HttpError(400, "Email already registered")
  const InvalidCredentials: HttpError := HttpError(400, "Invalid credentials")
  const BriefNotFound: HttpError := HttpError(404, "Brief not found")
  const InternalError: HttpError := HttpError(500, "Internal Server Error")

  /** Row ids are positions plus one. */
  ghost predicate UsersNumbered(users: seq<User>) {
    forall i :: 0 <= i < |users| ==> users[i].id == i + 1
  }

  ghost predicate BriefsNumbered(briefs: seq<Brief>) {
    forall i :: 0 <= i < |briefs| ==> briefs[i].id == i + 1
  }

  ghost predicate InfluencersNumbered(influencers: seq<Influencer>) {
    forall i :: 0 <= i < |influencers| ==> influencers[i].id == i + 1
  }

  ghost predicate ScoresNumbered(scores: seq<Score>) {
    forall i :: 0 <= i < |scores| ==> scores[i].id == i + 1
  }

  /** The unique index on `User.email`. */
  ghost predicate EmailsUnique(users: seq<User>) {
    forall i, j :: 0 <= i < j < |users| ==> users[i].email != users[j].email
  }

  /** `session.get(User, uid)`. */
  function UserById(users: seq<User>, uid: int): (u: Option<User>)
    requires UsersNumbered(users)
    ensures u.Some? <==> exists i :: 0 <= i < |users| && users[i].id == uid
    ensures u.Some? ==> u.value in users && u.value.id == uid
  {
    if 1 <= uid <= |users| then Some(users[uid - 1]) else None
  }

  /**
   * `get_current_user` behind the `OAuth2PasswordBearer` dependency. `token`
   * is the bearer token, `None` when the request has no `Authorization`
   * header, which the dependency rejects before the handler runs. `decode` is
   * the JWT check: the user id the token names, `None` when it does not
   * decode (bad signature, expired, no `sub`).
   */
  function CurrentUser(users: seq<User>, token: Option<string>, decode: string -> Option<int>): (r: Result<User>)
    requires UsersNumbered(users)
    ensures token.None? ==> r == Err(NotAuthenticated)
    ensures token.Some? && decode(token.value).None? ==> r == Err(InvalidToken)
    ensures token.Some? && decode(token.value).Some? ==>
              (UserById(users, decode(token.value).value).None? ==> r == Err(UserNotFound))
    ensures token.Some? && decode(token.value).Some? ==>
              (UserById(users, decode(token.value).value).Some? ==> r == Ok(UserById(users, decode(token.value).value).value))
    ensures r.Err? ==> r.error.status == 401
    ensures r.Ok? ==>
              token.Some? && decode(token.value).Some? && r.value in users && r.value.id == decode(token.value).value
  {
    match token
    case None => Err(NotAuthenticated)
    case Some(t) =>
      match decode(t)
      case None => Err(InvalidToken)
      case Some(uid) =>
        match UserById(users, uid)
        case None => Err(UserNotFound)
        case Some(u) => Ok(u)
  }

  /** `select(User).where(User.email == email).first()`. */
  function FindByEmail(users: seq<User>, email: string): (u: Option<User>)
    ensures u.None? <==> forall i :: 0 <= i < |users| ==> users[i].email != email
    ensures u.Some? ==> u.value in users && u.value.email == email
  {
    if users == [] then None
    else if users[0].email == email then Some(users[0])
    else FindByEmail(users[1..], email)
  }

  /**
   * `login`: the id of the user with that email, when `verify` (bcrypt's
   * check) accepts the password against the stored hash; otherwise 400.
   */
  function Login(users: seq<User>, email: string, password: string,
                 verify: (string, string) -> bool): (r: Result<nat>)
    ensures r.Ok? <==> FindByEmail(users, email).Some? && verify(password, FindByEmail(users, email).value.hashedPassword)
    ensures r.Ok? ==> r.value == FindByEmail(users, email).value.id
    ensures r.Err? ==> r.error == InvalidCredentials
  {
    match FindByEmail(users, email)
    case None => Err(InvalidCredentials)
    case Some(u) => if verify(password, u.hashedPassword) then Ok(u.id) else Err(InvalidCredentials)
  }

  /** A user added under a new email is the one that email finds afterwards. */
  lemma {:induction false} FindAfterAdd(users: seq<User>, u: User)
    requires forall i :: 0 <= i < |users| ==> users[i].email != u.email
    ensures FindByEmail(users + [u], u.email) == Some(u)
  {
    if users != [] {
      assert (users + [u])[1..] == users[1..] + [u];
      FindAfterAdd(users[1..], u);
    }
  }

  /** In a table with unique emails each user is the one their email finds. */
  lemma {:induction false} FindUnique(users: seq<User>, k: nat)
    requires EmailsUnique(users) && k < |users|
    ensures FindByEmail(users, users[k].email) == Some(users[k])
  {
    if k > 0 {
      assert EmailsUnique(users[1..]) by {
        forall i, j | 0 <= i < j < |users[1..]| ensures users[1..][i].email != users[1..][j].email {
          assert users[1..][i] == users[i + 1] && users[1..][j] == users[j + 1];
        }
      }
      FindUnique(users[1..], k - 1);
    }
  }

  function ToOut(b: Brief): BriefOut {
    BriefOut(b.id, b.brand, b.keywords, b.kpiWeights)
  }

  /**
   * `list_briefs`: the caller's briefs. Every entry is one of the caller's,
   * and every brief the caller owns is listed. `ListBriefsInTableOrder`
   * adds that no brief is listed twice.
   */
  function ListBriefs(briefs: seq<Brief>, uid: nat): (r: seq<BriefOut>)
    ensures |r| <= |briefs|
    ensures forall o :: o in r <==> exists b :: b in briefs && b.ownerId == Some(uid) && o == ToOut(b)
  {
    if briefs == [] then []
    else
      var rest := ListBriefs(briefs[1..], uid);
      assert forall b :: b in briefs <==> b == briefs[0] || b in briefs[1..];
      if briefs[0].ownerId == Some(uid) then [ToOut(briefs[0])] + rest else rest
  }

  /** Ids strictly increase along the table. */
  ghost predicate TableIdsIncrease(briefs: seq<Brief>) {
    forall i, j :: 0 <= i < j < |briefs| ==> briefs[i].id < briefs[j].id
  }

  /** Ids strictly increase along the list, so none repeats. */
  ghost predicate ListIdsIncrease(r: seq<BriefOut>) {
    forall i, j :: 0 <= i < j < |r| ==> r[i].id < r[j].id
  }

  /**
   * In a table whose ids increase, as the row numbering makes them, the list
   * keeps the table's order, so no brief is listed twice.
   */
  lemma {:induction false} ListBriefsInTableOrder(briefs: seq<Brief>, uid: nat)
    requires TableIdsIncrease(briefs)
    ensures ListIdsIncrease(ListBriefs(briefs, uid))
  {
    if briefs != [] {
      var tail := briefs[1..];
      TailIncreasing(briefs);
      ListBriefsInTableOrder(tail, uid);
      var rest := ListBriefs(tail, uid);
      if briefs[0].ownerId == Some(uid) {
        ListedAfterHead(briefs, uid);
        var h := ToOut(briefs[0]);
        assert h.id == briefs[0].id;
        assert ListBriefs(briefs, uid) == [h] + rest;
        ConsIncreasing(h, rest);
      } else {
        assert ListBriefs(briefs, uid) == rest;
      }
    }
  }

  lemma TailIncreasing(briefs: seq<Brief>)
    requires briefs != [] && TableIdsIncrease(briefs)
    ensures TableIdsIncrease(briefs[1..])
  {
    forall i, j | 0 <= i < j < |briefs[1..]| ensures briefs[1..][i].id < briefs[1..][j].id {
      assert briefs[1..][i] == briefs[i + 1] && briefs[1..][j] == briefs[j + 1];
    }
  }

  /** Every brief listed from the rest of an increasing table has a larger id than its first row. */
  lemma ListedAfterHead(briefs: seq<Brief>, uid: nat)
    requires briefs != [] && TableIdsIncrease(briefs)
    ensures forall o :: o in ListBriefs(briefs[1..], uid) ==> briefs[0].id < o.id
  {
    var tail := briefs[1..];
    forall o | o in ListBriefs(tail, uid) ensures briefs[0].id < o.id {
      var b :| b in tail && b.ownerId == Some(uid) && o == ToOut(b);
      var k :| 0 <= k < |tail| && tail[k] == b;
      assert briefs[k + 1] == b;
    }
  }

  /** An id below every id of an increasing list keeps it increasing when put in front. */
  lemma ConsIncreasing(h: BriefOut, rest: seq<BriefOut>)
    requires forall o :: o in rest ==> h.id < o.id
    requires ListIdsIncrease(rest)
    ensures ListIdsIncrease([h] + rest)
  {
    var r := [h] + rest;
    forall i, j | 0 <= i < j < |r| ensures r[i].id < r[j].id {
      assert r[j] == rest[j - 1];
      if i == 0 {
        assert rest[j - 1] in rest;
      } else {
        assert r[i] == rest[i - 1];
      }
    }
  }

  /** In a numbered table the ids increase, so `ListBriefsInTableOrder` applies. */
  lemma NumberedIdsIncrease(briefs: seq<Brief>)
    requires BriefsNumbered(briefs)
    ensures TableIdsIncrease(briefs)
  {
  }

  /** `get_brief`: the brief when it exists and the caller owns it, 404 otherwise. */
  function GetBrief(briefs: seq<Brief>, uid: nat, briefId: int): (r: Result<BriefOut>)
    requires BriefsNumbered(briefs)
    ensures r.Ok? <==> 1 <= briefId <= |briefs| && briefs[briefId - 1].ownerId == Some(uid)
    ensures r.Ok? ==> r.value == ToOut(briefs[briefId - 1]) && r.value.id == briefId
    ensures r.Err? ==> r.error == BriefNotFound
  {
    if 1 <= briefId <= |briefs| && briefs[briefId - 1].ownerId == Some(uid)
    then Ok(ToOut(briefs[briefId - 1]))
    else Err(BriefNotFound)
  }

  /** The single-brief view agrees with the list: a brief is found exactly when it is listed. */
  lemma GetBriefAgreesWithList(briefs: seq<Brief>, uid: nat, o: BriefOut)
    requires BriefsNumbered(briefs)
    ensures o in ListBriefs(briefs, uid) <==> GetBrief(briefs, uid, o.id) == Ok(o)
  {
    if o in ListBriefs(briefs, uid) {
      var b :| b in briefs && b.ownerId == Some(uid) && o == ToOut(b);
      var i :| 0 <= i < |briefs| && briefs[i] == b;
      assert briefs[o.id - 1] == b;
    }
    if GetBrief(briefs, uid, o.id) == Ok(o) {
      assert briefs[o.id - 1] in briefs;
    }
  }

  /** `list_influencers`. */
  function ListInfluencers(influencers: seq<Influencer>): (r: seq<InfluencerOut>)
    ensures |r| == |influencers|
    ensures forall i :: 0 <= i < |r| ==>
              r[i] == InfluencerOut(influencers[i].id, influencers[i].handle, influencers[i].platform)
  {
    seq(|influencers|, i requires 0 <= i < |influencers| =>
      InfluencerOut(influencers[i].id, influencers[i].handle, influencers[i].platform))
  }

  /** The `ScoreOut` a report lists for one influencer. */
  function Row(inf: Influencer, briefId: int, s: Scoring.Scores): ScoreOut {
    ScoreOut(inf.id, briefId, inf.handle, s.authenticity, s.relevance, s.resonance,
             s.expectedRoas, s.trustIndex, s.topSignals)
  }

  /** The `Score` row recorded with a report row: the same numbers, under row id `id`. */
  function Stored(id: nat, o: ScoreOut): Score {
    Score(id, o.influencerId, o.briefId, o.authenticity, o.relevance, o.resonance, o.expectedRoas, o.trustIndex)
  }

  /**
   * `compute_scores(handle, kpi_weights)` as the handler calls it: scores, or
   * the division by zero it raises. The report is stated for any scorer;
   * `ComputeScoresScorer` says when `Scoring.ComputeScores` raises.
   */
  type Scorer = (string, map<string, real>) -> Scoring.Outcome

  /** Every influencer scores without raising. */
  predicate AllScored(infs: seq<Influencer>, weights: map<string, real>, score: Scorer) {
    forall i :: 0 <= i < |infs| ==> score(infs[i].handle, weights).Scored?
  }

  /** `compute_scores` raises exactly on weights that add up to 0. */
  predicate Scorable(weights: map<string, real>) {
    Scoring.Total(Scoring.Read(weights)) != 0.0
  }

  /** With the real scorer a report fails exactly when there is someone to score and the weights add up to 0. */
  lemma ComputeScoresScorer(infs: seq<Influencer>, weights: map<string, real>,
                            round: (real, nat) -> real, format1: real -> string)
    ensures AllScored(infs, weights, (h: string, w: map<string, real>) => Scoring.ComputeScores(h, w, round, format1))
            <==> infs == [] || Scorable(weights)
  {
    if infs != [] && !Scorable(weights) {
      assert !Scoring.ComputeScores(infs[0].handle, weights, round, format1).Scored?;
    }
  }

  /**
   * A brief saved with the default weights reads them exactly as one saved
   * with no weights at all, their total is 1, and so every influencer scores.
   */
  lemma DefaultBriefScores(brand: string, infs: seq<Influencer>,
                           round: (real, nat) -> real, format1: real -> string)
    ensures var w := DefaultBriefIn(brand).kpiWeights;
            Scoring.Read(w) == Scoring.Read(map[])
            && Scoring.Total(Scoring.Read(w)) == 1.0
            && AllScored(infs, w, (h: string, w': map<string, real>) => Scoring.ComputeScores(h, w', round, format1))
  {
    var w := DefaultBriefIn(brand).kpiWeights;
    Scoring.EmptyWeightsDefault();
    assert Scoring.Read(w) == Scoring.KpiWeights(0.25, 0.25, 0.25, 0.25);
    ComputeScoresScorer(infs, w, round, format1);
  }

  /** The add-influencers page always sends the platform a bare handle would default to. */
  lemma PagePayloadIsDefault(hs: seq<string>)
    ensures forall i :: 0 <= i < |hs| ==>
              Handles.Payload(hs)[i].handle == DefaultInfluencerIn(hs[i]).handle
              && Handles.Payload(hs)[i].platform == DefaultInfluencerIn(hs[i]).platform
  {
  }

  /**
   * The rows `compute_report` returns for `infs`, each row built from that
   * influencer's scores.
   */
  function Report(infs: seq<Influencer>, briefId: int, weights: map<string, real>, score: Scorer): (out: seq<ScoreOut>)
    requires AllScored(infs, weights, score)
    ensures |out| == |infs|
  {
    if infs == [] then []
    else
      var n := |infs| - 1;
      Report(infs[..n], briefId, weights, score) + [Row(infs[n], briefId, score(infs[n].handle, weights).scores)]
  }

  /**
   * The `Score` rows recorded with a report, numbered on from `firstId`:
   * one per report row, in order, with the same influencer, brief and scores.
   */
  function Recorded(firstId: nat, out: seq<ScoreOut>): (rows: seq<Score>)
    ensures |rows| == |out|
  {
    seq(|out|, i requires 0 <= i < |out| => Stored(firstId + i, out[i]))
  }

  /** Each recorded row holds the numbers of its report row, under the next free id. */
  lemma RecordedMatchesReport(firstId: nat, out: seq<ScoreOut>)
    ensures var rows := Recorded(firstId, out);
            forall i :: 0 <= i < |out| ==>
              rows[i].id == firstId + i && rows[i].influencerId == out[i].influencerId
              && rows[i].briefId == out[i].briefId && rows[i].authenticity == out[i].authenticity
              && rows[i].relevance == out[i].relevance && rows[i].resonance == out[i].resonance
              && rows[i].expectedRoas == out[i].expectedRoas && rows[i].trustIndex == out[i].trustIndex
  {
  }

  /** Recording one more report row appends its score row. */
  lemma RecordedAppend(firstId: nat, out: seq<ScoreOut>, o: ScoreOut)
    ensures Recorded(firstId, out + [o]) == Recorded(firstId, out) + [Stored(firstId + |out|, o)]
  {
    var a := Recorded(firstId, out + [o]);
    var b := Recorded(firstId, out) + [Stored(firstId + |out|, o)];
    assert |a| == |b|;
    forall i | 0 <= i < |a| ensures a[i] == b[i] {
      if i < |out| {
        assert (out + [o])[i] == out[i];
      }
    }
  }

  /**
   * A report has one row per influencer, in table order, each carrying that
   * influencer's id and handle, the requested brief id and what the scorer
   * gave for that handle.
   */
  lemma {:induction false} ReportShape(infs: seq<Influencer>, briefId: int, weights: map<string, real>, score: Scorer)
    requires AllScored(infs, weights, score)
    ensures var out := Report(infs, briefId, weights, score);
            |out| == |infs|
            && forall i :: 0 <= i < |infs| ==>
                 out[i] == Row(infs[i], briefId, score(infs[i].handle, weights).scores)
  {
    if infs != [] {
      ReportShape(infs[..|infs| - 1], briefId, weights, score);
    }
  }

  /** The database: one table per model, each a sequence in insertion order. */
  class Db {
    var users: seq<User>
    var briefs: seq<Brief>
    var influencers: seq<Influencer>
    var scores: seq<Score>

    ghost predicate Valid()
      reads this
    {
      UsersNumbered(users) && EmailsUnique(users) && BriefsNumbered(briefs)
      && InfluencersNumbered(influencers) && ScoresNumbered(scores)
    }

    constructor ()
      ensures Valid()
      ensures users == [] && briefs == [] && influencers == [] && scores == []
    {
      users := [];
      briefs := [];
      influencers := [];
      scores := [];
    }

    /**
     * `signup`. `hashed` is the bcrypt hash of the password. An email that
     * is already registered is refused with 400 and the users stay as they
     * are; otherwise exactly one user is added and its id is returned (the
     * access token is made from it).
     */
    method Signup(email: string, hashed: string) returns (r: Result<nat>)
      requires Valid()
      modifies this`users
      ensures Valid()
      ensures FindByEmail(old(users), email).Some? ==> r == Err(EmailTaken) && users == old(users)
      ensures FindByEmail(old(users), email).None? ==>
                r == Ok(|old(users)| + 1) && users == old(users) + [User(|old(users)| + 1, email, hashed)]
    {
      if FindByEmail(users, email).Some? {
        return Err(EmailTaken);
      }
      var u := User(|users| + 1, email, hashed);
      users := users + [u];
      r := Ok(u.id);
    }

    /** `save_brief`: the brief is stored with the caller as owner, and the payload comes back with the new id. */
    method SaveBrief(payload: BriefIn, user: User) returns (out: BriefOut)
      requires Valid()
      modifies this`briefs
      ensures Valid()
      ensures briefs == old(briefs) + [Brief(|old(briefs)| + 1, payload.brand, payload.keywords, payload.kpiWeights, Some(user.id))]
      ensures out == BriefOut(|old(briefs)| + 1, payload.brand, payload.keywords, payload.kpiWeights)
    {
      var b := Brief(|briefs| + 1, payload.brand, payload.keywords, payload.kpiWeights, Some(user.id));
      briefs := briefs + [b];
      out := ToOut(b);
    }

    /**
     * `add_influencers`: one influencer per item, in order, handle and
     * platform as given and no de-duplication; the new rows come back.
     */
    method AddInfluencers(items: seq<InfluencerIn>) returns (created: seq<InfluencerOut>)
      requires Valid()
      modifies this`influencers
      ensures Valid()
      ensures |created| == |items| && |influencers| == |old(influencers)| + |items|
      ensures influencers[..|old(influencers)|] == old(influencers)
      ensures forall i :: 0 <= i < |items| ==>
                created[i] == InfluencerOut(|old(influencers)| + i + 1, items[i].handle, items[i].platform)
                && influencers[|old(influencers)| + i] == Influencer(|old(influencers)| + i + 1, items[i].handle, items[i].platform)
    {
      created := [];
      var i := 0;
      while i < |items|
        invariant 0 <= i <= |items|
        invariant Valid()
        invariant |created| == i && |influencers| == |old(influencers)| + i
        invariant influencers[..|old(influencers)|] == old(influencers)
        invariant forall j :: 0 <= j < i ==>
                    created[j] == InfluencerOut(|old(influencers)| + j + 1, items[j].handle, items[j].platform)
                    && influencers[|old(influencers)| + j] == Influencer(|old(influencers)| + j + 1, items[j].handle, items[j].platform)
      {
        var inf := Influencer(|influencers| + 1, items[i].handle, items[i].platform);
        influencers := influencers + [inf];
        created := created + [InfluencerOut(inf.id, inf.handle, inf.platform)];
        i := i + 1;
      }
    }

    /** The brief `compute_report` reads, when the caller owns it. */
    function OwnedBrief(uid: nat, briefId: int): (b: Option<Brief>)
      reads this
      requires Valid()
      ensures b.Some? <==> 1 <= briefId <= |briefs| && briefs[briefId - 1].ownerId == Some(uid)
      ensures b.Some? ==> b.value == briefs[briefId - 1]
    {
      if 1 <= briefId <= |briefs| && briefs[briefId - 1].ownerId == Some(uid) then Some(briefs[briefId - 1]) else None
    }

    /**
     * `compute_report`. A brief that is missing or someone else's gives an
     * empty report and records nothing. Otherwise every influencer is scored
     * against the brief's weights, in table order, and the rows are recorded
     * together at the commit; weights adding up to 0 make the first scoring
     * divide by zero, which is a 500 with nothing recorded.
     */
    method ComputeReport(uid: nat, briefId: int, score: Scorer) returns (r: Result<seq<ScoreOut>>)
      requires Valid()
      modifies this`scores
      ensures Valid()
      ensures OwnedBrief(uid, briefId).None? ==> r == Ok([]) && scores == old(scores)
      ensures OwnedBrief(uid, briefId).Some? && !AllScored(influencers, OwnedBrief(uid, briefId).value.kpiWeights, score) ==>
                r == Err(InternalError) && scores == old(scores)
      ensures OwnedBrief(uid, briefId).Some? && AllScored(influencers, OwnedBrief(uid, briefId).value.kpiWeights, score) ==>
                var w := OwnedBrief(uid, briefId).value.kpiWeights;
                r == Ok(Report(influencers, briefId, w, score))
                && scores == old(scores) + Recorded(|old(scores)| + 1, Report(influencers, briefId, w, score))
    {
      var brief := OwnedBrief(uid, briefId);
      if brief.None? {
        return Ok([]);
      }
      var staged := ScoreAll(influencers, briefId, brief.value.kpiWeights, |scores| + 1, score);
      if staged.None? {
        return Err(InternalError);
      }
      scores := scores + staged.value.1;
      r := Ok(staged.value.0);
    }
  }

  /**
   * The loop of `compute_report`: scores each influencer in turn and stages
   * its report row and its score row (numbered from `firstId`); the first
   * scoring that raises ends it with nothing.
   */
  method ScoreAll(infs: seq<Influencer>, briefId: int, w: map<string, real>, firstId: nat, score: Scorer)
    returns (staged: Option<(seq<ScoreOut>, seq<Score>)>)
    ensures staged.None? <==> !AllScored(infs, w, score)
    ensures staged.Some? ==>
              staged.value.0 == Report(infs, briefId, w, score)
              && staged.value.1 == Recorded(firstId, staged.value.0)
  {
    var out: seq<ScoreOut> := [];
    var rows: seq<Score> := [];
    var i := 0;
    while i < |infs|
      invariant 0 <= i <= |infs|
      invariant AllScored(infs[..i], w, score)
      invariant out == Report(infs[..i], briefId, w, score)
      invariant rows == Recorded(firstId, out)
    {
      var o := score(infs[i].handle, w);
      if o.ZeroWeightTotal? {
        return None;
      }
      assert infs[..i + 1][..i] == infs[..i];
      var row := Row(infs[i], briefId, o.scores);
      RecordedAppend(firstId, out, row);
      rows := rows + [Stored(firstId + |out|, row)];
      out := out + [row];
      i := i + 1;
    }
    assert infs[..i] == infs;
    staged := Some((out, rows));
  }

  /**
   * Reports are not idempotent: asking twice for the report of a brief one
   * owns records a score row per influencer each time.
   */
  method ReportTwice(db: Db, uid: nat, briefId: int, score: Scorer)
    returns (first: Result<seq<ScoreOut>>, second: Result<seq<ScoreOut>>)
    requires db.Valid() && db.OwnedBrief(uid, briefId).Some?
    requires AllScored(db.influencers, db.OwnedBrief(uid, briefId).value.kpiWeights, score)
    modifies db`scores
    ensures first == second && first.Ok?
    ensures |db.scores| == |old(db.scores)| + 2 * |db.influencers|
  {
    first := db.ComputeReport(uid, briefId, score);
    second := db.ComputeReport(uid, briefId, score);
    ReportShape(db.influencers, briefId, db.OwnedBrief(uid, briefId).value.kpiWeights, score);
  }
}
