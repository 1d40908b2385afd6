/**
 * The Scores container, `/{context_id}/lineitems/{item_id}/scores`: list the
 * scores recorded for a line item, or record one.
 */
module ScoresResource {
  import opened PhpValues
  import opened GradeStore
  import opened ResourceBase
  import opened GradebookService

  const ContainerFormat := "application/vnd.ims.lis.v1.scorecontainer+json"
  const ScoreFormat := "application/vnd.ims.lis.v1.score+json"
  const Formats := [ContainerFormat, ScoreFormat]

  const Resource := Descriptor("Score.collection", "/{context_id}/lineitems/{item_id}/scores",
                               "Scores.url", Formats, ["GET", "POST"])

  /** The separators `get_request_json` writes before the first and every later score. */
  const FirstSep := "\n        "
  const NextSep := ",\n        "

  /** A course is named and the request's type fits its method (see `ContainerGate`). */
  predicate ParamsOk(req: Request)
  {
    !EmptyString(req.contextId) && ContainerGate(req, Formats)
  }

  /** The checks `execute` makes before dispatching; an item that is not found is a 404. */
  function Gate(db: Db, req: Request, queryOk: bool): Try<Item>
  {
    ItemGate(db, req, ParamsOk(req), AnyOwner, 404, queryOk)
  }

  /** A GET lists the container, a POST sends one score. */
  lemma GateTypes(db: Db, req: Request, queryOk: bool)
    requires Gate(db, req, queryOk).Done?
    ensures req.httpMethod == "POST" ==> PresentedType(req) == ScoreFormat
    ensures req.httpMethod != "POST" ==>
      EmptyString(PresentedType(req)) || PresentedType(req) == ContainerFormat
  {
    ContainerGateExact(req, Formats);
  }

  /** `!empty($grade->timemodified)`: the row has a time other than 0. */
  predicate Graded(g: Grade)
  {
    g.timemodified.Some? && g.timemodified.value != 0
  }

  /** The rows the listing shows, in table order. */
  function GradedOnly(gs: seq<Grade>): (r: seq<Grade>)
    ensures forall g :: g in r <==> g in gs && Graded(g)
    ensures |r| <= |gs|
  {
    if gs == [] then []
    else GradedOnly(gs[..|gs| - 1]) + (if Graded(gs[|gs| - 1]) then [gs[|gs| - 1]] else [])
  }

  /** The members of the listing, one per row. */
  function Elements(gs: seq<Grade>, endpoint: string, date: Option<int> -> string)
    : (r: seq<map<string, Json>>)
    ensures |r| == |gs|
  {
    if gs == [] then []
    else Elements(gs[..|gs| - 1], endpoint, date) + [ScoreToJson(RecordOf(gs[|gs| - 1]), endpoint, false, date)]
  }

  lemma ElementsSnoc(gs: seq<Grade>, g: Grade, endpoint: string, date: Option<int> -> string)
    ensures Elements(gs + [g], endpoint, date)
         == Elements(gs, endpoint, date) + [ScoreToJson(RecordOf(g), endpoint, false, date)]
  {
    assert (gs + [g])[..|gs|] == gs;
  }

  /** Element `i` of the listing is the score of row `i`. */
  lemma {:induction false} ElementsAt(gs: seq<Grade>, endpoint: string, date: Option<int> -> string, i: nat)
    requires i < |gs|
    ensures Elements(gs, endpoint, date)[i] == ScoreToJson(RecordOf(gs[i]), endpoint, false, date)
  {
    if i < |gs| - 1 {
      ElementsAt(gs[..|gs| - 1], endpoint, date, i);
    }
  }

  /** One more row extends the listing only when the row has a time. */
  lemma ListingStep(gs: seq<Grade>, i: nat, endpoint: string, date: Option<int> -> string)
    requires i < |gs|
    ensures GradedOnly(gs[..i + 1]) == GradedOnly(gs[..i]) + (if Graded(gs[i]) then [gs[i]] else [])
    ensures Joined(Elements(GradedOnly(gs[..i + 1]), endpoint, date), FirstSep, NextSep)
         == Joined(Elements(GradedOnly(gs[..i]), endpoint, date), FirstSep, NextSep)
            + (if Graded(gs[i])
               then [Sep(if GradedOnly(gs[..i]) == [] then FirstSep else NextSep),
                     Elem(ScoreToJson(RecordOf(gs[i]), endpoint, false, date))]
               else [])
  {
    assert gs[..i + 1][..i] == gs[..i];
    var before := GradedOnly(gs[..i]);
    if Graded(gs[i]) {
      ElementsSnoc(before, gs[i], endpoint, date);
      JoinedSnoc(Elements(before, endpoint, date), ScoreToJson(RecordOf(gs[i]), endpoint, false, date),
                 FirstSep, NextSep);
    } else {
      assert GradedOnly(gs[..i + 1]) == before;
    }
  }

  /** `get_request_json`'s loop: every row of the item that has a time, in order, behind its separator. */
  method ListScores(gs: seq<Grade>, endpoint: string, date: Option<int> -> string)
    returns (frags: seq<Fragment>)
    ensures frags == Joined(Elements(GradedOnly(gs), endpoint, date), FirstSep, NextSep)
  {
    frags := [];
    var sep := FirstSep;
    var i := 0;
    while i < |gs|
      invariant 0 <= i <= |gs|
      invariant frags == Joined(Elements(GradedOnly(gs[..i]), endpoint, date), FirstSep, NextSep)
      invariant sep == if GradedOnly(gs[..i]) == [] then FirstSep else NextSep
    {
      ListingStep(gs, i, endpoint, date);
      if Graded(gs[i]) {
        var e := ScoreToJson(RecordOf(gs[i]), endpoint, false, date);
        frags := frags + [Sep(sep), Elem(e)];
        sep := NextSep;
      }
      i := i + 1;
    }
    assert gs[..|gs|] == gs;
  }

  /** Element `k` of a listing is the score of a row of this item that has a time. */
  lemma ListedScoresAreGraded(grades: seq<Grade>, itemid: int, endpoint: string,
                              date: Option<int> -> string, k: nat)
    requires k < |GradedOnly(GradesOf(grades, itemid))|
    ensures var shown := GradedOnly(GradesOf(grades, itemid));
      && Joined(Elements(shown, endpoint, date), FirstSep, NextSep)[2 * k + 1]
         == Elem(ScoreToJson(RecordOf(shown[k]), endpoint, false, date))
      && shown[k] in grades && shown[k].itemid == itemid && Graded(shown[k])
  {
    var shown := GradedOnly(GradesOf(grades, itemid));
    JoinedAt(Elements(shown, endpoint, date), FirstSep, NextSep, k);
    ElementsAt(shown, endpoint, date, k);
    assert shown[k] in shown;
  }

  /** What `post_request_json` accepts: a `Score` naming its user and carrying a score. */
  predicate PostValid(score: Json)
  {
    && !Empty(score)
    && Isset(score, "@type") && LooseEqualsString(Member(score, "@type"), "Score")
    && IssetPath(score, "resultAgent", "userId")
    && Isset(score, "scoreGiven")
  }

  /** `$result->resultAgent->userId` */
  function AgentUserId(score: Json): Json
  {
    Member(Member(score, "resultAgent"), "userId")
  }

  /**
   * `post_request_json`: records the score for the user the body names and
   * echoes the body under that user's URL in this container.
   */
  method PostRequest(gb: Gradebook, score: Json, item: Item, endpoint: string, env: Env)
    returns (t: Try<map<string, Json>>)
    requires gb.Valid()
    modifies gb
    ensures gb.Valid()
    ensures !PostValid(score) ==> t == Thrown(400) && gb.Snapshot() == old(gb.Snapshot())
    ensures PostValid(score) && !UserExists(old(gb.users), AgentUserId(score)) ==>
      t == Thrown(400) && gb.Snapshot() == old(gb.Snapshot())
    ensures PostValid(score) && UserExists(old(gb.users), AgentUserId(score)) ==>
      && gb.Snapshot() == old(gb.Snapshot()).(submitted := old(gb.submitted)
           + [SubmissionFor(item, BuildGrade(item, score, AgentUserId(score), env.now, env.parseTime))])
      && t == if env.gradeUpdateOk
              then Done(Echo(score, map["@id" := JStr(endpoint + "/" + StrVal(AgentUserId(score)))]))
              else Thrown(500)
  {
    if !PostValid(score) {
      return Thrown(400);
    }
    var userid := AgentUserId(score);
    var s := SetGradeItem(gb, item, score, userid, env);
    if s.Thrown? {
      return Thrown(s.code);
    }
    return Done(Echo(score, map["@id" := JStr(endpoint + "/" + StrVal(userid))]));
  }

  /** `execute`: every exception becomes the response code. */
  method Execute(gb: Gradebook, resp: Response, req: Request, env: Env)
    requires gb.Valid()
    modifies gb, resp
    ensures gb.Valid()
    ensures var g := Gate(old(gb.Snapshot()), req, env.queryOk);
      g.Thrown? ==> resp.State() == old(resp.State()).(code := g.code) && gb.Snapshot() == old(gb.Snapshot())
    ensures var g := Gate(old(gb.Snapshot()), req, env.queryOk);
      g.Done? && req.httpMethod == "GET" ==>
        && gb.Snapshot() == old(gb.Snapshot())
        && resp.State() == old(resp.State()).(contentType := ContainerFormat,
             body := Page(ScorePage(req.endpoint),
               Joined(Elements(GradedOnly(GradesOf(old(gb.grades), g.value.id)), req.lineItemEndpoint, env.date),
                      FirstSep, NextSep)))
    ensures var g := Gate(old(gb.Snapshot()), req, env.queryOk);
      g.Done? && req.httpMethod == "POST" ==>
        var user := AgentUserId(req.body);
        if !PostValid(req.body) || !UserExists(old(gb.users), user) then
          resp.State() == old(resp.State()).(code := 400) && gb.Snapshot() == old(gb.Snapshot())
        else
          && gb.Snapshot() == old(gb.Snapshot()).(submitted := old(gb.submitted)
               + [SubmissionFor(g.value, BuildGrade(g.value, req.body, user, env.now, env.parseTime))])
          && resp.State() == if env.gradeUpdateOk
             then ResponseState(201, ScoreFormat,
                    Doc(Echo(req.body, map["@id" := JStr(req.endpoint + "/" + StrVal(user))])))
             else old(resp.State()).(code := 500)
    ensures var g := Gate(old(gb.Snapshot()), req, env.queryOk);
      g.Done? && req.httpMethod != "GET" && req.httpMethod != "POST" ==>
        resp.State() == old(resp.State()).(code := 405) && gb.Snapshot() == old(gb.Snapshot())
  {
    var g := Gate(gb.Snapshot(), req, env.queryOk);
    if g.Thrown? {
      resp.SetCode(g.code);
      return;
    }
    var item := g.value;
    if req.httpMethod == "GET" {
      var frags := ListScores(GradesOf(gb.grades, item.id), req.lineItemEndpoint, env.date);
      resp.SetContentType(ContainerFormat);
      resp.SetBody(Page(ScorePage(req.endpoint), frags));
    } else if req.httpMethod == "POST" {
      var t := PostRequest(gb, req.body, item, req.endpoint, env);
      if t.Thrown? {
        resp.SetCode(t.code);
        return;
      }
      resp.SetCode(201);
      resp.SetContentType(ScoreFormat);
      resp.SetBody(Doc(t.value));
    } else {
      resp.SetCode(405);
    }
  }
}
