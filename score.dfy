/**
 * The Score resource, `/{context_id}/lineitems/{item_id}/scores/{result_id}/score`:
 * record or clear one user's score for a line item.
 */
module ScoreResource {
  import opened PhpValues
  import opened GradeStore
  import opened ResourceBase
  import opened GradebookService

  const Format := "application/vnd.ims.lis.v1.score+json"

  const Resource := Descriptor("Score.item",
                               "/{context_id}/lineitems/{item_id}/scores/{result_id}/score",
                               "Score.url", [Format], ["PUT", "DELETE"])

  /** A course is named and any content type presented is the score format. */
  predicate ParamsOk(req: Request)
  {
    !EmptyString(req.contextId) && TypeAccepted(PresentedType(req), [Format])
  }

  /** The checks `execute` makes before looking for the grade; an item that is not found is a 400. */
  function Gate(db: Db, req: Request, queryOk: bool): Try<Item>
  {
    ItemGate(db, req, ParamsOk(req), AnyOwner, 400, queryOk)
  }

  /** `$score->resultAgent->userId`, null when either level is missing. */
  function AgentUserId(score: Json): Json
  {
    Member(Member(score, "resultAgent"), "userId")
  }

  /**
   * What `put_request` accepts: a `Score` with a score and a grading progress,
   * whose agent, when it names a user, names exactly the user of the URL (a
   * strict comparison with the URL string).
   */
  predicate PutValid(score: Json, resultId: string)
  {
    && !Empty(score)
    && Isset(score, "@type") && LooseEqualsString(Member(score, "@type"), "Score")
    && !(IssetPath(score, "resultAgent", "userId") && AgentUserId(score) != JStr(resultId))
    && Isset(score, "scoreGiven")
    && Isset(score, "gradingProgress")
  }

  /** A user id sent as a JSON number never equals the URL string, so the score is refused. */
  lemma NumericUserIdRejected(score: Json, resultId: string, n: int)
    requires AgentUserId(score) == JInt(n)
    ensures !PutValid(score, resultId)
  {
    assert IssetPath(score, "resultAgent", "userId");
  }

  /** Only a fully graded score is recorded; any other progress clears the grade. */
  predicate FullyGraded(score: Json)
  {
    LooseEqualsString(Member(score, "gradingProgress"), "FullyGraded")
  }

  /** `substr($e, 0, strripos($e, '/'))`: `e` up to its last slash, or empty when it has none. */
  function TrimLastSegment(e: string): (r: string)
    ensures '/' !in e ==> r == ""
    ensures '/' in e ==> |r| < |e| && e[..|r|] == r && e[|r|] == '/' && '/' !in e[|r| + 1..]
  {
    if e == [] then ""
    else if e[|e| - 1] == '/' then e[..|e| - 1]
    else
      var r := TrimLastSegment(e[..|e| - 1]);
      assert '/' in e ==> '/' in e[..|e| - 1] by {
        if '/' in e {
          var k :| 0 <= k < |e| && e[k] == '/';
          assert e[..|e| - 1][k] == '/';
        }
      }
      assert '/' in e ==> e[|r| + 1..] == e[..|e| - 1][|r| + 1..] + [e[|e| - 1]];
      r
  }

  /** Dropping the last segment of `a/b` gives `a`. */
  lemma TrimLastSegmentOf(a: string, b: string)
    requires '/' !in b
    ensures TrimLastSegment(a + "/" + b) == a
  {
    var e := a + "/" + b;
    assert e[|a|] == '/';
    assert e[|a| + 1..] == b;
    assert e[..|a|] == a;
  }

  /** The `@id` the PUT handler gives the echoed score. */
  function ScoreId(lineItemEndpoint: string, score: Json): string
  {
    TrimLastSegment(lineItemEndpoint) + "/scores/" + StrVal(AgentUserId(score))
  }

  /** The `$grade` record `delete_request` hands to `grade_update`: no grade, no feedback. */
  function ClearFor(userid: Json): GradeUpdate
  {
    Clear(userid, None, JNull, FormatMoodle)
  }

  /**
   * The effect of `put_request` on the store and its answer: a refused score
   * changes nothing; otherwise exactly one `grade_update` call is made (unless
   * the user does not exist), and only the log of those calls changes.
   */
  function PutOutcome(db: Db, item: Item, score: Json, resultId: string, lineItemEndpoint: string,
                      env: Env): (r: (Db, Try<map<string, Json>>))
    ensures !PutValid(score, resultId) ==> r == (db, Thrown(400))
    ensures PutValid(score, resultId) && FullyGraded(score) && !UserExists(db.users, JStr(resultId)) ==>
      r == (db, Thrown(400))
    ensures PutValid(score, resultId) && (!FullyGraded(score) || UserExists(db.users, JStr(resultId))) ==>
      && |r.0.submitted| == |db.submitted| + 1
      && r.1 == if env.gradeUpdateOk
                then Done(Echo(score, map["@id" := JStr(ScoreId(lineItemEndpoint, score))]))
                else Thrown(500)
    ensures r.0 == db.(submitted := r.0.submitted)
    ensures r.0.submitted == db.submitted || |r.0.submitted| == |db.submitted| + 1
    ensures db.submitted <= r.0.submitted
    ensures r.1.Thrown? ==> r.1.code == 400 || r.1.code == 500
    ensures r.1.Done? ==>
      && score.JObj?
      && r.1.value == Echo(score, map["@id" := JStr(ScoreId(lineItemEndpoint, score))])
      && |r.0.submitted| == |db.submitted| + 1
    ensures r.0.submitted != db.submitted ==>
      var s := r.0.submitted[|db.submitted|];
      && s == SubmissionFor(item, s.grade)
      && (FullyGraded(score) ==> s.grade == BuildGrade(item, score, JStr(resultId), env.now, env.parseTime))
      && (!FullyGraded(score) ==> s.grade == ClearFor(AgentUserId(score)))
  {
    if !PutValid(score, resultId) then (db, Thrown(400))
    else
      var answer := Done(Echo(score, map["@id" := JStr(ScoreId(lineItemEndpoint, score))]));
      if FullyGraded(score) then
        if !UserExists(db.users, JStr(resultId)) then (db, Thrown(400))
        else
          var grade := BuildGrade(item, score, JStr(resultId), env.now, env.parseTime);
          (db.(submitted := db.submitted + [SubmissionFor(item, grade)]),
           if env.gradeUpdateOk then answer else Thrown(500))
      else
        (db.(submitted := db.submitted + [SubmissionFor(item, ClearFor(AgentUserId(score)))]),
         if env.gradeUpdateOk then answer else Thrown(500))
  }

  /** A grade cleared by a PUT is the URL's user's, or nobody's when the body names no user. */
  lemma ClearedUserIsTheResult(db: Db, item: Item, score: Json, resultId: string, e: string, env: Env)
    requires PutValid(score, resultId) && !FullyGraded(score)
    ensures var r := PutOutcome(db, item, score, resultId, e, env);
      var g := r.0.submitted[|db.submitted|].grade;
      && |r.0.submitted| == |db.submitted| + 1
      && g.Clear? && (g.userid == JStr(resultId) || g.userid == JNull)
  {
  }

  /** An accepted score naming its user is echoed under that user's score URL. */
  lemma EchoedIdNamesTheResult(db: Db, item: Item, score: Json, resultId: string, e: string, env: Env)
    requires IssetPath(score, "resultAgent", "userId")
    requires PutOutcome(db, item, score, resultId, e, env).1.Done?
    ensures PutOutcome(db, item, score, resultId, e, env).1.value["@id"]
         == JStr(TrimLastSegment(e) + "/scores/" + resultId)
  {
  }

  /** `delete_request`: clears the user's grade; a status other than OK is a 500. */
  method DeleteRequest(gb: Gradebook, item: Item, userid: Json, env: Env) returns (t: Try<()>)
    requires gb.Valid()
    modifies gb
    ensures gb.Valid()
    ensures t == if env.gradeUpdateOk then Done(()) else Thrown(500)
    ensures gb.Snapshot() == old(gb.Snapshot()).(submitted :=
      old(gb.submitted) + [SubmissionFor(item, ClearFor(userid))])
  {
    var grade := Clear(userid, None, JNull, FormatMoodle);
    var ok := gb.SubmitGrade(SubmissionFor(item, grade), env.gradeUpdateOk);
    if !ok {
      return Thrown(500);
    }
    return Done(());
  }

  /** `put_request` */
  method PutRequest(gb: Gradebook, score: Json, item: Item, resultId: string, lineItemEndpoint: string,
                    env: Env) returns (t: Try<map<string, Json>>)
    requires gb.Valid()
    modifies gb
    ensures gb.Valid()
    ensures (gb.Snapshot(), t) == PutOutcome(old(gb.Snapshot()), item, score, resultId, lineItemEndpoint, env)
  {
    if !PutValid(score, resultId) {
      return Thrown(400);
    }
    if FullyGraded(score) {
      var s := SetGradeItem(gb, item, score, JStr(resultId), env);
      if s.Thrown? {
        return Thrown(s.code);
      }
    } else {
      var s := DeleteRequest(gb, item, AgentUserId(score), env);
      if s.Thrown? {
        return Thrown(s.code);
      }
    }
    var id := TrimLastSegment(lineItemEndpoint) + "/scores/" + StrVal(AgentUserId(score));
    return Done(Echo(score, map["@id" := JStr(id)]));
  }

  /** `execute`: every exception becomes the response code. */
  method Execute(gb: Gradebook, resp: Response, req: Request, env: Env)
    requires gb.Valid()
    modifies gb, resp
    ensures gb.Valid()
    ensures var g := Gate(old(gb.Snapshot()), req, env.queryOk);
      g.Thrown? ==> resp.State() == old(resp.State()).(code := g.code) && gb.Snapshot() == old(gb.Snapshot())
    ensures var g := Gate(old(gb.Snapshot()), req, env.queryOk);
      g.Done? && FindGrade(old(gb.grades), req.itemId, req.resultId).None? ==>
        resp.State() == old(resp.State()).(code := 400) && gb.Snapshot() == old(gb.Snapshot())
    ensures var g := Gate(old(gb.Snapshot()), req, env.queryOk);
      g.Done? && FindGrade(old(gb.grades), req.itemId, req.resultId).Some? ==>
        if req.httpMethod == "PUT" then
          var r := PutOutcome(old(gb.Snapshot()), g.value, req.body, req.resultId, req.lineItemEndpoint, env);
          && gb.Snapshot() == r.0
          && resp.State() == if r.1.Thrown? then old(resp.State()).(code := r.1.code)
                             else old(resp.State()).(code := 200, body := Doc(r.1.value))
        else if req.httpMethod == "DELETE" then
          && gb.Snapshot() == old(gb.Snapshot()).(submitted :=
               old(gb.submitted) + [SubmissionFor(g.value, ClearFor(JStr(req.resultId)))])
          && resp.State() == old(resp.State()).(code := if env.gradeUpdateOk then 200 else 500)
        else
          resp.State() == old(resp.State()).(code := 405) && gb.Snapshot() == old(gb.Snapshot())
  {
    var g := Gate(gb.Snapshot(), req, env.queryOk);
    if g.Thrown? {
      resp.SetCode(g.code);
      return;
    }
    var item := g.value;
    var grade := FindGrade(gb.grades, req.itemId, req.resultId);
    if grade.None? {
      resp.SetCode(400);
      return;
    }
    if req.httpMethod == "GET" {
      resp.SetCode(405);
    } else if req.httpMethod == "PUT" {
      var t := PutRequest(gb, req.body, item, req.resultId, req.lineItemEndpoint, env);
      if t.Thrown? {
        resp.SetCode(t.code);
        return;
      }
      resp.SetBody(Doc(t.value));
      resp.SetCode(200);
    } else if req.httpMethod == "DELETE" {
      var t := DeleteRequest(gb, item, JStr(req.resultId), env);
      if t.Thrown? {
        resp.SetCode(t.code);
        return;
      }
      resp.SetCode(200);
    } else {
      resp.SetCode(405);
    }
  }
}
