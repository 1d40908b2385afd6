/**
 * The Result resource, `/{context_id}/lineitems/{item_id}/results/{result_id}/result`:
 * read one user's result for a line item.
 */
module ResultResource {
  import opened PhpValues
  import opened GradeStore
  import opened ResourceBase
  import opened GradebookService

  const Format := "application/vnd.ims.lis.v2.result+json"

  const Resource := Descriptor("Result.item",
                               "/{context_id}/lineitems/{item_id}/results/{result_id}/result",
                               "Result.url", [Format], ["GET"])

  /** A course is named and any type the request accepts is the result format. */
  predicate ParamsOk(req: Request)
  {
    !EmptyString(req.contextId) && TypeAccepted(req.accept, [Format])
  }

  /** The checks `execute` makes; an item that is not found is a 400. */
  function Gate(db: Db, req: Request, queryOk: bool): Try<Item>
  {
    ItemGate(db, req, ParamsOk(req), AnyOwner, 400, queryOk)
  }

  /**
   * `empty($grade->timemodified)`: the column is read back as a string, so only
   * null and 0 are empty.
   */
  predicate NoTime(t: Option<int>)
  {
    t.None? || t.value == 0
  }

  /** The record of a user who has no grade row: every column null. */
  function Ungraded(resultId: string): GradeRecord
  {
    GradeRecord(resultId, None, 0.0, JNull, None)
  }

  /**
   * `get_request_json`: an ungraded result (no row, or a null final grade) is
   * reported under the requested id; a graded one without a time is a 400.
   * The final grade column is read back as a decimal string, so only null is empty.
   */
  function ResultRecord(grades: seq<Grade>, itemId: string, resultId: string): (r: Try<GradeRecord>)
    ensures r.Thrown? ==> r.code == 400
    ensures r.Done? ==> r.value.userid == resultId
    ensures FindGrade(grades, itemId, resultId).None? ==> r == Done(Ungraded(resultId))
    ensures r.Thrown? <==>
      var g := FindGrade(grades, itemId, resultId);
      g.Some? && g.value.finalgrade.Some? && NoTime(g.value.timemodified)
    ensures r.Done? && FindGrade(grades, itemId, resultId).Some? ==>
      var g := FindGrade(grades, itemId, resultId).value;
      r.value == GradeRecord(resultId, g.finalgrade, g.rawgrademax, g.feedback, g.timemodified)
  {
    match FindGrade(grades, itemId, resultId)
    case None => Done(Ungraded(resultId))
    case Some(g) =>
      if g.finalgrade.None? then Done(RecordOf(g).(userid := resultId))
      else if NoTime(g.timemodified) then Thrown(400)
      else Done(RecordOf(g))
  }

  /** A result read back after a score was recorded with its time is the grade of that row. */
  lemma GradedResultIsReported(grades: seq<Grade>, itemId: string, resultId: string, g: Grade)
    requires g in grades && GradeMatches(g, itemId, resultId)
    requires forall h :: h in grades && GradeMatches(h, itemId, resultId) ==> h == g
    requires g.finalgrade.Some? && !NoTime(g.timemodified)
    ensures ResultRecord(grades, itemId, resultId) == Done(RecordOf(g))
  {
    var f := FindGrade(grades, itemId, resultId);
    assert f.Some?;
    assert f.value == g;
  }

  /**
   * `execute`. A method other than GET throws 405 before the handler's own
   * exception handling, so it escapes `execute` with the response untouched.
   */
  method Execute(gb: Gradebook, resp: Response, req: Request, env: Env) returns (escaped: Option<int>)
    requires gb.Valid()
    modifies resp
    ensures req.httpMethod != "GET" ==> escaped == Some(405) && resp.State() == old(resp.State())
    ensures req.httpMethod == "GET" ==> escaped == None
    ensures var g := Gate(gb.Snapshot(), req, env.queryOk);
      req.httpMethod == "GET" && g.Thrown? ==> resp.State() == old(resp.State()).(code := g.code)
    ensures var g := Gate(gb.Snapshot(), req, env.queryOk);
      req.httpMethod == "GET" && g.Done? ==>
        var r := ResultRecord(gb.grades, req.itemId, req.resultId);
        resp.State() == if r.Thrown? then old(resp.State()).(contentType := Format, code := r.code)
          else old(resp.State()).(contentType := Format,
                 body := Doc(ResultToJson(r.value, req.lineItemEndpoint, true, env.date)))
  {
    if req.httpMethod != "GET" {
      return Some(405);
    }
    escaped := None;
    var g := Gate(gb.Snapshot(), req, env.queryOk);
    if g.Thrown? {
      resp.SetCode(g.code);
      return;
    }
    resp.SetContentType(Format);
    var r := ResultRecord(gb.grades, req.itemId, req.resultId);
    if r.Thrown? {
      resp.SetCode(r.code);
      return;
    }
    resp.SetBody(Doc(ResultToJson(r.value, req.lineItemEndpoint, true, env.date)));
  }
}
