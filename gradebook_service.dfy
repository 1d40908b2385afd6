/**
 * The gradebook service: ownership-scoped lookup of grade items, the grade
 * record built for `grade_update` when a score is applied, and the three
 * JSON-LD serialisers (line item, result, score).
 */
module GradebookService {
  import opened PhpValues
  import opened GradeStore
  import opened ResourceBase

  // ------------------------------------------------------------- lookup

  /** `$any`: whether items created by a plain LTI launch are visible too. */
  datatype LookupPolicy = AnyOwner | ServiceOwnedOnly

  /** An ownership row binds the item to the tool proxy. */
  predicate OwnedBy(db: Db, item: Item, proxy: int)
  {
    item.id in db.owners && db.owners[item.id].toolproxyid == proxy
  }

  /** An item of an LTI activity whose tool type belongs to the tool proxy. */
  predicate LaunchedBy(db: Db, item: Item, proxy: int)
  {
    && item.itemtype == "mod"
    && item.itemmodule == "lti"
    && item.iteminstance.Some?
    && item.iteminstance.value in db.ltiProxy
    && db.ltiProxy[item.iteminstance.value] == proxy
  }

  predicate Visible(db: Db, policy: LookupPolicy, item: Item, proxy: int)
  {
    OwnedBy(db, item, proxy) || (policy == AnyOwner && LaunchedBy(db, item, proxy))
  }

  /** The query's WHERE clause: the course, optionally the item id, and visibility. */
  predicate Selected(db: Db, policy: LookupPolicy, contextId: string, itemId: Option<string>,
                     proxy: int, item: Item)
  {
    && IntToString(item.courseid) == contextId
    && (itemId.None? || IntToString(item.id) == itemId.value)
    && Visible(db, policy, item, proxy)
  }

  /** The rows the query returns, in table order. */
  function Rows(items: seq<Item>, db: Db, policy: LookupPolicy, contextId: string,
                itemId: Option<string>, proxy: int): (r: seq<Item>)
    ensures forall x :: x in r <==> x in items && Selected(db, policy, contextId, itemId, proxy, x)
    ensures |r| <= |items|
  {
    if items == [] then []
    else
      (if Selected(db, policy, contextId, itemId, proxy, items[0]) then [items[0]] else [])
      + Rows(items[1..], db, policy, contextId, itemId, proxy)
  }

  /** With unique ids, at most one row matches an item id. */
  lemma {:induction false} RowsAtMostOne(items: seq<Item>, db: Db, policy: LookupPolicy,
                                         contextId: string, itemId: string, proxy: int)
    requires UniqueIds(items)
    ensures |Rows(items, db, policy, contextId, Some(itemId), proxy)| <= 1
  {
    if items != [] {
      var rest := Rows(items[1..], db, policy, contextId, Some(itemId), proxy);
      RowsAtMostOne(items[1..], db, policy, contextId, itemId, proxy);
      if Selected(db, policy, contextId, Some(itemId), proxy, items[0]) && rest != [] {
        assert rest[0] in items[1..];
        var k :| 0 <= k < |items[1..]| && items[1..][k] == rest[0];
        assert items[k + 1].id != items[0].id;
        IntToStringInjective(items[0].id, rest[0].id);
        assert false;
      }
    }
  }

  /**
   * `get_lineitem`: the item when exactly one row matches, otherwise (or when the
   * query throws) none.
   */
  function GetLineItem(db: Db, contextId: string, itemId: string, proxy: int,
                       policy: LookupPolicy, queryOk: bool): (r: Option<Item>)
    ensures r.Some? ==> r.value in db.items && Selected(db, policy, contextId, Some(itemId), proxy, r.value)
    ensures !queryOk ==> r == None
    ensures queryOk && UniqueIds(db.items) ==>
      (r.Some? <==> exists x :: x in db.items && Selected(db, policy, contextId, Some(itemId), proxy, x))
  {
    if !queryOk then None
    else
      var rows := Rows(db.items, db, policy, contextId, Some(itemId), proxy);
      if |rows| == 1 then
        assert rows[0] in rows;
        Some(rows[0])
      else
        if UniqueIds(db.items) then
          RowsAtMostOne(db.items, db, policy, contextId, itemId, proxy);
          assert rows == [];
          None
        else None
  }

  /** A strict lookup that succeeds also succeeds under the permissive policy. */
  lemma StrictLookupImpliesAny(db: Db, contextId: string, itemId: string, proxy: int, queryOk: bool)
    requires UniqueIds(db.items)
    requires GetLineItem(db, contextId, itemId, proxy, ServiceOwnedOnly, queryOk).Some?
    ensures GetLineItem(db, contextId, itemId, proxy, AnyOwner, queryOk)
         == GetLineItem(db, contextId, itemId, proxy, ServiceOwnedOnly, queryOk)
  {
    var x := GetLineItem(db, contextId, itemId, proxy, ServiceOwnedOnly, queryOk).value;
    assert Selected(db, AnyOwner, contextId, Some(itemId), proxy, x);
    var any := GetLineItem(db, contextId, itemId, proxy, AnyOwner, queryOk);
    assert any.Some?;
    var y := any.value;
    IntToStringInjective(x.id, y.id);
    SameIdSameItem(db.items, x, y);
  }

  lemma SameIdSameItem(items: seq<Item>, x: Item, y: Item)
    requires UniqueIds(items) && x in items && y in items && x.id == y.id
    ensures x == y
  {
  }

  /** `get_lineitems`: every item of the course visible to the tool proxy; a failing query is a 500. */
  function GetLineItems(db: Db, contextId: string, proxy: int, queryOk: bool): (r: Try<seq<Item>>)
    ensures r.Thrown? <==> !queryOk
    ensures r.Thrown? ==> r.code == 500
    ensures r.Done? ==> forall x :: x in r.value <==>
      x in db.items && IntToString(x.courseid) == contextId && Visible(db, AnyOwner, x, proxy)
  {
    if !queryOk then Thrown(500) else Done(Rows(db.items, db, AnyOwner, contextId, None, proxy))
  }

  /**
   * What each item resource checks before dispatching: the tool proxy (401), its
   * own parameter and content type checks (400), then that the item is visible
   * (`notFound`).
   */
  function ItemGate(db: Db, req: Request, paramsOk: bool, policy: LookupPolicy, notFound: int,
                    queryOk: bool): (r: Try<Item>)
    ensures !req.authorized ==> r == Thrown(401)
    ensures req.authorized && !paramsOk ==> r == Thrown(400)
    ensures req.authorized && paramsOk && r.Thrown? ==> r.code == notFound
    ensures r.Done? ==>
      && req.authorized && paramsOk && r.value in db.items
      && Selected(db, policy, req.contextId, Some(req.itemId), req.toolProxyId, r.value)
    ensures req.authorized && paramsOk && queryOk && UniqueIds(db.items) ==>
      (r.Done? <==> (exists x :: x in db.items &&
                       Selected(db, policy, req.contextId, Some(req.itemId), req.toolProxyId, x)))
  {
    if !req.authorized then Thrown(401)
    else if !paramsOk then Thrown(400)
    else
      match GetLineItem(db, req.contextId, req.itemId, req.toolProxyId, policy, queryOk)
      case None => Thrown(notFound)
      case Some(item) => Done(item)
  }

  // ----------------------------------------------------- score application

  /** The user table has a row whose id is the given value. */
  predicate UserExists(users: set<int>, userid: Json)
  {
    exists u :: u in users && IntToString(u) == StrVal(userid)
  }

  /** The submitted maximum is used only when it differs from the item's and is not zero. */
  predicate Rescales(item: Item, result: Json)
  {
    && Isset(result, "scoreGiven")
    && Isset(result, "scoreMaximum")
    && FloatsDifferent(FloatVal(Member(result, "scoreMaximum")), item.grademax)
    && FloatsDifferent(FloatVal(Member(result, "scoreMaximum")), 0.0)
  }

  /** `grade_floatval($rawgrade * $item->grademax / $max)` */
  function Rescale(given: real, itemMax: real, max: real): real
    requires max != 0.0
  {
    Round5(given * itemMax / max)
  }

  /** The raw grade sent to the gradebook, on the item's scale. */
  function RawGrade(item: Item, result: Json): (r: Option<real>)
    ensures r.Some? <==> Isset(result, "scoreGiven")
    ensures Isset(result, "scoreGiven") && !Rescales(item, result) ==>
      r == Some(Round5(FloatVal(Member(result, "scoreGiven"))))
    ensures Rescales(item, result) ==>
      && FloatVal(Member(result, "scoreMaximum")) != 0.0
      && r == Some(Rescale(Round5(FloatVal(Member(result, "scoreGiven"))), item.grademax,
                           FloatVal(Member(result, "scoreMaximum"))))
  {
    if !Isset(result, "scoreGiven") then None
    else
      var given := Round5(FloatVal(Member(result, "scoreGiven")));
      if Rescales(item, result) then
        var max := FloatVal(Member(result, "scoreMaximum"));
        NonZeroWhenDifferentFromZero(max);
        Some(Rescale(given, item.grademax, max))
      else Some(given)
  }

  /** A submitted maximum equal to the item's never rescales. */
  lemma NoRescaleAtSameMaximum(item: Item, result: Json)
    requires Isset(result, "scoreGiven")
    requires FloatVal(Member(result, "scoreMaximum")) == item.grademax
    ensures RawGrade(item, result) == Some(Round5(FloatVal(Member(result, "scoreGiven"))))
  {
  }

  /** A submitted maximum of zero never rescales, whatever the item's maximum. */
  lemma NoRescaleAtZeroMaximum(item: Item, result: Json)
    requires Isset(result, "scoreGiven")
    requires FloatVal(Member(result, "scoreMaximum")) == 0.0
    ensures RawGrade(item, result) == Some(Round5(FloatVal(Member(result, "scoreGiven"))))
  {
  }

  /** 45 out of 50 on an item out of 100 is recorded as 90. */
  lemma RescaleExample(item: Item)
    requires item.grademax == 100.0
    ensures RawGrade(item, JObj(map["scoreGiven" := JInt(45), "scoreMaximum" := JInt(50)])) == Some(90.0)
  {
    var result := JObj(map["scoreGiven" := JInt(45), "scoreMaximum" := JInt(50)]);
    assert Member(result, "scoreGiven") == JInt(45);
    assert Member(result, "scoreMaximum") == JInt(50);
    assert Round5(45.0) == 45.0 by { RoundHalfAwayOfInt(4500000); }
    assert Round5(50.0) == 50.0 by { RoundHalfAwayOfInt(5000000); }
    assert Round5(100.0) == 100.0 by { RoundHalfAwayOfInt(10000000); }
    assert Round5(90.0) == 90.0 by { RoundHalfAwayOfInt(9000000); }
    assert Rescales(item, result);
  }

  /** The comment is passed on, as plain text, only when it is set and not empty. */
  predicate HasComment(result: Json)
  {
    Isset(result, "comment") && !Empty(Member(result, "comment"))
  }

  /** The `$grade` record `set_grade_item` hands to `grade_update`. */
  function BuildGrade(item: Item, result: Json, userid: Json, now: int,
                      parseTime: Json -> Option<int>): (g: GradeUpdate)
    ensures g.Apply? && g.userid == userid && g.rawgrademin == 0.0
    ensures g.rawgrade == RawGrade(item, result)
    ensures g.feedbackformat == FormatPlain <==> HasComment(result)
    ensures g.feedback == if HasComment(result) then Member(result, "comment") else JBool(false)
    ensures g.timemodified ==
      if Isset(result, "timestamp") then parseTime(Member(result, "timestamp")) else Some(now)
  {
    var comment := HasComment(result);
    Apply(userid, 0.0, RawGrade(item, result),
          if comment then Member(result, "comment") else JBool(false),
          if comment then FormatPlain else FormatMoodle,
          if Isset(result, "timestamp") then parseTime(Member(result, "timestamp")) else Some(now))
  }

  /**
   * `set_grade_item`: a 400 for an unknown user before anything is submitted;
   * otherwise the grade record is built field by field and submitted, and a
   * status other than OK is a 500.
   */
  method SetGradeItem(gb: Gradebook, item: Item, result: Json, userid: Json, env: Env)
    returns (t: Try<()>)
    requires gb.Valid()
    modifies gb
    ensures gb.Valid()
    ensures !UserExists(old(gb.users), userid) ==>
      t == Thrown(400) && gb.Snapshot() == old(gb.Snapshot())
    ensures UserExists(old(gb.users), userid) ==>
      && gb.Snapshot() == old(gb.Snapshot()).(submitted := old(gb.submitted)
           + [SubmissionFor(item, BuildGrade(item, result, userid, env.now, env.parseTime))])
      && t == if env.gradeUpdateOk then Done(()) else Thrown(500)
  {
    if !UserExists(gb.users, userid) {
      return Thrown(400);
    }
    Round5Zero();
    var rawgrademin := Round5(0.0);
    var rawgrade: Option<real> := None;
    var max: Option<Json> := None;
    if Isset(result, "scoreGiven") {
      rawgrade := Some(Round5(FloatVal(Member(result, "scoreGiven"))));
      if Isset(result, "scoreMaximum") {
        max := Some(Member(result, "scoreMaximum"));
      }
    }
    if max.Some? && FloatsDifferent(FloatVal(max.value), item.grademax)
       && FloatsDifferent(FloatVal(max.value), 0.0) {
      NonZeroWhenDifferentFromZero(FloatVal(max.value));
      rawgrade := Some(Rescale(rawgrade.value, item.grademax, FloatVal(max.value)));
    }
    var feedback: Json, format: FeedbackFormat;
    if Isset(result, "comment") && !Empty(Member(result, "comment")) {
      feedback, format := Member(result, "comment"), FormatPlain;
    } else {
      feedback, format := JBool(false), FormatMoodle;
    }
    var timemodified: Option<int>;
    if Isset(result, "timestamp") {
      timemodified := env.parseTime(Member(result, "timestamp"));
    } else {
      timemodified := Some(env.now);
    }
    var grade := Apply(userid, rawgrademin, rawgrade, feedback, format, timemodified);
    var ok := gb.SubmitGrade(SubmissionFor(item, grade), env.gradeUpdateOk);
    if !ok {
      return Thrown(500);
    }
    return Done(());
  }

  // --------------------------------------------------------- serialisers

  const LineItemContext := "http://purl.imsglobal.org/ctx/lis/v2/LineItem"
  const ResultContext := "http://purl.imsglobal.org/ctx/lis/v2p1/Result"
  const ScoreContext := "http://purl.imsglobal.org/ctx/lis/v1/Score"

  /** PHP truthiness of the optional context id argument. */
  predicate Truthy(contextId: Option<string>)
  {
    contextId.Some? && !EmptyString(contextId.value)
  }

  /** `item_to_json`, as the member map it encodes; the `ItemToJson…` lemmas below describe it. */
  function ItemToJson(item: Item, endpoint: string, isContainer: bool, contextId: Option<string>)
    : map<string, Json>
  {
    var id := endpoint + "/" + IntToString(item.id);
    var m0 := map["@id" := JStr(id)];
    var m1 := if isContainer then m0
              else m0["@context" := JArr([JStr(LineItemContext)])]["@type" := JStr("LineItem")];
    var m2 := m1["label" := item.itemname]["lineItemScoreMaximum" := JInt(Truncate(item.grademax))];
    var m3 := if !Empty(item.idnumber) then m2["resourceId" := item.idnumber] else m2;
    var m4 := m3["scores" := JStr(id + "/scores")];
    var m5 := if !Empty(item.lineitemtype) then m4["lineItemType" := item.lineitemtype] else m4;
    var m6 := if Truthy(contextId) then m5["lineItemOf" := JObj(map["contextId" := JStr(contextId.value)])]
              else m5;
    if item.iteminstance.Some? then m6["resourceLinkId" := JStr(IntToString(item.iteminstance.value))]
    else m6
  }

  /** The id, label, maximum and scores URL are always written. */
  lemma ItemToJsonFixedKeys(item: Item, endpoint: string, isContainer: bool, contextId: Option<string>)
    ensures var r := ItemToJson(item, endpoint, isContainer, contextId);
      "@id" in r && "label" in r && "lineItemScoreMaximum" in r && "scores" in r
  {
  }
  /** The JSON-LD context and type are written only outside a container. */
  lemma ItemToJsonLinkedDataKeys(item: Item, endpoint: string, isContainer: bool, contextId: Option<string>)
    ensures var r := ItemToJson(item, endpoint, isContainer, contextId);
      ("@context" in r) == !isContainer && ("@type" in r) == !isContainer
  {
  }
  /** The other members are written only when their source is non-empty (set, for the instance). */
  lemma ItemToJsonOptionalKeys(item: Item, endpoint: string, isContainer: bool, contextId: Option<string>)
    ensures var r := ItemToJson(item, endpoint, isContainer, contextId);
      && ("resourceId" in r) == !Empty(item.idnumber)
      && ("lineItemType" in r) == !Empty(item.lineitemtype)
      && ("lineItemOf" in r) == Truthy(contextId)
      && ("resourceLinkId" in r) == item.iteminstance.Some?
  {
  }
  /** No member outside the line item vocabulary is written. */
  lemma ItemToJsonNoOtherKeys(item: Item, endpoint: string, isContainer: bool, contextId: Option<string>)
    ensures var r := ItemToJson(item, endpoint, isContainer, contextId);
      r.Keys <= {"@id", "@context", "@type", "label", "lineItemScoreMaximum", "resourceId",
                 "scores", "lineItemType", "lineItemOf", "resourceLinkId"}
  {
  }
  /** The id and scores URL are the endpoint followed by the item id. */
  lemma ItemToJsonUrls(item: Item, endpoint: string, isContainer: bool, contextId: Option<string>)
    ensures var r := ItemToJson(item, endpoint, isContainer, contextId);
      && "@id" in r && r["@id"] == JStr(endpoint + "/" + IntToString(item.id))
      && "scores" in r && r["scores"] == JStr(endpoint + "/" + IntToString(item.id) + "/scores")
  {
  }
  /** The label is the item name and the maximum its truncated grade maximum. */
  lemma ItemToJsonFixedValues(item: Item, endpoint: string, isContainer: bool, contextId: Option<string>)
    ensures var r := ItemToJson(item, endpoint, isContainer, contextId);
      && "label" in r && r["label"] == item.itemname
      && "lineItemScoreMaximum" in r && r["lineItemScoreMaximum"] == JInt(Truncate(item.grademax))
  {
  }
  /** Outside a container the item says it is a `LineItem` of the line item context. */
  lemma ItemToJsonLinkedDataValues(item: Item, endpoint: string, isContainer: bool, contextId: Option<string>)
    ensures var r := ItemToJson(item, endpoint, isContainer, contextId);
      !isContainer ==> && "@context" in r && r["@context"] == JArr([JStr(LineItemContext)])
                       && "@type" in r && r["@type"] == JStr("LineItem")
  {
  }
  /** The optional members carry their sources. */
  lemma ItemToJsonOptionalValues(item: Item, endpoint: string, isContainer: bool, contextId: Option<string>)
    ensures var r := ItemToJson(item, endpoint, isContainer, contextId);
      && (!Empty(item.idnumber) ==> "resourceId" in r && r["resourceId"] == item.idnumber)
      && (!Empty(item.lineitemtype) ==> "lineItemType" in r && r["lineItemType"] == item.lineitemtype)
      && (Truthy(contextId) ==> "lineItemOf" in r && r["lineItemOf"] == JObj(map["contextId" := JStr(contextId.value)]))
      && (item.iteminstance.Some? ==> "resourceLinkId" in r && r["resourceLinkId"] == JStr(IntToString(item.iteminstance.value)))
  {
  }

  /** A grade row as the result and score serialisers read it. */
  datatype GradeRecord = GradeRecord(
    userid: string,
    finalgrade: Option<real>,
    rawgrademax: real,
    feedback: Json,
    timemodified: Option<int>)

  function RecordOf(g: Grade): GradeRecord
  {
    GradeRecord(IntToString(g.userid), g.finalgrade, g.rawgrademax, g.feedback, g.timemodified)
  }

  function GradeValue(finalgrade: Option<real>): Json
  {
    if finalgrade.Some? then JReal(finalgrade.value) else JNull
  }

  /** `result_to_json`, as the member map it encodes. */
  function ResultToJson(g: GradeRecord, endpoint: string, includeContext: bool,
                        date: Option<int> -> string): map<string, Json>
  {
    var m0 := map["@id" := JStr(endpoint + "/results/" + g.userid)];
    var m1 := if includeContext then m0["@context" := JStr(ResultContext)]["@type" := JStr("Result")]
              else m0;
    var m2 := m1["resultScore" := GradeValue(g.finalgrade)]["resultMaximum" := JInt(Truncate(g.rawgrademax))];
    var m3 := if !Empty(g.feedback) then m2["comment" := g.feedback] else m2;
    m3["timestamp" := JStr(date(g.timemodified))]
  }

  /** The members `result_to_json` writes. */
  lemma ResultToJsonKeys(g: GradeRecord, endpoint: string, includeContext: bool, date: Option<int> -> string)
    ensures var r := ResultToJson(g, endpoint, includeContext, date);
      && "@id" in r && "resultScore" in r && "resultMaximum" in r && "timestamp" in r
      && ("@context" in r) == includeContext && ("@type" in r) == includeContext
      && ("comment" in r) == !Empty(g.feedback)
      && r.Keys <= {"@id", "@context", "@type", "resultScore", "resultMaximum", "comment", "timestamp"}
  {
  }

  /** The values `result_to_json` writes. */
  lemma ResultToJsonValues(g: GradeRecord, endpoint: string, includeContext: bool, date: Option<int> -> string)
    ensures var r := ResultToJson(g, endpoint, includeContext, date);
      && r["@id"] == JStr(endpoint + "/results/" + g.userid)
      && (includeContext ==> r["@context"] == JStr(ResultContext) && r["@type"] == JStr("Result"))
      && r["resultScore"] == GradeValue(g.finalgrade)
      && r["resultMaximum"] == JInt(Truncate(g.rawgrademax))
      && (!Empty(g.feedback) ==> r["comment"] == g.feedback)
      && r["timestamp"] == JStr(date(g.timemodified))
  {
  }

  /** `score_to_json`, as the member map it encodes. */
  function ScoreToJson(g: GradeRecord, endpoint: string, includeContext: bool,
                       date: Option<int> -> string): map<string, Json>
  {
    var m0 := map["@id" := JStr(endpoint + "/scores/" + g.userid)];
    var m1 := if includeContext then m0["@context" := JStr(ScoreContext)]["@type" := JStr("Score")]
              else m0;
    var m2 := m1["scoreGiven" := GradeValue(g.finalgrade)]["scoreMaximum" := JInt(Truncate(g.rawgrademax))];
    var m3 := if !Empty(g.feedback) then m2["comment" := g.feedback] else m2;
    m3["scoreOf" := JStr(endpoint)]["timestamp" := JStr(date(g.timemodified))]
      ["resultAgent" := JObj(map["userId" := JStr(g.userid)])]
  }

  /** The members `score_to_json` writes. */
  lemma ScoreToJsonKeys(g: GradeRecord, endpoint: string, includeContext: bool, date: Option<int> -> string)
    ensures var r := ScoreToJson(g, endpoint, includeContext, date);
      && "@id" in r && "scoreGiven" in r && "scoreMaximum" in r && "scoreOf" in r
      && "timestamp" in r && "resultAgent" in r
      && ("@context" in r) == includeContext && ("@type" in r) == includeContext
      && ("comment" in r) == !Empty(g.feedback)
      && r.Keys <= {"@id", "@context", "@type", "scoreGiven", "scoreMaximum", "comment", "scoreOf",
                    "timestamp", "resultAgent"}
  {
  }

  /** The values `score_to_json` writes. */
  lemma ScoreToJsonValues(g: GradeRecord, endpoint: string, includeContext: bool, date: Option<int> -> string)
    ensures var r := ScoreToJson(g, endpoint, includeContext, date);
      && r["@id"] == JStr(endpoint + "/scores/" + g.userid)
      && (includeContext ==> r["@context"] == JStr(ScoreContext) && r["@type"] == JStr("Score"))
      && r["scoreGiven"] == GradeValue(g.finalgrade)
      && r["scoreMaximum"] == JInt(Truncate(g.rawgrademax))
      && (!Empty(g.feedback) ==> r["comment"] == g.feedback)
      && r["scoreOf"] == JStr(endpoint)
      && r["timestamp"] == JStr(date(g.timemodified))
      && r["resultAgent"] == JObj(map["userId" := JStr(g.userid)])
  {
  }
}
