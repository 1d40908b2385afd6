/**
 * The LineItem resource, `/{context_id}/lineitems/{item_id}/lineitem`: read,
 * update and delete one grade item.
 */
module LineItemResource {
  import opened PhpValues
  import opened GradeStore
  import opened ResourceBase
  import opened GradebookService

  const Format := "application/vnd.ims.lis.v2.lineitem+json"

  const Resource := Descriptor("LineItem.item", "/{context_id}/lineitems/{item_id}/lineitem",
                               "LineItem.url", [Format], ["GET", "PUT", "DELETE"])

  /** Only a DELETE insists that the item was created through this service. */
  function PolicyFor(httpMethod: string): LookupPolicy
  {
    if httpMethod == "DELETE" then ServiceOwnedOnly else AnyOwner
  }

  /** A course is named and any content type presented is the line item format. */
  predicate ParamsOk(req: Request)
  {
    !EmptyString(req.contextId) && TypeAccepted(PresentedType(req), [Format])
  }

  /** The checks `execute` makes before dispatching; an item that is not found is a 400. */
  function Gate(db: Db, req: Request, queryOk: bool): Try<Item>
  {
    ItemGate(db, req, ParamsOk(req), PolicyFor(req.httpMethod), 400, queryOk)
  }

  /** An item found for a DELETE is owned by the requesting tool proxy. */
  lemma DeleteNeedsOwnership(db: Db, req: Request, queryOk: bool)
    requires req.httpMethod == "DELETE"
    requires Gate(db, req, queryOk).Done?
    ensures OwnedBy(db, Gate(db, req, queryOk).value, req.toolProxyId)
  {
  }

  /** An item only launched by the tool proxy, with no ownership row, cannot be deleted. */
  lemma LaunchedItemsAreNotDeleted(db: Db, req: Request, queryOk: bool, x: Item)
    requires req.httpMethod == "DELETE" && UniqueIds(db.items)
    requires x in db.items && IntToString(x.id) == req.itemId && x.id !in db.owners
    ensures Gate(db, req, queryOk).Thrown?
  {
    if Gate(db, req, queryOk).Done? {
      var y := Gate(db, req, queryOk).value;
      IntToStringInjective(x.id, y.id);
      SameIdSameItem(db.items, x, y);
    }
  }

  /** What `put_request` accepts: a non-empty decoded body whose `@type` is (loosely) `LineItem`. */
  predicate PutValid(json: Json)
  {
    !Empty(json) && Isset(json, "@type") && LooseEqualsString(Member(json, "@type"), "LineItem")
  }

  /** PHP 7 compares 0 and a non-numeric string as numbers, so an `@type` of 0 passes. */
  lemma PutValidAcceptsZeroType()
    ensures PutValid(JObj(map["@type" := JInt(0)]))
  {
    var json := JObj(map["@type" := JInt(0)]);
    assert Member(json, "@type") == JInt(0);
    assert Unsigned("LineItem") == "LineItem";
    assert DigitRun("LineItem") == 0;
  }

  /** `intval($item->iteminstance)`, where a missing instance is null, hence 0. */
  function InstanceVal(item: Item): int
  {
    if item.iteminstance.Some? then item.iteminstance.value else 0
  }

  /** The submitted label is taken when it is set and not identical to the current one. */
  predicate LabelChanges(item: Item, json: Json)
  {
    Isset(json, "label") && item.itemname != Member(json, "label")
  }

  /** The submitted resource id is taken when it is set and not identical to the current one. */
  predicate ResourceIdChanges(item: Item, json: Json)
  {
    Isset(json, "resourceId") && item.idnumber != Member(json, "resourceId")
  }

  /** The submitted maximum is taken when it rounds differently from the current one. */
  predicate MaximumChanges(item: Item, json: Json)
  {
    Isset(json, "lineItemScoreMaximum")
    && FloatsDifferent(Round5(item.grademax), Round5(FloatVal(Member(json, "lineItemScoreMaximum"))))
  }

  /** The submitted resource link id is taken when it is numeric and names another instance. */
  predicate InstanceChanges(item: Item, json: Json)
  {
    Isset(json, "resourceLinkId") && IsNumeric(Member(json, "resourceLinkId"))
    && InstanceVal(item) != IntVal(Member(json, "resourceLinkId"))
  }

  /**
   * The item after `put_request` copied the submitted members onto it, and whether
   * anything changed (so that it must be written back).
   */
  function Merge(item: Item, json: Json): (r: (Item, bool))
    ensures r.0.itemname == if Isset(json, "label") then Member(json, "label") else item.itemname
    ensures r.0.grademax ==
      if MaximumChanges(item, json) then Round5(FloatVal(Member(json, "lineItemScoreMaximum"))) else item.grademax
    ensures r.0.idnumber == if Isset(json, "resourceId") then Member(json, "resourceId") else item.idnumber
    ensures r.0.iteminstance ==
      if InstanceChanges(item, json) then Some(IntVal(Member(json, "resourceLinkId"))) else item.iteminstance
    ensures r.0 == item.(itemname := r.0.itemname, grademax := r.0.grademax,
                         idnumber := r.0.idnumber, iteminstance := r.0.iteminstance)
    ensures r.1 <==> r.0 != item
  {
    var labelChanges := LabelChanges(item, json);
    var idChanges := ResourceIdChanges(item, json);
    var max := Round5(FloatVal(Member(json, "lineItemScoreMaximum")));
    var merged := item.(
      itemname := if labelChanges then Member(json, "label") else item.itemname,
      grademax := if MaximumChanges(item, json) then max else item.grademax,
      idnumber := if idChanges then Member(json, "resourceId") else item.idnumber,
      iteminstance := if InstanceChanges(item, json) then Some(IntVal(Member(json, "resourceLinkId")))
                      else item.iteminstance);
    assert MaximumChanges(item, json) ==> merged.grademax != item.grademax by {
      Round5Idempotent(FloatVal(Member(json, "lineItemScoreMaximum")));
    }
    (merged, labelChanges || MaximumChanges(item, json) || idChanges || InstanceChanges(item, json))
  }

  /**
   * A second identical PUT, which fetches the row written by the first, writes
   * nothing when the label and the resource id it sends are strings.
   */
  lemma RepeatedPutWritesOnce(item: Item, json: Json)
    requires Isset(json, "label") ==> Member(json, "label").JStr?
    requires Isset(json, "resourceId") ==> Member(json, "resourceId").JStr?
    ensures !Merge(Stored(Merge(item, json).0), json).1
  {
    var m := Merge(item, json).0;
    var st := Stored(m);
    assert st.grademax == m.grademax && st.iteminstance == m.iteminstance;
    if MaximumChanges(item, json) {
      Round5Idempotent(FloatVal(Member(json, "lineItemScoreMaximum")));
    } else {
      Round5Idempotent(item.grademax);
    }
    assert !MaximumChanges(st, json);
    assert !LabelChanges(st, json);
    assert !ResourceIdChanges(st, json);
  }

  /**
   * A label sent as a number is stored as its decimal string, which is not
   * identical to the number, so every repetition of that PUT writes the item again.
   */
  lemma RepeatedNumericLabelWritesAgain(item: Item, n: int)
    ensures var json := JObj(map["label" := JInt(n)]);
      Merge(Stored(Merge(item, json).0), json).1
  {
    var json := JObj(map["label" := JInt(n)]);
    assert Member(json, "label") == JInt(n);
    var st := Stored(Merge(item, json).0);
    assert st.itemname == JStr(IntToString(n));
    assert LabelChanges(st, json);
  }

  /** The members of an item's own rendering that `put_request` reads. */
  lemma RenderingMembers(item: Item, endpoint: string, contextId: string)
    ensures var json := JObj(ItemToJson(item, endpoint, false, Some(contextId)));
      && Member(json, "label") == item.itemname
      && (Isset(json, "resourceId") ==> Member(json, "resourceId") == item.idnumber)
      && (Isset(json, "resourceLinkId") ==>
            item.iteminstance.Some? && Member(json, "resourceLinkId") == JStr(IntToString(item.iteminstance.value)))
      && Member(json, "lineItemScoreMaximum") == JInt(Truncate(item.grademax))
  {
    ItemToJsonFixedKeys(item, endpoint, false, Some(contextId));
    ItemToJsonOptionalKeys(item, endpoint, false, Some(contextId));
    ItemToJsonFixedValues(item, endpoint, false, Some(contextId));
    ItemToJsonOptionalValues(item, endpoint, false, Some(contextId));
  }

  /** An integer maximum is taken exactly when the current one rounds to something else. */
  lemma MaximumChangesTo(item: Item, json: Json, t: int)
    requires Member(json, "lineItemScoreMaximum") == JInt(t)
    ensures MaximumChanges(item, json) <==> Round5(item.grademax) != t as real
  {
    Round5OfInt(t);
    Round5Idempotent(item.grademax);
    assert Round5(Round5(t as real)) == t as real;
  }

  /**
   * A body that repeats the item's label, resource id and resource link id and
   * gives an integer maximum changes at most the maximum, to that integer.
   */
  lemma MergeOfEcho(item: Item, json: Json, t: int)
    requires Member(json, "label") == item.itemname
    requires Isset(json, "resourceId") ==> Member(json, "resourceId") == item.idnumber
    requires Isset(json, "resourceLinkId") ==>
      item.iteminstance.Some? && Member(json, "resourceLinkId") == JStr(IntToString(item.iteminstance.value))
    requires Member(json, "lineItemScoreMaximum") == JInt(t)
    ensures var m := Merge(item, json);
      && m.0.itemname == item.itemname && m.0.idnumber == item.idnumber
      && m.0.iteminstance == item.iteminstance
      && (m.1 <==> Round5(item.grademax) != t as real)
      && m.0.grademax == if m.1 then t as real else item.grademax
  {
    if item.iteminstance.Some? {
      IntValOfIntString(item.iteminstance.value);
    }
    MaximumChangesTo(item, json, t);
    Round5OfInt(t);
    assert FloatVal(Member(json, "lineItemScoreMaximum")) == t as real;
    var m := Merge(item, json);
    assert m.0.grademax == if MaximumChanges(item, json) then t as real else item.grademax;
    assert MaximumChanges(item, json) ==> item.grademax != t as real;
    assert m.0 == item.(grademax := m.0.grademax);
  }

  /**
   * Putting back what a GET returned keeps the label, resource id and resource
   * link id. The maximum was rendered by `intval`, so it is written back
   * truncated exactly when truncation changes its rounded value.
   */
  lemma MergeOfOwnRendering(item: Item, endpoint: string, contextId: string)
    ensures var m := Merge(item, JObj(ItemToJson(item, endpoint, false, Some(contextId))));
      && m.0.itemname == item.itemname && m.0.idnumber == item.idnumber
      && m.0.iteminstance == item.iteminstance
      && (m.1 <==> Round5(item.grademax) != Truncate(item.grademax) as real)
      && m.0.grademax == if m.1 then Truncate(item.grademax) as real else item.grademax
  {
    RenderingMembers(item, endpoint, contextId);
    MergeOfEcho(item, JObj(ItemToJson(item, endpoint, false, Some(contextId))), Truncate(item.grademax));
  }

  /** For an item with a whole maximum, putting back what a GET returned writes nothing. */
  lemma WholeMaximumRoundTrips(item: Item, endpoint: string, contextId: string)
    requires item.grademax == Truncate(item.grademax) as real
    ensures !Merge(item, JObj(ItemToJson(item, endpoint, false, Some(contextId)))).1
  {
    MergeOfOwnRendering(item, endpoint, contextId);
    Round5OfInt(Truncate(item.grademax));
  }

  /** An item out of 7.5 is written back out of 7 by a GET followed by a PUT of its rendering. */
  lemma FractionalMaximumIsTruncated(item: Item, endpoint: string, contextId: string)
    requires item.grademax == 7.5
    ensures var m := Merge(item, JObj(ItemToJson(item, endpoint, false, Some(contextId))));
      m.1 && m.0.grademax == 7.0
  {
    MergeOfOwnRendering(item, endpoint, contextId);
    assert Truncate(7.5) == 7;
    assert RoundHalfAway(750000.0) == 750000;
  }

  /** `put_request`, after the item has been found. */
  method PutRequest(gb: Gradebook, body: Json, olditem: Item, env: Env) returns (t: Try<()>)
    requires gb.Valid() && olditem in gb.items
    modifies gb
    ensures gb.Valid()
    ensures !PutValid(body) ==> t == Thrown(400) && gb.Snapshot() == old(gb.Snapshot())
    ensures PutValid(body) && !Merge(olditem, body).1 ==> t == Done(()) && gb.Snapshot() == old(gb.Snapshot())
    ensures PutValid(body) && Merge(olditem, body).1 ==>
      && t == (if env.updateOk then Done(()) else Thrown(500))
      && gb.Snapshot() == old(gb.Snapshot()).(items :=
           if env.updateOk then ReplaceItem(old(gb.items), Merge(olditem, body).0) else old(gb.items))
  {
    if !PutValid(body) {
      return Thrown(400);
    }
    var item := olditem;
    var update := false;
    if LabelChanges(item, body) {
      item := item.(itemname := Member(body, "label"));
      update := true;
    }
    if MaximumChanges(item, body) {
      item := item.(grademax := Round5(FloatVal(Member(body, "lineItemScoreMaximum"))));
      update := true;
    }
    if ResourceIdChanges(item, body) {
      item := item.(idnumber := Member(body, "resourceId"));
      update := true;
    }
    if InstanceChanges(item, body) {
      item := item.(iteminstance := Some(IntVal(Member(body, "resourceLinkId"))));
      update := true;
    }
    assert item == Merge(olditem, body).0 && update == Merge(olditem, body).1;
    if update {
      var ok := gb.UpdateItem(item, env.updateOk);
      if !ok {
        return Thrown(500);
      }
    }
    return Done(());
  }

  /** `delete_request`: the grade item goes; a failed delete is a 500. */
  method DeleteRequest(gb: Gradebook, item: Item, env: Env) returns (t: Try<()>)
    requires gb.Valid()
    modifies gb
    ensures gb.Valid()
    ensures t == if env.deleteOk then Done(()) else Thrown(500)
    ensures gb.Snapshot() == old(gb.Snapshot()).(items :=
      if env.deleteOk then RemoveItem(old(gb.items), item.id) else old(gb.items))
  {
    var ok := gb.DeleteItem(item.id, env.deleteOk);
    if !ok {
      return Thrown(500);
    }
    return Done(());
  }

  /** `execute`: every exception becomes the response code; the rest of the response is left alone. */
  method Execute(gb: Gradebook, resp: Response, req: Request, env: Env)
    requires gb.Valid()
    modifies gb, resp
    ensures gb.Valid()
    ensures var g := Gate(old(gb.Snapshot()), req, env.queryOk);
      g.Thrown? ==> resp.State() == old(resp.State()).(code := g.code) && gb.Snapshot() == old(gb.Snapshot())
    ensures var g := Gate(old(gb.Snapshot()), req, env.queryOk);
      g.Done? && req.httpMethod == "GET" ==>
        && resp.State() == old(resp.State()).(contentType := Format,
             body := Doc(ItemToJson(g.value, req.endpoint, false, Some(req.contextId))))
        && gb.Snapshot() == old(gb.Snapshot())
    ensures var g := Gate(old(gb.Snapshot()), req, env.queryOk);
      g.Done? && req.httpMethod == "PUT" ==>
        var m := Merge(g.value, req.body);
        var write := PutValid(req.body) && m.1;
        var code := if !PutValid(req.body) then Some(400) else if m.1 && !env.updateOk then Some(500) else None;
        && resp.State() == (if code.Some? then old(resp.State()).(code := code.value) else old(resp.State()))
        && gb.Snapshot() == old(gb.Snapshot()).(items :=
             if write && env.updateOk then ReplaceItem(old(gb.items), m.0) else old(gb.items))
    ensures var g := Gate(old(gb.Snapshot()), req, env.queryOk);
      g.Done? && req.httpMethod == "DELETE" ==>
        && resp.State() == (if env.deleteOk then old(resp.State()) else old(resp.State()).(code := 500))
        && gb.Snapshot() == old(gb.Snapshot()).(items :=
             if env.deleteOk then RemoveItem(old(gb.items), g.value.id) else old(gb.items))
    ensures var g := Gate(old(gb.Snapshot()), req, env.queryOk);
      g.Done? && req.httpMethod !in ["GET", "PUT", "DELETE"] ==>
        resp.State() == old(resp.State()).(code := 405) && gb.Snapshot() == old(gb.Snapshot())
  {
    var g := Gate(gb.Snapshot(), req, env.queryOk);
    if g.Thrown? {
      resp.SetCode(g.code);
      return;
    }
    var item := g.value;
    var t: Try<()>;
    if req.httpMethod == "GET" {
      resp.SetContentType(Format);
      resp.SetBody(Doc(ItemToJson(item, req.endpoint, false, Some(req.contextId))));
      t := Done(());
    } else if req.httpMethod == "PUT" {
      t := PutRequest(gb, req.body, item, env);
    } else if req.httpMethod == "DELETE" {
      t := DeleteRequest(gb, item, env);
    } else {
      t := Thrown(405);
    }
    if t.Thrown? {
      resp.SetCode(t.code);
    }
  }
}
