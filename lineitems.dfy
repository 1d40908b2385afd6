/**
 * The LineItems container, `/{context_id}/lineitems`: list the line items of a
 * course, or create one.
 */
module LineItemsResource {
  import opened PhpValues
  import opened GradeStore
  import opened ResourceBase
  import opened GradebookService

  const ContainerFormat := "application/vnd.ims.lis.v2.lineitemcontainer+json"
  const ItemFormat := "application/vnd.ims.lis.v2.lineitem+json"
  const Formats := [ContainerFormat, ItemFormat]

  const Resource := Descriptor("LineItem.collection", "/{context_id}/lineitems", "LineItems.url",
                               Formats, ["GET", "POST"])

  /** The separators `get_request_json` writes before the first and every later element. */
  const FirstSep := "        "
  const NextSep := ",\n        "

  /** The checks `execute` makes before dispatching; `None` lets the request through. */
  function Gate(req: Request): (r: Option<int>)
    ensures !req.authorized ==> r == Some(401)
    ensures req.authorized ==> (r == None <==> !EmptyString(req.contextId) && ContainerGate(req, Formats))
    ensures r.Some? ==> r.value == 400 || r.value == 401
  {
    if !req.authorized then Some(401)
    else if EmptyString(req.contextId) || !ContainerGate(req, Formats) then Some(400)
    else None
  }

  /** A GET lists the container, a POST sends one line item. */
  lemma GateTypes(req: Request)
    requires Gate(req) == None
    ensures req.httpMethod == "POST" ==> PresentedType(req) == ItemFormat
    ensures req.httpMethod != "POST" ==>
      EmptyString(PresentedType(req)) || PresentedType(req) == ContainerFormat
  {
    ContainerGateExact(req, Formats);
  }

  /** The members of the listing, one per line item, in container form. */
  function Elements(items: seq<Item>, endpoint: string): (r: seq<map<string, Json>>)
    ensures |r| == |items|
    ensures forall i :: 0 <= i < |items| ==> r[i] == ItemToJson(items[i], endpoint, true, None)
  {
    seq(|items|, i requires 0 <= i < |items| => ItemToJson(items[i], endpoint, true, None))
  }

  /** `get_request_json`'s loop: each item, in order, behind its separator. */
  method ListItems(items: seq<Item>, endpoint: string) returns (frags: seq<Fragment>)
    ensures frags == Joined(Elements(items, endpoint), FirstSep, NextSep)
  {
    ghost var elems := Elements(items, endpoint);
    frags := [];
    var sep := FirstSep;
    var i := 0;
    while i < |items|
      invariant 0 <= i <= |items|
      invariant frags == Joined(elems[..i], FirstSep, NextSep)
      invariant sep == if i == 0 then FirstSep else NextSep
    {
      var e := ItemToJson(items[i], endpoint, true, None);
      JoinedStep(elems, i, FirstSep, NextSep);
      frags := frags + [Sep(sep), Elem(e)];
      sep := NextSep;
      i := i + 1;
    }
    assert elems[..|items|] == elems;
  }

  /** Every element of a listing is an item of the course that the tool proxy can see. */
  lemma ListedItemsAreVisible(db: Db, contextId: string, proxy: int, endpoint: string, k: nat)
    requires GetLineItems(db, contextId, proxy, true).Done?
    requires k < |GetLineItems(db, contextId, proxy, true).value|
    ensures var items := GetLineItems(db, contextId, proxy, true).value;
      && Joined(Elements(items, endpoint), FirstSep, NextSep)[2 * k + 1]
         == Elem(ItemToJson(items[k], endpoint, true, None))
      && items[k] in db.items && IntToString(items[k].courseid) == contextId
      && Visible(db, AnyOwner, items[k], proxy)
  {
    var items := GetLineItems(db, contextId, proxy, true).value;
    JoinedAt(Elements(items, endpoint), FirstSep, NextSep, k);
    assert items[k] in items;
  }

  /** What `post_request_json` accepts: a non-empty body whose `@type` is (loosely) `LineItem`. */
  predicate PostValid(json: Json)
  {
    !Empty(json) && Isset(json, "@type") && LooseEqualsString(Member(json, "@type"), "LineItem")
  }

  /** A member of the body, or the default when it is not set. */
  function MemberOr(json: Json, key: string, default: Json): (v: Json)
    ensures Isset(json, key) ==> v == Member(json, key)
    ensures !Isset(json, key) ==> v == default
  {
    if Isset(json, key) then Member(json, key) else default
  }

  /** The grade item `post_request_json` inserts, before the table gives it an id. */
  function NewItem(json: Json, contextId: string, now: int): (item: Item)
    ensures item.itemname == MemberOr(json, "label", JStr("Item " + IntToString(now)))
    ensures item.grademax == FloatVal(MemberOr(json, "lineItemScoreMaximum", JInt(1)))
    ensures item.grademin == 0.0
    ensures item.idnumber == MemberOr(json, "resourceId", JStr(""))
    ensures item.courseid == IntVal(JStr(contextId))
    ensures item.itemtype == "mod" && item.itemmodule == "lti"
    ensures item.iteminstance.Some? <==>
      Isset(json, "resourceLinkId") && IsNumeric(Member(json, "resourceLinkId"))
    ensures item.iteminstance.Some? ==> item.iteminstance.value == IntVal(Member(json, "resourceLinkId"))
    ensures item.itemnumber == None && item.lineitemtype == JNull
  {
    Item(0, IntVal(JStr(contextId)),
         MemberOr(json, "label", JStr("Item " + IntToString(now))),
         FloatVal(MemberOr(json, "lineItemScoreMaximum", JInt(1))), 0.0,
         MemberOr(json, "resourceId", JStr("")),
         if Isset(json, "resourceLinkId") && IsNumeric(Member(json, "resourceLinkId"))
         then Some(IntVal(Member(json, "resourceLinkId"))) else None,
         "mod", "lti", None, JNull)
  }

  /** The ownership row the service records for a created item. */
  function NewOwner(json: Json, proxy: int): Owner
  {
    Owner(proxy, MemberOr(json, "lineItemType", JStr("")))
  }

  /** The created item's URL and the URL of its scores, as added to the echoed body. */
  function Links(endpoint: string, id: int): (m: map<string, Json>)
    ensures m.Keys == {"@id", "scores"}
    ensures m["@id"] == JStr(endpoint + "/" + IntToString(id))
    ensures m["scores"] == JStr(endpoint + "/" + IntToString(id) + "/scores")
  {
    map["@id" := JStr(endpoint + "/" + IntToString(id)),
        "scores" := JStr(endpoint + "/" + IntToString(id) + "/scores")]
  }

  /**
   * A line item this service created, in a course named in canonical form, is
   * found again by the strict lookup the LineItem resource's DELETE uses.
   */
  lemma CreatedItemIsOwned(db: Db, json: Json, contextId: string, now: int, proxy: int)
    requires ValidDb(db)
    requires IntToString(LeadingInt(contextId)) == contextId
    ensures var id := db.nextId;
      var db' := db.(items := db.items + [NewItem(json, contextId, now).(id := id)],
                     owners := db.owners[id := NewOwner(json, proxy)], nextId := id + 1);
      GetLineItem(db', contextId, IntToString(id), proxy, ServiceOwnedOnly, true)
        == Some(NewItem(json, contextId, now).(id := id))
  {
    var id := db.nextId;
    NextIdIsFresh(db);
    var x := NewItem(json, contextId, now).(id := id);
    var db' := db.(items := db.items + [x], owners := db.owners[id := NewOwner(json, proxy)], nextId := id + 1);
    assert UniqueIds(db'.items);
    assert x in db'.items;
    assert Selected(db', ServiceOwnedOnly, contextId, Some(IntToString(id)), proxy, x);
    var r := GetLineItem(db', contextId, IntToString(id), proxy, ServiceOwnedOnly, true);
    assert r.Some?;
    IntToStringInjective(r.value.id, id);
    SameIdSameItem(db'.items, r.value, x);
  }

  /** When the ownership row cannot be written the new item is left without one, hence not strictly visible. */
  lemma OrphanIsNotOwned(db: Db, json: Json, contextId: string, now: int, proxy: int)
    requires ValidDb(db)
    ensures var id := db.nextId;
      var db' := db.(items := db.items + [NewItem(json, contextId, now).(id := id)], nextId := id + 1);
      GetLineItem(db', contextId, IntToString(id), proxy, ServiceOwnedOnly, true) == None
  {
    var id := db.nextId;
    NextIdIsFresh(db);
    var db' := db.(items := db.items + [NewItem(json, contextId, now).(id := id)], nextId := id + 1);
    assert id !in db'.owners;
    forall x | x in db'.items
      ensures !Selected(db', ServiceOwnedOnly, contextId, Some(IntToString(id)), proxy, x)
    {
      IntToStringInjective(x.id, id);
    }
  }

  /** `post_request_json`, then the code and content type `execute` sets. */
  method PostRequest(gb: Gradebook, req: Request, env: Env) returns (t: Try<map<string, Json>>)
    requires gb.Valid()
    modifies gb
    ensures gb.Valid()
    ensures !PostValid(req.body) ==> t == Thrown(400) && gb.Snapshot() == old(gb.Snapshot())
    ensures PostValid(req.body) ==>
      var id := old(gb.nextId);
      && gb.Snapshot() == old(gb.Snapshot()).(
           items := old(gb.items) + [NewItem(req.body, req.contextId, env.now).(id := id)], nextId := id + 1,
           owners := if env.ownerInsertOk then old(gb.owners)[id := NewOwner(req.body, req.toolProxyId)]
                     else old(gb.owners))
      && t == if env.ownerInsertOk then Done(Echo(req.body, Links(req.endpoint, id))) else Thrown(500)
  {
    var json := req.body;
    if !PostValid(json) {
      return Thrown(400);
    }
    var item := NewItem(json, req.contextId, env.now);
    var id := gb.InsertItem(item);
    var ok := gb.InsertOwner(id, NewOwner(json, req.toolProxyId), env.ownerInsertOk);
    if !ok {
      return Thrown(500);
    }
    return Done(Echo(json, Links(req.endpoint, id)));
  }

  /** `execute`: every exception becomes the response code. */
  method Execute(gb: Gradebook, resp: Response, req: Request, env: Env)
    requires gb.Valid()
    modifies gb, resp
    ensures gb.Valid()
    ensures Gate(req).Some? ==>
      resp.State() == old(resp.State()).(code := Gate(req).value) && gb.Snapshot() == old(gb.Snapshot())
    ensures Gate(req) == None && req.httpMethod == "GET" ==>
      var items := GetLineItems(old(gb.Snapshot()), req.contextId, req.toolProxyId, env.queryOk);
      && gb.Snapshot() == old(gb.Snapshot())
      && resp.State() == if items.Thrown? then old(resp.State()).(code := 500)
         else old(resp.State()).(contentType := ContainerFormat,
           body := Page(LineItemPage(req.endpoint, req.contextId),
                        Joined(Elements(items.value, req.endpoint), FirstSep, NextSep)))
    ensures Gate(req) == None && req.httpMethod == "POST" ==>
      var id := old(gb.nextId);
      if !PostValid(req.body) then
        resp.State() == old(resp.State()).(code := 400) && gb.Snapshot() == old(gb.Snapshot())
      else
        && gb.Snapshot() == old(gb.Snapshot()).(
             items := old(gb.items) + [NewItem(req.body, req.contextId, env.now).(id := id)], nextId := id + 1,
             owners := if env.ownerInsertOk then old(gb.owners)[id := NewOwner(req.body, req.toolProxyId)]
                       else old(gb.owners))
        && resp.State() == if env.ownerInsertOk
           then ResponseState(201, ItemFormat, Doc(Echo(req.body, Links(req.endpoint, id))))
           else old(resp.State()).(code := 500)
    ensures Gate(req) == None && req.httpMethod != "GET" && req.httpMethod != "POST" ==>
      resp.State() == old(resp.State()).(code := 405) && gb.Snapshot() == old(gb.Snapshot())
  {
    var g := Gate(req);
    if g.Some? {
      resp.SetCode(g.value);
      return;
    }
    if req.httpMethod == "GET" {
      var items := GetLineItems(gb.Snapshot(), req.contextId, req.toolProxyId, env.queryOk);
      if items.Thrown? {
        resp.SetCode(items.code);
        return;
      }
      var frags := ListItems(items.value, req.endpoint);
      resp.SetContentType(ContainerFormat);
      resp.SetBody(Page(LineItemPage(req.endpoint, req.contextId), frags));
    } else if req.httpMethod == "POST" {
      var t := PostRequest(gb, req, env);
      if t.Thrown? {
        resp.SetCode(t.code);
        return;
      }
      resp.SetCode(201);
      resp.SetContentType(ItemFormat);
      resp.SetBody(Doc(t.value));
    } else {
      resp.SetCode(405);
    }
  }
}
