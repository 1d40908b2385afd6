/**
 * What every resource shares: the request as the host dispatcher hands it over
 * (method, negotiated types, the answer of the tool-proxy check, the parsed URI
 * template parameters and the decoded body), the answers of the collaborators,
 * and the response object that `execute` fills in.
 */
module ResourceBase {
  import opened PhpValues
  import opened GradeStore

  /** What a resource constructor declares. */
  datatype Descriptor = Descriptor(
    id: string,
    template: string,
    variable: string,
    formats: seq<string>,
    methods: seq<string>)

  datatype Request = Request(
    httpMethod: string,
    accept: string,           // `get_accept()`
    contentType: string,      // `get_content_type()`
    authorized: bool,         // `check_tool_proxy(null, request data)`
    contextId: string,        // URI template parameters
    itemId: string,
    resultId: string,
    body: Json,               // `json_decode` of the request data; null when it does not decode
    endpoint: string,         // this resource's `get_endpoint()`
    lineItemEndpoint: string, // the LineItem resource's `get_endpoint()`
    toolProxyId: int)         // `get_tool_proxy()->id`

  /** The answers of the collaborators a request meets. */
  datatype Env = Env(
    queryOk: bool,            // the grade item query does not throw
    updateOk: bool,           // `$item->update()`
    deleteOk: bool,           // `$gradeitem->delete()`
    ownerInsertOk: bool,      // `$DB->insert_record(ownership row)`
    gradeUpdateOk: bool,      // `grade_update` answers GRADE_UPDATE_OK
    now: int,                 // `time()`
    parseTime: Json -> Option<int>,  // `strtotime`, None for false
    date: Option<int> -> string)     // `date('Y-m-d\TH:iO', t)`

  /** The type a request presents: Accept for GET, Content-Type otherwise. */
  function PresentedType(req: Request): string
  {
    if req.httpMethod == "GET" then req.accept else req.contentType
  }

  /** A present content type must be one of the resource's formats. */
  predicate TypeAccepted(ctype: string, formats: seq<string>)
  {
    EmptyString(ctype) || ctype in formats
  }

  /**
   * The collection gate: a request is a container request when it presents no type
   * or the container type (`formats[0]`), and it passes only if it is a container
   * request exactly when it is not a POST.
   */
  predicate ContainerGate(req: Request, formats: seq<string>)
    requires |formats| == 2
  {
    var ctype := PresentedType(req);
    var container := EmptyString(ctype) || ctype == formats[0];
    && container != (req.httpMethod == "POST")
    && TypeAccepted(ctype, formats)
  }

  /**
   * The collection gate, case by case: a POST must present exactly the element
   * type; any other method must present the container type or none.
   */
  lemma ContainerGateExact(req: Request, formats: seq<string>)
    requires |formats| == 2 && formats[0] != formats[1] && !EmptyString(formats[1])
    ensures ContainerGate(req, formats) <==>
      if req.httpMethod == "POST" then PresentedType(req) == formats[1]
      else EmptyString(PresentedType(req)) || PresentedType(req) == formats[0]
  {
  }

  /** `$sep . element` pieces of a container listing. */
  datatype Fragment = Sep(text: string) | Elem(fields: map<string, Json>)

  /**
   * A listing of `elems` as the container handlers write it: each element
   * preceded by `first` (the first one) or `sep` (every later one).
   */
  function Joined(elems: seq<map<string, Json>>, first: string, sep: string): (r: seq<Fragment>)
    ensures |r| == 2 * |elems|
  {
    if elems == [] then []
    else Joined(elems[..|elems| - 1], first, sep)
         + [Sep(if |elems| == 1 then first else sep), Elem(elems[|elems| - 1])]
  }

  /** Element `i` of a listing sits at position `2 i + 1`, behind its separator. */
  lemma {:induction false} JoinedAt(elems: seq<map<string, Json>>, first: string, sep: string, i: nat)
    requires i < |elems|
    ensures Joined(elems, first, sep)[2 * i] == Sep(if i == 0 then first else sep)
    ensures Joined(elems, first, sep)[2 * i + 1] == Elem(elems[i])
  {
    if i < |elems| - 1 {
      JoinedAt(elems[..|elems| - 1], first, sep, i);
    }
  }

  /** One more element extends the listing by its separator and the element. */
  lemma JoinedStep(elems: seq<map<string, Json>>, i: nat, first: string, sep: string)
    requires i < |elems|
    ensures Joined(elems[..i + 1], first, sep)
         == Joined(elems[..i], first, sep) + [Sep(if i == 0 then first else sep), Elem(elems[i])]
  {
    assert elems[..i + 1][..i] == elems[..i];
  }

  /** Appending an element extends the listing by its separator and the element. */
  lemma JoinedSnoc(elems: seq<map<string, Json>>, e: map<string, Json>, first: string, sep: string)
    ensures Joined(elems + [e], first, sep)
         == Joined(elems, first, sep) + [Sep(if elems == [] then first else sep), Elem(e)]
  {
    assert (elems + [e])[..|elems|] == elems;
  }

  /** The fixed part of a container listing around its elements. */
  datatype Envelope =
    | LineItemPage(endpoint: string, contextId: string)
    | ScorePage(endpoint: string)

  datatype Body =
    | NoBody
    | Doc(fields: map<string, Json>)
    | Page(envelope: Envelope, fragments: seq<Fragment>)

  datatype ResponseState = ResponseState(code: int, contentType: string, body: Body)

  /** The response object; `execute` sets its code, content type and body. */
  class Response {
    var code: int
    var contentType: string
    var body: Body

    function State(): ResponseState
      reads this
    {
      ResponseState(code, contentType, body)
    }

    constructor ()
      ensures State() == ResponseState(200, "", NoBody)
    {
      code, contentType, body := 200, "", NoBody;
    }

    method SetCode(c: int)
      modifies this
      ensures State() == old(State()).(code := c)
    {
      code := c;
    }

    method SetContentType(t: string)
      modifies this
      ensures State() == old(State()).(contentType := t)
    {
      contentType := t;
    }

    method SetBody(b: Body)
      modifies this
      ensures State() == old(State()).(body := b)
    {
      body := b;
    }
  }

  /** `$o` with `@id` (and, for line items, `scores`) set, as the POST and PUT handlers echo it. */
  function Echo(o: Json, extra: map<string, Json>): (r: map<string, Json>)
    requires o.JObj?
    ensures r.Keys == o.fields.Keys + extra.Keys
    ensures forall k :: k in extra ==> r[k] == extra[k]
    ensures forall k :: k in o.fields && k !in extra ==> r[k] == o.fields[k]
  {
    o.fields + extra
  }
}
