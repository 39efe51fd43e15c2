/**
 * How the Ohmage handle turns a server reply into a result or an exception:
 * the HTTP status check of BaseApi._perform_request, the Ohmage override that
 * reinterprets failed replies, OhmageApi._handle_response, and
 * OhmageApiException.codes.
 */
module Responses {
  import opened PyValues
  import opened PyInt

  /** What the transport hands back for one request: the status as a string,
      the raw body, and what `simplejson.loads(body)` yields (None when it
      raises). Network I/O and JSON parsing themselves are not modelled. */
  datatype HttpReply = HttpReply(status: string, body: string, decoded: Option<Json>)

  /** The declaration an XML reply begins with; such replies bypass JSON decoding. */
  const XmlDeclaration: string := "<?xml version=\"1.0\" encoding=\"UTF-8\"?>"

  /** OhmageApi._handle_response applied to a body with a successful HTTP
      status. A returned XML text is the Python str, a JStr. */
  function HandleResponse(data: string, decoded: Option<Json>): (r: Result<Json>)
    // XML is passed through unchanged, whatever `decoded` is
    ensures XmlDeclaration <= data ==> r == Success(JStr(data))
    // otherwise a result is always the decoded object, and only a "success" one
    ensures !(XmlDeclaration <= data) && r.Success? ==>
              decoded == Some(r.value) && Lookup(r.value, "result") == Success(JStr("success"))
    // a decoded dict whose `result` is not "success" raises its `errors`
    ensures !(XmlDeclaration <= data) && decoded.Some? && decoded.value.JObj? ==>
              var fields := decoded.value.fields;
              "result" in fields && fields["result"] != JStr("success") && "errors" in fields ==>
                r == Failure(OhmageApiException(fields["errors"]))
    // and that is the only way OhmageApiException arises
    ensures r.Failure? && r.error.OhmageApiException? ==>
              !(XmlDeclaration <= data) && decoded.Some? && decoded.value.JObj?
              && "result" in decoded.value.fields && decoded.value.fields["result"] != JStr("success")
              && "errors" in decoded.value.fields && r.error.errors == decoded.value.fields["errors"]
    // a decoded dict whose `result` is "success" is returned unchanged
    ensures !(XmlDeclaration <= data) && decoded.Some? && Lookup(decoded.value, "result") == Success(JStr("success")) ==>
              r == Success(decoded.value)
    ensures !(XmlDeclaration <= data) && decoded.None? ==> r == Failure(JsonDecodeError)
  {
    if XmlDeclaration <= data then Success(JStr(data))
    else match decoded
      case None => Failure(JsonDecodeError)
      case Some(result) =>
        match Lookup(result, "result")
        case Failure(e) => Failure(e)
        case Success(status) =>
          if status != JStr("success") then
            match Lookup(result, "errors")
            case Failure(e) => Failure(e)
            case Success(errors) => Failure(OhmageApiException(errors))
          else Success(result)
  }

  /** BaseApi._perform_request after the transport returned: a status other
      than "200" raises HTTPException carrying the body; otherwise the body
      goes to _handle_response. */
  function BaseOutcome(reply: HttpReply): (r: Result<Json>)
    ensures reply.status != "200" <==> r == Failure(HttpException(reply.status, reply.body))
    ensures reply.status == "200" ==> r == HandleResponse(reply.body, reply.decoded)
  {
    if reply.status != "200" then Failure(HttpException(reply.status, reply.body))
    else HandleResponse(reply.body, reply.decoded)
  }

  /** OhmageApi._perform_request as written. The handler for HTTPException
      fails to reinterpret a reply for two reasons: it evaluates
      `result['errors']`, a name that is not defined there, and its `raise` of
      OhmageApiException sits inside a `try` whose bare `except` catches every
      exception, that one included, and re-raises the original HTTPException. */
  function PerformRequestAsWritten(reply: HttpReply): (r: Result<Json>)
    ensures r == BaseOutcome(reply)
  {
    match BaseOutcome(reply)
    case Failure(HttpException(status, body)) =>
      // simplejson.loads(body), the assert, then the NameError (or, were the
      // name defined, the OhmageApiException): the bare except catches each
      // and every path ends in `raise ex`
      Failure(HttpException(status, body))
    case other => other
  }

  /** True when a failed reply's body decodes to a dict holding both `result`
      and `errors`, the shape the override means to reinterpret. This follows
      the intent of its comments (re-raise when the body is not JSON or the
      keys are missing) rather than the `in` test alone: that test also
      passes for a list or a string containing those words, but indexing such
      a value with 'errors' raises TypeError, which the same handler turns
      back into the original HTTPException. */
  predicate CarriesApiErrors(reply: HttpReply) {
    reply.decoded.Some? && reply.decoded.value.JObj?
    && "result" in reply.decoded.value.fields && "errors" in reply.decoded.value.fields
  }

  /** OhmageApi._perform_request as its comments describe it: a failed reply
      whose body is a dict with `result` and `errors` raises
      OhmageApiException with those errors; any other failed reply re-raises
      the original HTTPException. */
  function PerformRequest(reply: HttpReply): (r: Result<Json>)
    ensures reply.status == "200" ==> r == HandleResponse(reply.body, reply.decoded)
    ensures reply.status != "200" && CarriesApiErrors(reply) ==>
              r == Failure(OhmageApiException(reply.decoded.value.fields["errors"]))
    ensures reply.status != "200" && !CarriesApiErrors(reply) ==>
              r == Failure(HttpException(reply.status, reply.body))
  {
    match BaseOutcome(reply)
    case Failure(HttpException(status, body)) =>
      if CarriesApiErrors(reply) then
        Failure(OhmageApiException(reply.decoded.value.fields["errors"]))
      else Failure(HttpException(status, body))
    case other => other
  }

  /** A failed reply with a well-formed error body, on which the two differ. */
  lemma PerformRequestDiscrepancy()
    ensures var errors := JArr([JObj(map["code" := JStr("0200"), "text" := JStr("bad auth")])]);
            var reply := HttpReply("401", "{...}", Some(JObj(map["result" := JStr("failure"), "errors" := errors])));
            PerformRequestAsWritten(reply) == Failure(HttpException("401", "{...}"))
            && PerformRequest(reply) == Failure(OhmageApiException(errors))
  {
    var errors := JArr([JObj(map["code" := JStr("0200"), "text" := JStr("bad auth")])]);
    var reply := HttpReply("401", "{...}", Some(JObj(map["result" := JStr("failure"), "errors" := errors])));
    assert CarriesApiErrors(reply);
  }

  /** As written, no failed HTTP status ever surfaces as OhmageApiException. */
  lemma AsWrittenNeverReinterprets(reply: HttpReply)
    requires reply.status != "200"
    ensures !PerformRequestAsWritten(reply).Success?
    ensures !PerformRequestAsWritten(reply).error.OhmageApiException?
  {
  }

  /** The two agree whenever the HTTP status is "200" or the body is not an
      error dict. */
  lemma PerformRequestAgrees(reply: HttpReply)
    requires reply.status == "200" || !CarriesApiErrors(reply)
    ensures PerformRequest(reply) == PerformRequestAsWritten(reply)
  {
  }

  // ---------------------------------------------------------------------
  // OhmageApiException.codes

  /** `int(x['code'])` for one entry of an error list. */
  function ItemCode(x: Json): (r: Result<int>)
    ensures x.JObj? && "code" in x.fields ==> r == IntOf(x.fields["code"])
    ensures !x.JObj? ==> r == Failure(TypeError)
    ensures x.JObj? && "code" !in x.fields ==> r == Failure(KeyError("code"))
  {
    match Lookup(x, "code")
    case Failure(e) => Failure(e)
    case Success(code) => IntOf(code)
  }

  /** The list comprehension over a sequence of error entries, evaluated left
      to right: the codes in order, or the first entry's exception. */
  function CodesOf(items: seq<Json>): (r: Result<seq<int>>)
    ensures r.Success? <==> forall i :: 0 <= i < |items| ==> ItemCode(items[i]).Success?
    ensures r.Success? ==> |r.value| == |items|
    ensures r.Success? ==> forall i :: 0 <= i < |items| ==> ItemCode(items[i]) == Success(r.value[i])
    ensures r.Failure? ==> exists i :: 0 <= i < |items| && ItemCode(items[i]) == Failure(r.error)
                                      && forall j :: 0 <= j < i ==> ItemCode(items[j]).Success?
  {
    if items == [] then Success([])
    else
      match ItemCode(items[0])
      case Failure(e) => Failure(e)
      case Success(c) =>
        match CodesOf(items[1..])
        case Failure(e) =>
          assert forall j :: 1 <= j < |items| ==> items[j] == items[1..][j - 1];
          Failure(e)
        case Success(cs) =>
          assert forall j :: 1 <= j < |items| ==> items[j] == items[1..][j - 1];
          Success([c] + cs)
  }

  /** OhmageApiException.codes: `[int(x['code']) for x in self.errors]`.
      Iterating a list yields its entries; iterating a str or a dict yields
      strs, on which `x['code']` raises TypeError, so only an empty one gives
      []; None, a bool and an int are not iterable. */
  function Codes(errors: Json): (r: Result<seq<int>>)
    ensures errors.JArr? ==> r == CodesOf(errors.items)
    ensures (errors.JStr? && errors.s == "") || (errors.JObj? && errors.fields == map[]) ==> r == Success([])
    ensures r.Success? ==> errors.JArr? || errors == JStr("") || errors == JObj(map[])
  {
    match errors
    case JArr(items) => CodesOf(items)
    case JStr(s) => if s == "" then Success([]) else Failure(TypeError)
    case JObj(fields) => if fields == map[] then Success([]) else Failure(TypeError)
    case _ => Failure(TypeError)
  }

  /** An error entry as the server writes it: a dict with a str `code`
      (zero-padded decimal) and a str `text`. */
  function ErrorEntry(code: nat, text: string): Json {
    JObj(map["code" := JStr(ZeroPad(Decimal(code), 4)), "text" := JStr(text)])
  }

  /** For a list of server-written entries, codes() gives each entry's code
      as an integer, in the same order. */
  lemma {:induction false} CodesOfEntries(codes: seq<nat>, texts: seq<string>)
    requires |codes| == |texts|
    ensures Codes(JArr(seq(|codes|, i requires 0 <= i < |codes| => ErrorEntry(codes[i], texts[i]))))
            == Success(codes)
  {
    var items := seq(|codes|, i requires 0 <= i < |codes| => ErrorEntry(codes[i], texts[i]));
    forall i | 0 <= i < |items|
      ensures ItemCode(items[i]) == Success(codes[i])
    {
      ParsePaddedCode(codes[i], 4);
    }
    var r := CodesOf(items);
    assert r.Success?;
    assert r.value == codes;
  }

  /** The check samplekit.py makes on an authentication failure: an error
      entry with code "0200" puts 200 among the codes. */
  lemma AuthFailureCode(items: seq<Json>, k: nat)
    requires k < |items| && CodesOf(items).Success?
    requires items[k].JObj? && "code" in items[k].fields && items[k].fields["code"] == JStr("0200")
    ensures 200 in CodesOf(items).value
  {
    var cs := CodesOf(items).value;
    assert ItemCode(items[k]) == Success(cs[k]);
    AuthCodeParses();
    assert IntOf(JStr("0200")) == Success(200);
    assert cs[k] == 200;
  }

  lemma CodesOfSingle(x: Json, c: int)
    requires ItemCode(x) == Success(c)
    ensures CodesOf([x]) == Success([c])
  {
    assert [x][1..] == [];
    assert CodesOf([]) == Success([]);
    assert [c] + [] == [c];
  }

  /** A body that does not start with '<' is not XML. */
  lemma NotXml(data: string)
    requires data != [] && data[0] != '<'
    ensures !(XmlDeclaration <= data)
  {
    assert XmlDeclaration[0] == '<';
  }

  /** The failure body of a rejected login, end to end: the exception raised
      carries codes() == [200]. */
  lemma FailedLoginReply()
    ensures var errors := JArr([JObj(map["code" := JStr("0200"), "text" := JStr("bad auth")])]);
            var body := "{" + "\"result\":\"failure\",\"errors\":[{\"code\":\"0200\",\"text\":\"bad auth\"}]}";
            var r := HandleResponse(body, Some(JObj(map["result" := JStr("failure"), "errors" := errors])));
            r == Failure(OhmageApiException(errors)) && Codes(errors) == Success([200])
  {
    var errors := JArr([JObj(map["code" := JStr("0200"), "text" := JStr("bad auth")])]);
    var body := "{" + "\"result\":\"failure\",\"errors\":[{\"code\":\"0200\",\"text\":\"bad auth\"}]}";
    var decoded := JObj(map["result" := JStr("failure"), "errors" := errors]);
    NotXml(body);
    assert decoded.fields["result"] != JStr("success");
    assert HandleResponse(body, Some(decoded)) == Failure(OhmageApiException(errors));
    AuthCodeParses();
    var entry := errors.items[0];
    assert entry.fields["code"] == JStr("0200");
    assert ItemCode(entry) == Success(200);
    CodesOfSingle(entry, 200);
  }
}
