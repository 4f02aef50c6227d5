/**
 * The request dispatcher: the `query` closure of _get_subsonic_query_func
 * (subsonic_client.py). It builds the request URL, sends one request and
 * classifies what comes back.
 */
module Dispatch {
  import opened Errors
  import opened Json
  import opened Text
  import opened Transport

  /** The library functions the dispatcher calls: urllib.parse.quote_plus, and repr for lists and dicts. */
  datatype Runtime = Runtime(quotePlus: string -> string, repr: Json -> string)

  /** The closure _get_subsonic_query_func(connection_uri, rest_params) returns, with the network it reaches. */
  datatype Dispatcher = Dispatcher(connectionUri: string, restParams: string, net: Network, rt: Runtime)

  /** What a successful query returns: the raw content (process=False) or the envelope's `subsonic-response`. */
  datatype Reply = Raw(content: seq<byte>) | Data(response: Json)

  /** A `parameters` dict in iteration order; a None value is JNull. */
  type Params = seq<(string, Json)>

  /** The part of every URL that precedes the parameters. */
  function Base(d: Dispatcher, action: string): string
  {
    d.connectionUri + "/rest/" + action + ".view?" + d.restParams
  }

  /** `name=quote_plus(str(value))` */
  function Assignment(rt: Runtime, p: (string, Json)): string
  {
    p.0 + "=" + rt.quotePlus(Str(rt.repr, p.1))
  }

  /** What the loop appends for the parameters, one `&name=value` per non-None one. */
  function Suffix(rt: Runtime, ps: Params): string
  {
    if ps == [] then ""
    else
      var last := ps[|ps| - 1];
      Suffix(rt, ps[..|ps| - 1]) + (if last.1 == JNull then "" else "&" + Assignment(rt, last))
  }

  /** The request URL for an action and its parameters. */
  function Url(d: Dispatcher, action: string, ps: Params): string
  {
    Base(d, action) + Suffix(d.rt, ps)
  }

  /** The parameters that are sent: the non-None ones, in their original order. */
  function Present(ps: Params): (r: Params)
    ensures |r| <= |ps|
    ensures forall k :: 0 <= k < |r| ==> r[k].1 != JNull
    ensures forall p :: p in r <==> p in ps && p.1 != JNull
  {
    if ps == [] then []
    else
      var last := ps[|ps| - 1];
      assert ps == ps[..|ps| - 1] + [last];
      Present(ps[..|ps| - 1]) + (if last.1 == JNull then [] else [last])
  }

  /** Appending a parameter appends it to the sent ones unless it is None. */
  lemma PresentSnoc(ps: Params, p: (string, Json))
    ensures Present(ps + [p]) == Present(ps) + (if p.1 == JNull then [] else [p])
  {
    assert (ps + [p])[..|ps|] == ps;
  }

  /** When no parameter is None, every parameter is sent, in order. */
  lemma {:induction false} PresentAllSent(ps: Params)
    requires forall k :: 0 <= k < |ps| ==> ps[k].1 != JNull
    ensures Present(ps) == ps
  {
    if ps != [] {
      PresentAllSent(ps[..|ps| - 1]);
      assert ps[..|ps| - 1] + [ps[|ps| - 1]] == ps;
    }
  }

  /** The assignments a request carries after rest_params. */
  function Assignments(rt: Runtime, ps: Params): (r: seq<string>)
    ensures |r| == |Present(ps)|
    ensures forall k :: 0 <= k < |r| ==> r[k] == Assignment(rt, Present(ps)[k])
  {
    var sent := Present(ps);
    seq(|sent|, k requires 0 <= k < |sent| => Assignment(rt, sent[k]))
  }

  /** One more parameter adds no field when it is None, and exactly its own assignment, last, otherwise. */
  lemma AssignmentsStep(rt: Runtime, ps: Params)
    requires ps != []
    ensures var init, last := ps[..|ps| - 1], ps[|ps| - 1];
      Assignments(rt, ps) == Assignments(rt, init) + (if last.1 == JNull then [] else [Assignment(rt, last)])
  {
    var init, last := ps[..|ps| - 1], ps[|ps| - 1];
    assert Present(ps) == Present(init) + (if last.1 == JNull then [] else [last]);
  }

  lemma AssignmentNoAmpersand(rt: Runtime, p: (string, Json))
    requires forall s :: '&' !in rt.quotePlus(s)
    requires '&' !in p.0
    ensures '&' !in Assignment(rt, p)
  {
    var q := rt.quotePlus(Str(rt.repr, p.1));
    assert '&' !in q;
    assert Assignment(rt, p) == p.0 + "=" + q;
  }

  /** A None parameter adds nothing to the query string. */
  lemma SkippedParameter(rt: Runtime, head: string, ps: Params)
    requires ps != [] && ps[|ps| - 1].1 == JNull
    requires Split(head + Suffix(rt, ps[..|ps| - 1]), '&') == Split(head, '&') + Assignments(rt, ps[..|ps| - 1])
    ensures Split(head + Suffix(rt, ps), '&') == Split(head, '&') + Assignments(rt, ps)
  {
    var init := ps[..|ps| - 1];
    assert head + Suffix(rt, ps) == head + Suffix(rt, init);
    assert Assignments(rt, ps) == Assignments(rt, init) by {
      AssignmentsStep(rt, ps);
    }
  }

  /** The URL text and the field list each grow by the last parameter's assignment. */
  lemma SentParameterGrows(rt: Runtime, head: string, ps: Params)
    requires ps != [] && ps[|ps| - 1].1 != JNull
    ensures var init, a := ps[..|ps| - 1], Assignment(rt, ps[|ps| - 1]);
      && head + Suffix(rt, ps) == (head + Suffix(rt, init)) + ['&'] + a
      && Assignments(rt, ps) == Assignments(rt, init) + [a]
  {
    AssignmentsStep(rt, ps);
  }

  /** A sent parameter adds exactly its assignment as one more field. */
  lemma SentParameter(rt: Runtime, head: string, ps: Params)
    requires forall s :: '&' !in rt.quotePlus(s)
    requires ps != [] && ps[|ps| - 1].1 != JNull && '&' !in ps[|ps| - 1].0
    requires Split(head + Suffix(rt, ps[..|ps| - 1]), '&') == Split(head, '&') + Assignments(rt, ps[..|ps| - 1])
    ensures Split(head + Suffix(rt, ps), '&') == Split(head, '&') + Assignments(rt, ps)
  {
    var init, last := ps[..|ps| - 1], ps[|ps| - 1];
    AssignmentNoAmpersand(rt, last);
    SentParameterGrows(rt, head, ps);
    OneMoreField(head + Suffix(rt, ps), head + Suffix(rt, init), Assignment(rt, last),
                 Split(head, '&'), Assignments(rt, init), Assignments(rt, ps));
  }

  /** Text that grows by '&' and a field free of '&' splits into one more field. */
  lemma OneMoreField(whole: string, init: string, field: string,
                     head: seq<string>, fieldsBefore: seq<string>, fieldsAfter: seq<string>)
    requires '&' !in field
    requires whole == init + ['&'] + field
    requires Split(init, '&') == head + fieldsBefore
    requires fieldsAfter == fieldsBefore + [field]
    ensures Split(whole, '&') == head + fieldsAfter
  {
    SplitAppend(init, '&', field);
    assert head + fieldsBefore + [field] == head + fieldsAfter;
  }

  /**
   * Split at '&', the query string is the fields of rest_params followed by
   * exactly one assignment per non-None parameter, in order: a None value never
   * reaches the server. This needs quote_plus never to emit '&' (it escapes it)
   * and parameter names free of '&'.
   */
  lemma {:induction false} QueryStringFields(rt: Runtime, head: string, ps: Params)
    requires forall s :: '&' !in rt.quotePlus(s)
    requires forall k :: 0 <= k < |ps| ==> '&' !in ps[k].0
    ensures Split(head + Suffix(rt, ps), '&') == Split(head, '&') + Assignments(rt, ps)
  {
    if ps == [] {
      assert head + Suffix(rt, ps) == head;
      assert Assignments(rt, ps) == [];
    } else {
      var init := ps[..|ps| - 1];
      QueryStringFields(rt, head, init);
      if ps[|ps| - 1].1 == JNull {
        SkippedParameter(rt, head, ps);
      } else {
        SentParameter(rt, head, ps);
      }
    }
  }

  /** Lines 15-18: the URL is built by appending each non-None parameter in turn. */
  method BuildUrl(d: Dispatcher, action: string, ps: Params) returns (url: string)
    ensures url == Url(d, action, ps)
  {
    url := d.connectionUri + "/rest/" + action + ".view?" + d.restParams;
    var i := 0;
    while i < |ps|
      invariant 0 <= i <= |ps|
      invariant url == Base(d, action) + Suffix(d.rt, ps[..i])
    {
      var p := ps[i];
      assert ps[..i + 1][..i] == ps[..i];
      if p.1 != JNull {
        url := url + "&" + p.0 + "=" + d.rt.quotePlus(Str(d.rt.repr, p.1));
      }
      i := i + 1;
    }
    assert ps[..i] == ps;
  }

  /** Lines 20-29: transport failures and statuses outside 200-299 are connection errors. */
  function CheckStatus(o: Outcome): (r: Result<Outcome>)
    ensures r.Ok? ==> r.value == o && o.Response? && 200 <= o.status < 300
  {
    match o
    case Unreachable(cause) => Err(ConnectionError(cause))
    case TimedOut => Err(ConnectionError("Connection timed out."))
    case Failed(name) => Err(Uncaught(name))
    case Response(status, _, _) =>
      if status >= 300 || status < 200 then
        Err(ConnectionError("Failed to connect to server (code " + Decimal(status) + ")"))
      else Ok(o)
  }

  /** The ResponseError text for a key missing from the envelope; str() of a KeyError is the key's repr. */
  function KeyErrorText(key: string): string
  {
    "Unexpected response from server caused KeyError: '" + key + "'"
  }

  /** `j[key]` inside the try block of lines 36-44: a missing key becomes a ResponseError. */
  function EnvelopeKey(j: Json, key: string): Result<Json>
  {
    match j
    case JObj(m) => if key in m then Ok(m[key]) else Err(ResponseError(KeyErrorText(key)))
    case _ => Err(Uncaught("TypeError"))
  }

  /** Lines 36-44: accept `subsonic-response` when its status is "ok", else raise. */
  function Envelope(rt: Runtime, data: Json): Result<Json>
  {
    var response :- EnvelopeKey(data, "subsonic-response");
    var status :- EnvelopeKey(response, "status");
    if status != JStr("ok") then
      var error :- EnvelopeKey(response, "error");
      var message :- EnvelopeKey(error, "message");
      Err(ResponseError(Str(rt.repr, message)))
    else
      Ok(response)
  }

  /** A query with process=True: status check, JSON decoding, envelope check. */
  function Processed(rt: Runtime, o: Outcome): Result<Json>
  {
    var response :- CheckStatus(o);
    match response.body
    case Unparsable => Err(Uncaught("JSONDecodeError"))
    case Parsed(data) => Envelope(rt, data)
  }

  /** Lines 27-44: what a query returns for a transport outcome. */
  function Classify(rt: Runtime, o: Outcome, process: bool): Result<Reply>
  {
    var response :- CheckStatus(o);
    if !process then Ok(Raw(response.content))
    else
      match Processed(rt, o)
      case Ok(j) => Ok(Data(j))
      case Err(e) => Err(e)
  }

  /** Sends the request for an action: exactly one GET, to Url(d, action, ps). */
  method Send(d: Dispatcher, action: string, ps: Params) returns (o: Outcome)
    modifies d.net
    ensures d.net.log == old(d.net.log) + [Url(d, action, ps)]
    ensures o == d.net.reply(|old(d.net.log)|, Url(d, action, ps))
  {
    var url := BuildUrl(d, action, ps);
    o := d.net.Get(url);
  }

  /** The query closure, lines 14-44. */
  method Call(d: Dispatcher, action: string, ps: Params, process: bool) returns (r: Result<Reply>)
    modifies d.net
    ensures d.net.log == old(d.net.log) + [Url(d, action, ps)]
    ensures r == Classify(d.rt, d.net.reply(|old(d.net.log)|, Url(d, action, ps)), process)
  {
    var o := Send(d, action, ps);
    r := Classify(d.rt, o, process);
  }

  /** The query closure with process=True, as every operation of the client calls it. */
  method Fetch(d: Dispatcher, action: string, ps: Params) returns (r: Result<Json>)
    modifies d.net
    ensures d.net.log == old(d.net.log) + [Url(d, action, ps)]
    ensures r == Processed(d.rt, d.net.reply(|old(d.net.log)|, Url(d, action, ps)))
  {
    var o := Send(d, action, ps);
    r := Processed(d.rt, o);
  }

  // ---- Properties of the classification ----

  /** Connection errors are exactly the transport failures and the statuses outside 200-299; a bad status is named in the message. */
  lemma ConnectionErrors(rt: Runtime, o: Outcome, process: bool)
    ensures (Classify(rt, o, process).Err? && Classify(rt, o, process).error.ConnectionError?)
        <==> (o.Unreachable? || o.TimedOut? || (o.Response? && !(200 <= o.status < 300)))
    ensures o.Response? && !(200 <= o.status < 300) ==>
      Classify(rt, o, process) == Err(ConnectionError("Failed to connect to server (code " + Decimal(o.status) + ")"))
  {
    if process && o.Response? && 200 <= o.status < 300 && o.body.Parsed? {
      EnvelopeNeverConnectionError(rt, o.body.value);
    }
  }

  lemma EnvelopeNeverConnectionError(rt: Runtime, data: Json)
    ensures Envelope(rt, data).Err? ==> !Envelope(rt, data).error.ConnectionError?
  {
  }

  /** With process=False a 2xx response returns its raw content, whatever the body holds. */
  lemma RawSkipsEnvelope(rt: Runtime, status: int, content: seq<byte>, body: Body)
    requires 200 <= status < 300
    ensures Classify(rt, Response(status, content, body), false) == Ok(Raw(content))
  {
  }

  /** process=True and Processed agree. */
  lemma ClassifyProcessed(rt: Runtime, o: Outcome)
    ensures Classify(rt, o, true).Ok? <==> Processed(rt, o).Ok?
    ensures Classify(rt, o, true).Ok? ==> Classify(rt, o, true).value == Data(Processed(rt, o).value)
    ensures Classify(rt, o, true).Err? ==> Classify(rt, o, true).error == Processed(rt, o).error
  {
  }

  /** Status "ok": the whole `subsonic-response` object is returned. */
  lemma EnvelopeAccepts(rt: Runtime, top: map<string, Json>, response: map<string, Json>)
    requires "subsonic-response" in top && top["subsonic-response"] == JObj(response)
    requires "status" in response && response["status"] == JStr("ok")
    ensures Envelope(rt, JObj(top)) == Ok(JObj(response))
  {
  }

  /** Only status "ok" is accepted, and then the value returned is `subsonic-response` itself. */
  lemma EnvelopeOnlyAcceptsOk(rt: Runtime, data: Json)
    requires Envelope(rt, data).Ok?
    ensures data.JObj? && "subsonic-response" in data.fields
    ensures var response := data.fields["subsonic-response"];
      && Envelope(rt, data).value == response
      && response.JObj? && "status" in response.fields && response.fields["status"] == JStr("ok")
  {
  }

  /** Any other status raises a ResponseError carrying the server's error message. */
  lemma EnvelopeDeclaredError(rt: Runtime, top: map<string, Json>, response: map<string, Json>, error: map<string, Json>)
    requires "subsonic-response" in top && top["subsonic-response"] == JObj(response)
    requires "status" in response && response["status"] != JStr("ok")
    requires "error" in response && response["error"] == JObj(error) && "message" in error
    ensures Envelope(rt, JObj(top)) == Err(ResponseError(Str(rt.repr, error["message"])))
  {
  }

  /** A missing envelope key raises a ResponseError naming that key, whatever the status. */
  lemma EnvelopeMissingKey(rt: Runtime, top: map<string, Json>)
    ensures "subsonic-response" !in top ==>
      Envelope(rt, JObj(top)) == Err(ResponseError(KeyErrorText("subsonic-response")))
    ensures "subsonic-response" in top && top["subsonic-response"].JObj? ==>
      var response := top["subsonic-response"].fields;
      && ("status" !in response ==> Envelope(rt, JObj(top)) == Err(ResponseError(KeyErrorText("status"))))
      && ("status" in response && response["status"] != JStr("ok") && "error" !in response ==>
            Envelope(rt, JObj(top)) == Err(ResponseError(KeyErrorText("error"))))
      && ("status" in response && response["status"] != JStr("ok") && "error" in response
          && response["error"].JObj? && "message" !in response["error"].fields ==>
            Envelope(rt, JObj(top)) == Err(ResponseError(KeyErrorText("message"))))
  {
  }
}
