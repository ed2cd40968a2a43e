/** The HTTP layer the client stands on, reduced to what the client observes:
    decoded JSON values, requests, responses, the status check of
    `raise_for_status`, the failures Python raises, and a transport that
    answers requests from a scripted sequence of replies. */
module Http {
  import opened Wrappers

  /** A decoded JSON value. */
  datatype Json =
    | JNull
    | JBool(b: bool)
    | JInt(i: int)
    | JStr(s: string)
    | JList(items: seq<Json>)
    | JDict(fields: map<string, Json>)

  datatype Verb = GET | POST

  /** What the client hands to the transport: verb, URL, headers and an optional JSON body. */
  datatype Request = Request(verb: Verb, url: string, headers: map<string, string>, body: Option<Json>)

  /** A response: its status code and `response.json()`, which is `None` when the body is not JSON. */
  datatype Response = Response(status: int, json: Option<Json>)

  /** One scripted reply of the network: a response, or a failure to connect (refused, DNS, timeout). */
  datatype Reply = Answered(response: Response) | Unreachable

  /** The exceptions that can escape the client. */
  datatype Fault =
    | HttpError(status: int)     // raise_for_status on a 4xx or 5xx status
    | InvalidUrl(url: string)    // the URL has no http:// or https:// scheme; nothing is sent
    | ConnectionError            // the request was sent and no response came back
    | DecodeError                // a body that is not JSON, or a token that is neither a string nor null
    | KeyError(key: string)      // a missing key in the decoded refresh body
    | TypeError                  // subscripting a non-dict, or calling a string

  /** A Python call that either returns a value or raises. */
  datatype Outcome<+T> = Ok(value: T) | Raised(fault: Fault)

  /** `raise_for_status` raises exactly for client and server error statuses. */
  predicate IsErrorStatus(status: int) {
    400 <= status < 600
  }

  function RaiseForStatus(r: Response): (o: Outcome<Response>)
    ensures o.Ok? <==> !IsErrorStatus(r.status)
    ensures o.Ok? ==> o.value == r
    ensures o.Raised? ==> o.fault == HttpError(r.status)
  {
    if IsErrorStatus(r.status) then Raised(HttpError(r.status)) else Ok(r)
  }

  /** The transport only sends to URLs with an http or https scheme. */
  predicate Dispatchable(url: string) {
    || (|url| >= 7 && url[..7] == "http://")
    || (|url| >= 8 && url[..8] == "https://")
  }

  lemma DispatchableExtends(u: string, rest: string)
    requires Dispatchable(u)
    ensures Dispatchable(u + rest)
  {
    if |u| >= 7 && u[..7] == "http://" {
      assert (u + rest)[..7] == u[..7];
    } else {
      assert (u + rest)[..8] == u[..8];
    }
  }

  /** The network as the client sees it: the replies still to come and the requests sent so far. */
  datatype Net = Net(script: seq<Reply>, sent: seq<Request>)

  datatype Exchange = Exchange(outcome: Outcome<Response>, net: Net)

  /** One request through the transport: a URL it cannot dispatch is refused before
      anything is sent; otherwise the request is recorded and the next scripted reply,
      if any, answers it. */
  function Deliver(n: Net, req: Request): (e: Exchange)
    ensures !Dispatchable(req.url) ==> e == Exchange(Raised(InvalidUrl(req.url)), n)
    ensures Dispatchable(req.url) ==> e.net.sent == n.sent + [req]
    ensures Dispatchable(req.url) ==> e.net.script == if n.script == [] then [] else n.script[1..]
    ensures e.outcome.Ok? <==> Dispatchable(req.url) && n.script != [] && n.script[0].Answered?
    ensures e.outcome.Ok? ==> e.outcome.value == n.script[0].response
    ensures e.outcome.Raised? && Dispatchable(req.url) ==> e.outcome.fault == ConnectionError
  {
    if !Dispatchable(req.url) then Exchange(Raised(InvalidUrl(req.url)), n)
    else if n.script == [] then Exchange(Raised(ConnectionError), Net([], n.sent + [req]))
    else match n.script[0]
      case Unreachable => Exchange(Raised(ConnectionError), Net(n.script[1..], n.sent + [req]))
      case Answered(r) => Exchange(Ok(r), Net(n.script[1..], n.sent + [req]))
  }

  /** The verbs of a run of requests, in order. */
  function Verbs(reqs: seq<Request>): (vs: seq<Verb>)
    ensures |vs| == |reqs| && forall i :: 0 <= i < |reqs| ==> vs[i] == reqs[i].verb
  {
    seq(|reqs|, i requires 0 <= i < |reqs| => reqs[i].verb)
  }

  /** The transport of one collector run: a scripted sequence of replies and the
      log of what was sent; the number of calls made is the length of the log. */
  class Transport {
    var script: seq<Reply>
    var sent: seq<Request>

    function Model(): Net
      reads this
    {
      Net(script, sent)
    }

    function Calls(): nat
      reads this
    {
      |sent|
    }

    constructor (script: seq<Reply>)
      ensures Model() == Net(script, []) && Calls() == 0
    {
      this.script := script;
      this.sent := [];
    }

    method Send(req: Request) returns (o: Outcome<Response>)
      modifies this
      ensures Exchange(o, Model()) == Deliver(old(Model()), req)
      ensures Calls() <= old(Calls()) + 1
    {
      if !Dispatchable(req.url) {
        return Raised(InvalidUrl(req.url));
      }
      sent := sent + [req];
      if script == [] {
        return Raised(ConnectionError);
      }
      var reply := script[0];
      script := script[1..];
      match reply
      case Unreachable =>
        o := Raised(ConnectionError);
      case Answered(r) =>
        o := Ok(r);
    }
  }
}
