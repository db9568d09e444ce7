/** The HTTP side shared by both relays: the configuration test on API keys,
    the request sent upstream, and the Express response object a handler
    writes its reply into. */
module Http {
  import opened Json

  /** The status of a response `fetch` resolves with (network failures reject
      instead of resolving). */
  type FetchStatus = s: int | 200 <= s <= 599 witness 200

  /** `Response.ok` of the Fetch API. */
  predicate IsOk(status: int) {
    200 <= status <= 299
  }

  /** An API key read from the environment counts as configured when it is
      truthy: present and not the empty string. */
  predicate Configured(key: Option<string>) {
    key.Some? && key.value != ""
  }

  /** The one outbound `fetch` a handler makes. */
  datatype UpstreamRequest = UpstreamRequest(url: string, headers: map<string, string>, body: Value)

  /** The upstream request both relays send: a bearer credential, a JSON body
      and the representation the relay asks for. */
  function Post(url: string, key: string, accept: string, body: Value): (r: UpstreamRequest)
    ensures r.url == url && r.body == body
    ensures r.headers.Keys == {"Authorization", "Content-Type", "Accept"}
    ensures r.headers["Authorization"] == "Bearer " + key
    ensures r.headers["Content-Type"] == "application/json" && r.headers["Accept"] == accept
  {
    UpstreamRequest(url, map["Authorization" := "Bearer " + key, "Content-Type" := "application/json", "Accept" := accept], body)
  }

  /** What a handler has sent on the connection, in order: a `write` of some
      text, a JSON body (sent by `res.json`), and the `end` of the response. */
  datatype Event = Write(chunk: string) | WriteJson(payload: Value) | End

  /** The observable state of a response: its status code, its header map and
      everything sent so far. */
  datatype ResponseState = ResponseState(status: int, headers: map<string, string>, log: seq<Event>)

  /** A one-shot reply `res.status(code).json(payload)`; with no code, the
      status the response already has is kept (`res.json(payload)`). */
  datatype Reply = Reply(status: Option<int>, payload: Value)

  /** Nothing follows the end of a response. */
  predicate WellFormed(log: seq<Event>) {
    forall i :: 0 <= i < |log| - 1 ==> !log[i].End?
  }

  /** A reply is either one JSON body followed by the end, or a run of text
      writes followed by the end. */
  predicate IsJsonReply(log: seq<Event>) {
    |log| == 2 && log[0].WriteJson? && log[1] == End
  }

  predicate IsStream(log: seq<Event>) {
    |log| >= 1 && log[|log| - 1] == End && forall i :: 0 <= i < |log| - 1 ==> log[i].Write?
  }

  /** The text a client receives from the `write` calls. */
  function WrittenText(log: seq<Event>): string {
    if log == [] then ""
    else (if log[0].Write? then log[0].chunk else "") + WrittenText(log[1..])
  }

  /** How many times the response was ended. */
  function EndCount(log: seq<Event>): nat {
    if log == [] then 0 else (if log[0].End? then 1 else 0) + EndCount(log[1..])
  }

  /** One `write` per chunk, in order. */
  function Writes(chunks: seq<string>): (r: seq<Event>)
    ensures |r| == |chunks|
    ensures forall k :: 0 <= k < |chunks| ==> r[k] == Write(chunks[k])
  {
    if chunks == [] then [] else [Write(chunks[0])] + Writes(chunks[1..])
  }

  /** The chunks joined into one string. */
  function Concat(chunks: seq<string>): string {
    if chunks == [] then "" else chunks[0] + Concat(chunks[1..])
  }

  lemma {:induction false} WrittenTextAppend(a: seq<Event>, b: seq<Event>)
    ensures WrittenText(a + b) == WrittenText(a) + WrittenText(b)
  {
    if a != [] {
      assert (a + b)[1..] == a[1..] + b;
      WrittenTextAppend(a[1..], b);
    } else {
      assert a + b == b;
    }
  }

  lemma {:induction false} EndCountAppend(a: seq<Event>, b: seq<Event>)
    ensures EndCount(a + b) == EndCount(a) + EndCount(b)
  {
    if a != [] {
      assert (a + b)[1..] == a[1..] + b;
      EndCountAppend(a[1..], b);
    } else {
      assert a + b == b;
    }
  }

  /** Writing the chunks one by one delivers exactly their concatenation and
      never ends the response. */
  lemma {:induction false} WritesDeliver(chunks: seq<string>)
    ensures WrittenText(Writes(chunks)) == Concat(chunks)
    ensures EndCount(Writes(chunks)) == 0
  {
    if chunks != [] {
      WritesDeliver(chunks[1..]);
      assert Writes(chunks)[1..] == Writes(chunks[1..]);
    }
  }

  /** Writing a prefix of the chunks delivers a prefix of the full text. */
  lemma {:induction false} ConcatPrefix(chunks: seq<string>, k: nat)
    requires k <= |chunks|
    ensures Concat(chunks) == Concat(chunks[..k]) + Concat(chunks[k..])
  {
    if k > 0 {
      assert chunks[..k][1..] == chunks[1..][..k - 1];
      assert chunks[k..] == chunks[1..][k - 1..];
      ConcatPrefix(chunks[1..], k - 1);
    }
  }

  /** A whole streamed body (the writes followed by one end) as a log. */
  lemma StreamShape(chunks: seq<string>)
    ensures IsStream(Writes(chunks) + [End]) && WellFormed(Writes(chunks) + [End])
    ensures WrittenText(Writes(chunks) + [End]) == Concat(chunks)
    ensures EndCount(Writes(chunks) + [End]) == 1
  {
    WritesDeliver(chunks);
    WrittenTextAppend(Writes(chunks), [End]);
    EndCountAppend(Writes(chunks), [End]);
  }

  /** `res.json` gives the response a JSON content type unless one is set already. */
  function WithJsonType(headers: map<string, string>): (r: map<string, string>)
    ensures r.Keys == headers.Keys + {"Content-Type"}
    ensures forall h :: h in headers ==> r[h] == headers[h]
    ensures "Content-Type" !in headers ==> r["Content-Type"] == "application/json"
  {
    if "Content-Type" in headers then headers else headers["Content-Type" := "application/json"]
  }

  /** The state a reply leaves behind on a response nothing has been sent on. */
  function Answered(st: ResponseState, reply: Reply): (r: ResponseState)
    ensures r.status == (if reply.status.Some? then reply.status.value else st.status)
    ensures r.headers == WithJsonType(st.headers)
    ensures r.log == st.log + [WriteJson(reply.payload), End]
  {
    ResponseState(if reply.status.Some? then reply.status.value else st.status,
                  WithJsonType(st.headers), st.log + [WriteJson(reply.payload), End])
  }

  /** An Express `res` object: the status code, the header map, what has been
      sent, and Node's `headersSent` and ended flags. Headers go out with the
      first `write` or `end`, not with `setHeader`. */
  class Response {
    var status: int
    var headers: map<string, string>
    var log: seq<Event>
    var headersSent: bool
    var ended: bool

    ghost predicate Valid()
      reads this
    {
      WellFormed(log) &&
      headersSent == (log != []) &&
      ended == (log != [] && log[|log| - 1] == Event.End)
    }

    function State(): ResponseState
      reads this
    {
      ResponseState(status, headers, log)
    }

    /** The response a handler is handed: status 200, the headers earlier
        middleware has set, nothing sent. */
    constructor (preset: map<string, string>)
      ensures Valid() && !headersSent && !ended
      ensures State() == ResponseState(200, preset, [])
    {
      status, headers, log := 200, preset, [];
      headersSent, ended := false, false;
    }

    /** `res.status(code)`. */
    method SetStatus(code: int)
      requires Valid()
      modifies this
      ensures Valid() && State() == old(State()).(status := code)
      ensures headersSent == old(headersSent) && ended == old(ended)
    {
      status := code;
    }

    /** `res.setHeader(name, value)`; Node refuses it once headers are sent. */
    method SetHeader(name: string, value: string)
      requires Valid() && !headersSent
      modifies this
      ensures Valid() && State() == old(State()).(headers := old(headers)[name := value])
      ensures headersSent == old(headersSent) && ended == old(ended)
    {
      headers := headers[name := value];
    }

    /** `res.write(chunk)`; sends the headers if they are not sent yet. */
    method Write(chunk: string)
      requires Valid() && !ended
      modifies this
      ensures Valid() && State() == old(State()).(log := old(log) + [Event.Write(chunk)])
      ensures headersSent && !ended
    {
      log := log + [Event.Write(chunk)];
      headersSent := true;
    }

    /** `res.end()`; sends the headers if they are not sent yet. */
    method End()
      requires Valid() && !ended
      modifies this
      ensures Valid() && State() == old(State()).(log := old(log) + [Event.End])
      ensures headersSent && ended
    {
      log := log + [Event.End];
      headersSent, ended := true, true;
    }

    /** `res.json(payload)`: sets a JSON content type when none is set, then
        ends the response with the serialised payload. It sets a header, so
        it is refused once headers are sent. */
    method SendJson(payload: Value)
      requires Valid() && !headersSent
      modifies this
      ensures Valid() && headersSent && ended
      ensures State() == old(State()).(headers := WithJsonType(old(headers)), log := old(log) + [WriteJson(payload), Event.End])
    {
      headers := WithJsonType(headers);
      log := log + [WriteJson(payload), Event.End];
      headersSent, ended := true, true;
    }
  }

  /** `res.status(code).json(payload)`, or `res.json(payload)` with no code. */
  method Answer(res: Response, reply: Reply)
    requires res.Valid() && !res.headersSent
    modifies res
    ensures res.Valid() && res.ended
    ensures res.State() == Answered(old(res.State()), reply)
  {
    if reply.status.Some? {
      res.SetStatus(reply.status.value);
    }
    res.SendJson(reply.payload);
  }
}
