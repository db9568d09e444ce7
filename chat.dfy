/** The streaming chat-completions relay: check the key, forward the request
    body, then either mirror an upstream rejection or pump the upstream's
    event stream to the client chunk by chunk. */
module Chat {
  import opened Json
  import opened Http

  const Endpoint := "https://integrate.api.nvidia.com/v1/chat/completions"
  const KeyMissing := "NVIDIA API key not configured on server"
  const ProxyFailed := "Failed to proxy request to NVIDIA API"

  /** The three headers set before the first chunk is read. */
  const StreamHeaders: map<string, string> :=
    map["Content-Type" := "text/event-stream", "Cache-Control" := "no-cache", "Connection" := "keep-alive"]

  /** What the upstream does with the request: `fetch` rejects, or it
      resolves with a status. On a rejection the error text is read
      (`None`: reading it throws); on success the body reader yields the
      already-decoded chunks, and the read numbered `failAt` (counting from 0)
      throws if the reader gets that far. */
  datatype Upstream =
    | Unreachable
    | Replied(status: FetchStatus, errText: Option<string>, chunks: seq<string>, failAt: Option<nat>)

  /** One `reader.read()`. */
  datatype ReadResult = Chunk(text: string) | Done | ReadFailed

  function ReadAt(chunks: seq<string>, failAt: Option<nat>, i: nat): ReadResult {
    if failAt == Some(i) then ReadFailed
    else if i < |chunks| then Chunk(chunks[i])
    else Done
  }

  /** The read that throws, if the pump reaches it before `done`. */
  function FailurePoint(chunks: seq<string>, failAt: Option<nat>): Option<nat> {
    if failAt.Some? && failAt.value <= |chunks| then failAt else None
  }

  /** The request forwarded upstream: the caller's body, unchanged. */
  function Request(key: string, body: Value): UpstreamRequest {
    Post(Endpoint, key, "text/event-stream", body)
  }

  /** What the pump and the catch block leave behind once the stream headers
      are set: every chunk and one `end`; or, when a read throws, the chunks
      before it and one `end`, except that a failure on the very first read
      still gets a 500 JSON reply because nothing has been sent. */
  function StreamOutcome(streaming: ResponseState, chunks: seq<string>, failAt: Option<nat>): ResponseState
    requires streaming.log == []
  {
    match FailurePoint(chunks, failAt)
    case None => streaming.(log := Writes(chunks) + [End])
    case Some(k) =>
      if k == 0 then Answered(streaming, Reply(Some(500), ErrorBody(ProxyFailed)))
      else streaming.(log := Writes(chunks[..k]) + [End])
  }

  /** The response a chat request leaves behind, from a response nothing has
      been sent on. */
  function Outcome(init: ResponseState, key: Option<string>, up: Upstream): ResponseState
    requires init.log == []
  {
    if !Configured(key) then Answered(init, Reply(Some(500), ErrorBody(KeyMissing)))
    else match up
      case Unreachable => Answered(init, Reply(Some(500), ErrorBody(ProxyFailed)))
      case Replied(status, errText, chunks, failAt) =>
        if !IsOk(status) then
          match errText
          case Some(text) => Answered(init, Reply(Some(status), ErrorBody(text)))
          case None => Answered(init, Reply(Some(500), ErrorBody(ProxyFailed)))
        else StreamOutcome(init.(headers := init.headers + StreamHeaders), chunks, failAt)
  }

  /** The `pump` loop: read until `done`, writing each chunk as it comes, and
      end the response at `done`. A read that throws leaves the loop with
      the response still open; `failed` reports it. */
  method Pump(res: Response, chunks: seq<string>, failAt: Option<nat>) returns (failed: bool)
    requires res.Valid() && res.log == []
    modifies res
    ensures res.Valid() && res.ended == !failed
    ensures failed <==> FailurePoint(chunks, failAt).Some?
    ensures res.State() == old(res.State()).(log :=
      if failed then Writes(chunks[..FailurePoint(chunks, failAt).value]) else Writes(chunks) + [End])
  {
    var i := 0;
    failed := false;
    while true
      invariant 0 <= i <= |chunks|
      invariant res.Valid() && !res.ended && !failed
      invariant res.State() == old(res.State()).(log := Writes(chunks[..i]))
      invariant forall j :: 0 <= j < i ==> failAt != Some(j)
      decreases |chunks| - i
    {
      var r := ReadAt(chunks, failAt, i);
      match r {
        case ReadFailed =>
          failed := true;
          break;
        case Done =>
          assert chunks[..i] == chunks;
          res.End();
          break;
        case Chunk(text) =>
          assert chunks[..i + 1] == chunks[..i] + [text];
          res.Write(text);
          i := i + 1;
      }
    }
  }

  /** Sets the stream headers, pumps, and runs the catch block if a read
      threw: a structured error only while nothing has been sent. */
  method Stream(res: Response, chunks: seq<string>, failAt: Option<nat>)
    requires res.Valid() && res.log == []
    modifies res
    ensures res.Valid() && res.ended
    ensures res.State() == StreamOutcome(old(res.State()).(headers := old(res.headers) + StreamHeaders), chunks, failAt)
  {
    res.SetHeader("Content-Type", "text/event-stream");
    res.SetHeader("Cache-Control", "no-cache");
    res.SetHeader("Connection", "keep-alive");
    assert res.headers == old(res.headers) + StreamHeaders;
    var failed := Pump(res, chunks, failAt);
    if failed {
      if !res.headersSent {
        Answer(res, Reply(Some(500), ErrorBody(ProxyFailed)));
      } else {
        res.End();
      }
    }
  }

  /** The route handler. `sent` is the upstream request, `None` when no
      upstream call is made. */
  method Relay(res: Response, key: Option<string>, body: Value, up: Upstream) returns (sent: Option<UpstreamRequest>)
    requires res.Valid() && res.log == []
    modifies res
    ensures res.Valid() && res.ended
    ensures sent == (if Configured(key) then Some(Request(key.value, body)) else None)
    ensures res.State() == Outcome(old(res.State()), key, up)
  {
    if !Configured(key) {
      Answer(res, Reply(Some(500), ErrorBody(KeyMissing)));
      return None;
    }
    sent := Some(Request(key.value, body));
    match up {
      case Unreachable =>
        Answer(res, Reply(Some(500), ErrorBody(ProxyFailed)));
      case Replied(status, errText, chunks, failAt) =>
        if !IsOk(status) {
          match errText {
            case Some(text) =>
              Answer(res, Reply(Some(status), ErrorBody(text)));
            case None =>
              Answer(res, Reply(Some(500), ErrorBody(ProxyFailed)));
          }
        } else {
          Stream(res, chunks, failAt);
        }
    }
  }

  /** Without a key the reply is the 500 misconfiguration error, whatever the
      upstream would have done. */
  lemma KeyCheckedFirst(init: ResponseState, key: Option<string>, up: Upstream, other: Upstream)
    requires init.log == [] && !Configured(key)
    ensures Outcome(init, key, up) == Outcome(init, key, other)
    ensures Outcome(init, key, up).status == 500
    ensures Outcome(init, key, up).log == [WriteJson(ErrorBody(KeyMissing)), End]
  {
  }

  /** A rejecting upstream's status and text are mirrored, and no event-stream
      text is written. */
  lemma RejectionMirrored(init: ResponseState, key: Option<string>, up: Upstream)
    requires init.log == [] && Configured(key)
    requires up.Replied? && !IsOk(up.status) && up.errText.Some?
    ensures Outcome(init, key, up).status == up.status
    ensures Outcome(init, key, up).log == [WriteJson(ErrorBody(up.errText.value)), End]
    ensures WrittenText(Outcome(init, key, up).log) == ""
    ensures Outcome(init, key, up).headers == WithJsonType(init.headers)
  {
    var log := Outcome(init, key, up).log;
    assert WrittenText(log) == WrittenText(log[1..]);
    assert WrittenText(log[1..]) == WrittenText(log[2..]);
  }

  /** A complete stream relays every chunk, in order and one write per chunk,
      then ends once; the status is the one the response already had. */
  lemma StreamRelaysEverything(init: ResponseState, key: Option<string>, up: Upstream)
    requires init.log == [] && Configured(key)
    requires up.Replied? && IsOk(up.status) && FailurePoint(up.chunks, up.failAt).None?
    ensures Outcome(init, key, up).log == Writes(up.chunks) + [End]
    ensures WrittenText(Outcome(init, key, up).log) == Concat(up.chunks)
    ensures EndCount(Outcome(init, key, up).log) == 1 && IsStream(Outcome(init, key, up).log)
    ensures Outcome(init, key, up).status == init.status
    ensures Outcome(init, key, up).headers == init.headers + StreamHeaders
  {
    StreamShape(up.chunks);
  }

  /** Every failure that reaches the catch block before anything is written
      (`fetch` rejecting, `text()` throwing on a rejection, the first read
      throwing) gets the 500 JSON error and nothing else. */
  lemma FailureBeforeWrite(init: ResponseState, key: Option<string>, up: Upstream)
    requires init.log == [] && Configured(key)
    requires up.Unreachable? || (!IsOk(up.status) && up.errText.None?) || (IsOk(up.status) && up.failAt == Some(0))
    ensures Outcome(init, key, up).status == 500
    ensures Outcome(init, key, up).log == [WriteJson(ErrorBody(ProxyFailed)), End]
    ensures WrittenText(Outcome(init, key, up).log) == ""
  {
    var log := Outcome(init, key, up).log;
    assert WrittenText(log) == WrittenText(log[1..]);
    assert WrittenText(log[1..]) == WrittenText(log[2..]);
  }

  /** A read that throws before anything was written still gets the 500 JSON
      error; the event-stream content type set before it stays. */
  lemma FirstReadFailure(init: ResponseState, key: Option<string>, up: Upstream)
    requires init.log == [] && Configured(key)
    requires up.Replied? && IsOk(up.status) && up.failAt == Some(0)
    ensures Outcome(init, key, up).status == 500
    ensures Outcome(init, key, up).log == [WriteJson(ErrorBody(ProxyFailed)), End]
    ensures Outcome(init, key, up).headers == init.headers + StreamHeaders
    ensures Outcome(init, key, up).headers["Content-Type"] == "text/event-stream"
  {
  }

  /** A read that throws after the first write only ends the response: the
      client has a prefix of the upstream text, no JSON and one end. */
  lemma MidStreamFailure(init: ResponseState, key: Option<string>, up: Upstream, k: nat)
    requires init.log == [] && Configured(key)
    requires up.Replied? && IsOk(up.status) && up.failAt == Some(k) && 1 <= k <= |up.chunks|
    ensures Outcome(init, key, up).log == Writes(up.chunks[..k]) + [End]
    ensures IsStream(Outcome(init, key, up).log) && EndCount(Outcome(init, key, up).log) == 1
    ensures Concat(up.chunks) == WrittenText(Outcome(init, key, up).log) + Concat(up.chunks[k..])
    ensures Outcome(init, key, up).status == init.status
  {
    StreamShape(up.chunks[..k]);
    ConcatPrefix(up.chunks, k);
  }

  /** Every chat reply is either a single JSON body or a run of writes, and
      ends exactly once, last: JSON never follows streamed text and nothing is
      sent after the end. */
  lemma EveryReplyEndsOnce(init: ResponseState, key: Option<string>, up: Upstream)
    requires init.log == []
    ensures IsJsonReply(Outcome(init, key, up).log) || IsStream(Outcome(init, key, up).log)
    ensures WellFormed(Outcome(init, key, up).log)
    ensures EndCount(Outcome(init, key, up).log) == 1
  {
    var log := Outcome(init, key, up).log;
    if IsJsonReply(log) {
      assert EndCount(log) == EndCount(log[1..]);
      assert EndCount(log[1..]) == 1 + EndCount(log[2..]);
    } else {
      var chunks := up.chunks;
      var k := FailurePoint(chunks, up.failAt);
      if k.None? {
        StreamShape(chunks);
      } else {
        StreamShape(chunks[..k.value]);
      }
    }
  }
}
