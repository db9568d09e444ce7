/** The image-generation relay: check the key, destructure the request body
    with defaults, require a prompt, forward a six-field body, and map the
    upstream's answer to one JSON reply. */
module Image {
  import opened Json
  import opened Http

  const Endpoint := "https://ai.api.nvidia.com/v1/genai/stabilityai/stable-diffusion-3-medium"
  const KeyMissing := "Image generation API key not configured on server"
  const PromptRequired := "Prompt is required"
  const GenerationFailed := "Failed to generate image"

  /** The fields of the outbound body, in the order they are written. */
  const Fields: seq<string> := ["prompt", "negative_prompt", "cfg_scale", "aspect_ratio", "seed", "steps"]

  /** What the upstream does with the request: `fetch` rejects, or it
      resolves with a status; then the error text is read on a rejection, or
      the body is parsed as JSON on success (`None`: that read throws). */
  datatype Upstream =
    | Unreachable
    | Replied(status: FetchStatus, errText: Option<string>, json: Option<Value>)

  /** `fetch`, `text()` or `json()` throws, so the catch block replies. */
  predicate Throws(up: Upstream) {
    up.Unreachable? || (!IsOk(up.status) && up.errText.None?) || (IsOk(up.status) && up.json.None?)
  }

  /** The destructuring defaults; `prompt` has none. */
  function Default(name: string): Option<Value> {
    match name
    case "negative_prompt" => Some(Str(""))
    case "cfg_scale" => Some(Num(5))
    case "aspect_ratio" => Some(Str("16:9"))
    case "seed" => Some(Num(0))
    case "steps" => Some(Num(50))
    case _ => None
  }

  /** The value destructuring binds to `name`: the caller's value when the
      field is present (even `null`), else the default; `None` is `undefined`. */
  function Param(body: map<string, Value>, name: string): Option<Value> {
    if name in body then Some(body[name]) else Default(name)
  }

  /** `if (!prompt)` does not reject. */
  predicate PromptGiven(body: map<string, Value>) {
    Param(body, "prompt").Some? && Truthy(Param(body, "prompt").value)
  }

  /** The body sent upstream: exactly the six fields, in order, each the
      caller's value or its default; every other field is dropped. */
  function OutboundBody(body: map<string, Value>): (r: Value)
    requires "prompt" in body
    ensures r.Obj? && Names(r.members) == Fields
    ensures forall i :: 0 <= i < |Fields| ==> Lookup(r.members, Fields[i]) == Param(body, Fields[i])
  {
    var members := [
      ("prompt", body["prompt"]),
      ("negative_prompt", Param(body, "negative_prompt").value),
      ("cfg_scale", Param(body, "cfg_scale").value),
      ("aspect_ratio", Param(body, "aspect_ratio").value),
      ("seed", Param(body, "seed").value),
      ("steps", Param(body, "steps").value)];
    Obj(members)
  }

  /** The upstream request, with the normalised body. */
  function Request(key: string, body: map<string, Value>): UpstreamRequest
    requires "prompt" in body
  {
    Post(Endpoint, key, "application/json", OutboundBody(body))
  }

  /** The checks made before any upstream call. */
  datatype Step = Forward(request: UpstreamRequest) | Refuse(reply: Reply)

  /** The key is checked first (500), then the prompt (400); only a request
      that passes both is forwarded. */
  function Gate(key: Option<string>, body: map<string, Value>): (r: Step)
    ensures r.Forward? <==> Configured(key) && PromptGiven(body)
    ensures r.Forward? ==> r.request.body == OutboundBody(body) && r.request.url == Endpoint
    ensures r.Forward? ==> r.request.headers.Keys == {"Authorization", "Content-Type", "Accept"}
    ensures r.Forward? ==> r.request.headers["Authorization"] == "Bearer " + key.value
    ensures r.Forward? ==> r.request.headers["Accept"] == "application/json"
    ensures r.Refuse? ==> r.reply.status == Some(if Configured(key) then 400 else 500)
    ensures r.Refuse? ==> r.reply.payload == ErrorBody(if Configured(key) then PromptRequired else KeyMissing)
  {
    if !Configured(key) then Refuse(Reply(Some(500), ErrorBody(KeyMissing)))
    else if !PromptGiven(body) then Refuse(Reply(Some(400), ErrorBody(PromptRequired)))
    else Forward(Request(key.value, body))
  }

  /** The reply to a forwarded request: a rejection is mirrored as status
      plus `{error: text}`, a success passes the parsed JSON through under
      the response's own status, and anything thrown becomes a 500. */
  function Outcome(up: Upstream): (r: Reply)
    ensures up.Replied? && !IsOk(up.status) && up.errText.Some? ==>
      r == Reply(Some(up.status), ErrorBody(up.errText.value))
    ensures up.Replied? && IsOk(up.status) && up.json.Some? ==> r == Reply(None, up.json.value)
    ensures Throws(up) ==> r == Reply(Some(500), ErrorBody(GenerationFailed))
  {
    match up
    case Unreachable => Reply(Some(500), ErrorBody(GenerationFailed))
    case Replied(status, errText, json) =>
      if !IsOk(status) then
        match errText
        case Some(text) => Reply(Some(status), ErrorBody(text))
        case None => Reply(Some(500), ErrorBody(GenerationFailed))
      else
        match json
        case Some(v) => Reply(None, v)
        case None => Reply(Some(500), ErrorBody(GenerationFailed))
  }

  /** The reply to an image request. */
  function Resolve(key: Option<string>, body: map<string, Value>, up: Upstream): Reply {
    match Gate(key, body)
    case Refuse(reply) => reply
    case Forward(_) => Outcome(up)
  }

  /** The route handler. `sent` is the upstream request, `None` when no
      upstream call is made. */
  method Handle(res: Response, key: Option<string>, body: map<string, Value>, up: Upstream)
    returns (sent: Option<UpstreamRequest>)
    requires res.Valid() && res.log == []
    modifies res
    ensures res.Valid() && res.ended
    ensures sent == (if Gate(key, body).Forward? then Some(Gate(key, body).request) else None)
    ensures res.State() == Answered(old(res.State()), Resolve(key, body, up))
  {
    if !Configured(key) {
      Answer(res, Reply(Some(500), ErrorBody(KeyMissing)));
      return None;
    }
    var prompt := Param(body, "prompt");
    if !(prompt.Some? && Truthy(prompt.value)) {
      Answer(res, Reply(Some(400), ErrorBody(PromptRequired)));
      return None;
    }
    sent := Some(Request(key.value, body));
    Answer(res, Outcome(up));
  }

  /** With only a prompt supplied, the outbound body carries the documented
      defaults. */
  lemma DefaultsTable(prompt: Value)
    ensures OutboundBody(map["prompt" := prompt]) == Obj([
      ("prompt", prompt), ("negative_prompt", Str("")), ("cfg_scale", Num(5)),
      ("aspect_ratio", Str("16:9")), ("seed", Num(0)), ("steps", Num(50))])
  {
    var body := map["prompt" := prompt];
    assert body.Keys == {"prompt"};
    // the other five names differ in length from "prompt", so none is in the body
    assert |"negative_prompt"| != 6 && |"cfg_scale"| != 6 && |"aspect_ratio"| != 6 && |"seed"| != 6 && |"steps"| != 6;
    assert Param(body, "negative_prompt") == Some(Str(""));
    assert Param(body, "cfg_scale") == Some(Num(5));
    assert Param(body, "aspect_ratio") == Some(Str("16:9"));
    assert Param(body, "seed") == Some(Num(0));
    assert Param(body, "steps") == Some(Num(50));
  }

  /** Fields outside the six never reach the upstream: two bodies that agree
      on the six produce the same outbound body. */
  lemma OtherFieldsDropped(body: map<string, Value>, other: map<string, Value>)
    requires "prompt" in body
    requires forall name :: name in Fields ==> Param(body, name) == Param(other, name)
    ensures "prompt" in other && OutboundBody(body) == OutboundBody(other)
  {
    assert Param(body, "prompt") == Param(other, "prompt");
  }

  /** Both checks precede the upstream call: a refused request gets the same
      reply whatever the upstream would have done, and a request without a
      key is refused with 500 whatever its body. */
  lemma ChecksBeforeUpstream(key: Option<string>, body: map<string, Value>, other: map<string, Value>, up: Upstream, up': Upstream)
    requires Gate(key, body).Refuse?
    ensures Resolve(key, body, up) == Resolve(key, body, up')
    ensures !Configured(key) ==> Resolve(key, body, up) == Resolve(key, other, up') == Reply(Some(500), ErrorBody(KeyMissing))
  {
  }

  /** A falsy prompt (missing, `null`, `false`, `0` or `""`) is refused with
      400 when the key is configured. */
  lemma FalsyPromptRefused(key: Option<string>, body: map<string, Value>)
    requires Configured(key)
    requires "prompt" !in body || body["prompt"] in {Null, Bool(false), Num(0), Str("")}
    ensures Resolve(key, body, Unreachable) == Reply(Some(400), ErrorBody(PromptRequired))
  {
  }
}
