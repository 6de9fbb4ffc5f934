/** The trial quota and the generation call of `generar_escrito`
    (app.py:82-85, 113-163). The session counter `api_calls` is the field of
    a `Session` object; the remote service and `json.loads` are parameters. */
module Quota {
  import opened PyValues
  import opened Prompt

  /** `MAX_CALLS` */
  const MaxCalls: nat := 10

  /** The message returned once the quota is used up; it spells out "10/10" itself. */
  const LimitMessage := "已達到試用版次數限制 (10/10)。(Demo limit reached)"
  /** The prefix put before `str(e)` when the call or the parse raises. */
  const SystemErrorPrefix := "系統發生錯誤 (System Error): "

  /** What the service does with one `generate_content` request: it raises
      (network, authentication, remote quota, ...), or it returns a response
      whose `.text` either yields the text or raises. */
  datatype RemoteOutcome = Failed(cause: string) | Returned(text: Attempt<string>)

  /** `{"error": message}` */
  function ErrorResult(message: string): Json
  {
    JObject(map["error" := JString(message)])
  }

  /** What one call of `generar_escrito` produces: the returned value, the
      prompt sent to the service (`None` when no request was issued), and
      the counter afterwards. */
  datatype Step = Step(result: Json, sent: Option<string>, calls: nat)

  /** One call of `generar_escrito` with the counter at `calls`, the service
      behaving as `remote` and `json.loads` behaving as `parse`. */
  function GenerateStep(calls: nat, d: CaseRequest, remote: RemoteOutcome,
                        parse: string -> Attempt<Json>): (s: Step)
    // the gate: a request is sent exactly when the quota is not used up,
    // and what is sent is the assembled prompt
    ensures s.sent.Some? <==> calls < MaxCalls
    ensures s.sent.Some? ==> s.sent.value == UserPrompt(d)
    ensures s.sent.None? ==> s.result == ErrorResult(LimitMessage) && s.calls == calls
    // quota is consumed exactly when the service answered
    ensures s.calls == (if s.sent.Some? && remote.Returned? then calls + 1 else calls)
    ensures calls <= MaxCalls ==> s.calls <= MaxCalls
    // a raising service costs nothing and its cause is reported
    ensures s.sent.Some? && remote.Failed? ==> s.result == ErrorResult(SystemErrorPrefix + remote.cause)
    // an unreadable or unparsable answer is an error, never a result
    ensures s.sent.Some? && remote.Returned? && remote.text.Raised? ==>
              s.result == ErrorResult(SystemErrorPrefix + remote.text.cause)
    ensures s.sent.Some? && remote.Returned? && remote.text.Value? && parse(remote.text.value).Raised? ==>
              s.result == ErrorResult(SystemErrorPrefix + parse(remote.text.value).cause)
    // whatever else comes back is exactly what json.loads decoded
    ensures s.sent.Some? && remote.Returned? && remote.text.Value? && parse(remote.text.value).Value? ==>
              s.result == parse(remote.text.value).value
  {
    if calls >= MaxCalls then Step(ErrorResult(LimitMessage), None, calls)
    else
      var prompt := UserPrompt(d);
      match remote
      case Failed(cause) => Step(ErrorResult(SystemErrorPrefix + cause), Some(prompt), calls)
      case Returned(text) =>
        match text
        case Raised(cause) => Step(ErrorResult(SystemErrorPrefix + cause), Some(prompt), calls + 1)
        case Value(t) =>
          match parse(t)
          case Raised(cause) => Step(ErrorResult(SystemErrorPrefix + cause), Some(prompt), calls + 1)
          case Value(v) => Step(v, Some(prompt), calls + 1)
  }

  /** One request of a session: the record and how the service treats it. */
  datatype Request = Request(datos: CaseRequest, remote: RemoteOutcome)

  /** The counter after the session's requests, in order. */
  function CallsAfter(calls: nat, requests: seq<Request>, parse: string -> Attempt<Json>): nat
    decreases |requests|
  {
    if requests == [] then calls
    else
      var r := requests[0];
      CallsAfter(GenerateStep(calls, r.datos, r.remote, parse).calls, requests[1..], parse)
  }

  /** How many of the requests the service answered. */
  function Answered(requests: seq<Request>): (n: nat)
    ensures n <= |requests|
  {
    if requests == [] then 0
    else (if requests[0].remote.Returned? then 1 else 0) + Answered(requests[1..])
  }

  function Min(a: nat, b: nat): nat
  {
    if a <= b then a else b
  }

  /** From any counter within the quota, the counter after a run of requests
      is the old one plus the answered requests, cut off at the ceiling: it
      never decreases, grows by at most one per request, and never passes
      `MaxCalls`. Requests the service failed on cost nothing. */
  lemma {:induction false} CallsAfterExact(calls: nat, requests: seq<Request>, parse: string -> Attempt<Json>)
    requires calls <= MaxCalls
    ensures CallsAfter(calls, requests, parse) == Min(MaxCalls, calls + Answered(requests))
    ensures calls <= CallsAfter(calls, requests, parse) <= MaxCalls
    ensures CallsAfter(calls, requests, parse) <= calls + |requests|
    decreases |requests|
  {
    if requests != [] {
      var r := requests[0];
      var next := GenerateStep(calls, r.datos, r.remote, parse).calls;
      CallsAfterExact(next, requests[1..], parse);
    }
  }

  /** A fresh session whose first ten requests were answered refuses the
      eleventh without sending anything, whatever it asks. */
  lemma EleventhRequestRefused(requests: seq<Request>, parse: string -> Attempt<Json>, eleventh: Request)
    requires |requests| == MaxCalls
    requires forall i :: 0 <= i < |requests| ==> requests[i].remote.Returned?
    ensures CallsAfter(0, requests, parse) == MaxCalls
    ensures GenerateStep(CallsAfter(0, requests, parse), eleventh.datos, eleventh.remote, parse).sent == None
    ensures GenerateStep(CallsAfter(0, requests, parse), eleventh.datos, eleventh.remote, parse).result
              == ErrorResult(LimitMessage)
  {
    AllAnswered(requests);
    CallsAfterExact(0, requests, parse);
  }

  lemma {:induction false} AllAnswered(requests: seq<Request>)
    requires forall i :: 0 <= i < |requests| ==> requests[i].remote.Returned?
    ensures Answered(requests) == |requests|
  {
    if requests != [] {
      AllAnswered(requests[1..]);
    }
  }

  /** A session of the app: `api_calls` in `st.session_state`. */
  class Session {
    var apiCalls: nat

    /** The counter never passes the ceiling. */
    ghost predicate Valid()
      reads this
    {
      apiCalls <= MaxCalls
    }

    /** The first run of the script in a session (app.py:83-84). */
    constructor ()
      ensures Valid() && apiCalls == 0
    {
      apiCalls := 0;
    }

    /** `generar_escrito(datos)`: the gate, the request, the counter update
        and the parse, in the source's order. */
    method Generate(d: CaseRequest, remote: RemoteOutcome, parse: string -> Attempt<Json>)
      returns (result: Json, sent: Option<string>)
      requires Valid()
      modifies this
      ensures Valid()
      ensures Step(result, sent, apiCalls) == GenerateStep(old(apiCalls), d, remote, parse)
      ensures old(apiCalls) <= apiCalls <= old(apiCalls) + 1
    {
      if apiCalls >= MaxCalls {
        return ErrorResult(LimitMessage), None;
      }
      var prompt := UserPrompt(d);
      sent := Some(prompt);
      match remote {
        case Failed(cause) =>
          result := ErrorResult(SystemErrorPrefix + cause);
        case Returned(text) =>
          apiCalls := apiCalls + 1;
          match text {
            case Raised(cause) =>
              result := ErrorResult(SystemErrorPrefix + cause);
            case Value(t) =>
              var decoded := parse(t);
              match decoded {
                case Raised(cause) => result := ErrorResult(SystemErrorPrefix + cause);
                case Value(v) => result := v;
              }
          }
      }
    }
  }
}
