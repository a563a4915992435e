/**
 * The `/chat` endpoint of the backend (app.py): it validates the `messages`
 * list of the request body and forwards it, unchanged, to the completion call.
 * The completion call itself (the model client) is a parameter.
 */
module Server {
  import opened Wrappers

  /** One element of `messages`: `role` is None when the key is absent or not a string. */
  datatype WireMessage = WireMessage(role: Option<string>, content: string)

  /**
   * The JSON request body; `messages` is None when the key is absent or its value is
   * falsy (`null`, `""`, `0`, `false`, `{}`), all of which `if not messages` rejects.
   */
  datatype ChatRequest = ChatRequest(messages: Option<seq<WireMessage>>)

  datatype ApiError = NoMessages | InvalidRole

  datatype Validation = Accepted(messages: seq<WireMessage>) | Rejected(error: ApiError)

  datatype Body = ErrorBody(error: string) | ReplyBody(reply: string)

  datatype Response = Response(status: nat, body: Body)

  const Ok: nat := 200
  const BadRequest: nat := 400

  function ErrorText(e: ApiError): string {
    match e
    case NoMessages => "No messages provided"
    case InvalidRole => "Invalid message role"
  }

  /** The roles the endpoint lets through to the model. */
  predicate IsKnownRole(role: Option<string>) {
    role == Some("user") || role == Some("assistant")
  }

  /** Every message of `ms`, scanned from the front, has a known role. */
  predicate RolesKnown(ms: seq<WireMessage>) {
    ms == [] || (IsKnownRole(ms[0].role) && RolesKnown(ms[1..]))
  }

  lemma {:induction false} RolesKnownIff(ms: seq<WireMessage>)
    ensures RolesKnown(ms) <==> forall i :: 0 <= i < |ms| ==> IsKnownRole(ms[i].role)
  {
    if ms != [] {
      RolesKnownIff(ms[1..]);
      assert forall i :: 0 < i < |ms| ==> ms[i] == ms[1..][i - 1];
    }
  }

  /**
   * The validation part of `chat()`: `data.get("messages", [])`, then the
   * emptiness check, then the role check; only a list passing both goes on.
   */
  function Validate(messages: Option<seq<WireMessage>>): (r: Validation)
    ensures r == Rejected(NoMessages) <==> messages.None? || messages.value == []
    ensures r == Rejected(InvalidRole) <==>
      messages.Some? && messages.value != [] &&
      exists i :: 0 <= i < |messages.value| && !IsKnownRole(messages.value[i].role)
    ensures r.Accepted? ==> messages == Some(r.messages)
  {
    var ms := if messages.Some? then messages.value else [];
    RolesKnownIff(ms);
    if ms == [] then Rejected(NoMessages)
    else if !RolesKnown(ms) then Rejected(InvalidRole)
    else Accepted(ms)
  }

  /** Validation passes exactly for a non-empty list whose every role is `user` or `assistant`. */
  lemma ValidateAcceptsExactly(messages: Option<seq<WireMessage>>)
    ensures Validate(messages).Accepted? <==>
      messages.Some? && |messages.value| > 0 &&
      forall i :: 0 <= i < |messages.value| ==> IsKnownRole(messages.value[i].role)
  {
  }

  /** The emptiness check comes first: an empty list never reports a role error. */
  lemma EmptyReportedBeforeRoles(messages: Option<seq<WireMessage>>)
    requires messages.None? || messages.value == []
    ensures Validate(messages) == Rejected(NoMessages)
  {
  }

  /**
   * The `/chat` handler: the emptiness check, the early-exit loop over the roles,
   * then the completion call on the very list that was received.
   */
  method Chat(request: ChatRequest, complete: seq<WireMessage> -> string) returns (response: Response)
    ensures Validate(request.messages).Rejected? ==>
      response == Response(BadRequest, ErrorBody(ErrorText(Validate(request.messages).error)))
    ensures Validate(request.messages).Accepted? ==>
      response == Response(Ok, ReplyBody(complete(request.messages.value)))
  {
    var messages := if request.messages.Some? then request.messages.value else [];
    if |messages| == 0 {
      return Response(BadRequest, ErrorBody("No messages provided"));
    }
    for i := 0 to |messages|
      invariant forall j :: 0 <= j < i ==> IsKnownRole(messages[j].role)
    {
      if !IsKnownRole(messages[i].role) {
        return Response(BadRequest, ErrorBody("Invalid message role"));
      }
    }
    response := Response(Ok, ReplyBody(complete(messages)));
  }
}
