/**
 * The widget and the backend together: what `JSON.stringify({ messages: history })`
 * puts on the wire is what the `/chat` handler reads, and every request the widget
 * can issue passes the handler's validation and reaches the model unchanged.
 */
module EndToEnd {
  import opened Wrappers
  import Widget
  import Server

  function RoleName(r: Widget.Role): string {
    match r
    case User => "user"
    case Assistant => "assistant"
  }

  /** A history entry as the handler sees it once the JSON body is parsed. */
  function Encode(m: Widget.Message): (w: Server.WireMessage)
    ensures Server.IsKnownRole(w.role) && w.content == m.content
  {
    Server.WireMessage(Some(RoleName(m.role)), m.content)
  }

  function EncodeAll(h: seq<Widget.Message>): (r: seq<Server.WireMessage>)
    ensures |r| == |h|
    ensures forall i :: 0 <= i < |h| ==> r[i] == Encode(h[i])
  {
    if h == [] then [] else [Encode(h[0])] + EncodeAll(h[1..])
  }

  /** A left inverse of `Encode`: it shows that the encoding loses nothing. */
  function Decode(w: Server.WireMessage): Option<Widget.Message> {
    if w.role == Some("user") then Some(Widget.Message(Widget.User, w.content))
    else if w.role == Some("assistant") then Some(Widget.Message(Widget.Assistant, w.content))
    else None
  }

  lemma DecodeEncode(m: Widget.Message)
    ensures Decode(Encode(m)) == Some(m)
    ensures Server.IsKnownRole(Encode(m).role)
  {
  }

  /** Any non-empty widget history, once encoded, is accepted as it is. */
  lemma {:induction false} EncodedHistoryAccepted(h: seq<Widget.Message>)
    requires h != []
    ensures Server.Validate(Some(EncodeAll(h))) == Server.Accepted(EncodeAll(h))
  {
    var w := EncodeAll(h);
    forall i | 0 <= i < |w| ensures Server.IsKnownRole(w[i].role) {
      DecodeEncode(h[i]);
    }
  }

  /**
   * Every request body the widget can issue passes validation: it is never empty,
   * and its roles are `user`/`assistant`, alternating from a user message to a user
   * message.
   */
  lemma WidgetRequestsAccepted(s: Widget.State)
    requires Widget.Inv(s) && !s.pending
    requires Widget.SendRequest(s).Some?
    ensures var body := EncodeAll(Widget.SendRequest(s).value);
      Server.Validate(Some(body)) == Server.Accepted(body) &&
      |body| % 2 == 1 &&
      forall i :: 0 <= i < |body| ==> body[i].role == Some(RoleName(Widget.RoleAt(i)))
  {
    Widget.BlankSendIsNoOp(s);
    Widget.RequestAlternates(s);
    EncodedHistoryAccepted(Widget.SendRequest(s).value);
  }
}
