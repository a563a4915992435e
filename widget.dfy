/**
 * The chat widget's conversation controller (static/widget.js).
 *
 * The controller's state is given twice: as a value (`State`) with one transition
 * function per event handler, about which the lemmas below are proved, and as the
 * class `ChatWidget` whose fields the handlers update in place and whose methods
 * are proved to perform exactly those transitions.
 *
 * The network call in `send` is the only suspension point, so `send` is split into
 * `Send` (everything up to issuing the request) and `Complete` (the promise
 * callbacks and the `finally` block), which receives the outcome of the request.
 */
module Widget {
  import opened Wrappers
  import opened Text

  datatype Role = User | Assistant

  /** An entry of `history`, as sent to the endpoint. */
  datatype Message = Message(role: Role, content: string)

  /** `addMsg` styles a bubble as the user's for role 'user' and as the bot's otherwise. */
  datatype Side = UserSide | BotSide

  /** A child of the message list: which side it is on and its text. */
  datatype Bubble = Bubble(side: Side, text: string)

  const Greeting: string :=
    "Hi! I\U{2019}m the Rosebud Cloud Solutions assistant. " +
    "I can help you understand our cloud, AI, and automation services. " +
    "What can I help you with today?"
  const TypingText: string := "\U{2026}"
  const SoftFailureText: string := "Sorry, something went wrong. Please try again."
  const HardFailureText: string := "Connection error. Please try again."

  const Typing: Bubble := Bubble(BotSide, TypingText)

  /** The bubble `addMsg` renders for a history entry. */
  function BubbleOf(m: Message): (b: Bubble)
    ensures b.text == m.content
    ensures b.side == UserSide <==> m.role == User
  {
    Bubble(if m.role == User then UserSide else BotSide, m.content)
  }

  /**
   * How the request of a send ended: `Response(reply)` when the body parsed as
   * JSON other than `null` (`reply` is its `reply` field, None when absent or when
   * the value is not an object), `TransportFailure` when `fetch` or `res.json()`
   * rejected or the body was `null`, on which `data.reply` throws into `.catch`.
   */
  datatype Outcome = Response(reply: Option<string>) | TransportFailure

  /** `if (data.reply)`: a present, non-empty string. */
  predicate Truthy(reply: Option<string>) {
    reply.Some? && reply.value != []
  }

  /**
   * The controller's state: `isOpen`, `history`, the message list's children,
   * the text field's value, and whether a request is in flight (the controls'
   * `disabled` flags).
   */
  datatype State = State(isOpen: bool, history: seq<Message>, transcript: seq<Bubble>, input: string, pending: bool)

  /** The state right after the script has built the widget. */
  const Initial: State := State(false, [], [], "", false)

  /** The role the `i`-th entry of a well-formed history has: user turns at even positions. */
  function RoleAt(i: nat): Role {
    if i % 2 == 0 then User else Assistant
  }

  /** A settled history: whole turns only, user first, roles alternating, no empty content. */
  predicate Settled(h: seq<Message>) {
    |h| % 2 == 0 &&
    forall i :: 0 <= i < |h| ==> h[i].role == RoleAt(i) && h[i].content != []
  }

  /**
   * Every entry of `h` is shown by a bubble of `t`, in the same order: `h`, rendered,
   * is a subsequence of `t` (matched greedily from the end).
   */
  predicate Embedded(h: seq<Message>, t: seq<Bubble>)
    decreases |t|
  {
    if h == [] then true
    else if t == [] then false
    else if BubbleOf(h[|h| - 1]) == t[|t| - 1] then Embedded(h[..|h| - 1], t[..|t| - 1])
    else Embedded(h, t[..|t| - 1])
  }

  /**
   * The controller invariant. Settled: `history` is a settled history that the
   * transcript shows in order. In flight: `history` is such a settled history plus
   * the one user message being sent, and the transcript ends with that message's
   * bubble followed by the typing placeholder. An open panel is never empty.
   */
  predicate Inv(s: State)
    ensures Inv(s) ==> |s.history| % 2 == (if s.pending then 1 else 0)
  {
    (s.isOpen ==> s.transcript != []) &&
    if !s.pending then
      Settled(s.history) && Embedded(s.history, s.transcript)
    else
      var n, m := |s.history|, |s.transcript|;
      n > 0 && m >= 2 &&
      Settled(s.history[..n - 1]) && s.history[n - 1].role == User && s.history[n - 1].content != [] &&
      s.transcript[m - 1] == Typing && s.transcript[m - 2] == BubbleOf(s.history[n - 1]) &&
      Embedded(s.history[..n - 1], s.transcript[..m - 2])
  }

  /** `toggle`: flip `isOpen`; opening onto an empty message list shows the greeting. */
  function ToggleState(s: State): (r: State)
    ensures r.isOpen == !s.isOpen
    ensures r.history == s.history && r.input == s.input && r.pending == s.pending
    ensures r.transcript == s.transcript || (s.transcript == [] && r.transcript == [Bubble(BotSide, Greeting)])
  {
    var open := !s.isOpen;
    s.(isOpen := open, transcript := if open && s.transcript == [] then [Bubble(BotSide, Greeting)] else s.transcript)
  }

  /** `send` up to the request: nothing for blank input, otherwise commit the trimmed text. */
  function SendState(s: State): (r: State)
    ensures r.isOpen == s.isOpen
    ensures Blank(s.input) ==> r == s
    ensures !Blank(s.input) ==>
      r.pending && r.input == "" &&
      |r.history| == |s.history| + 1 && r.history[..|s.history|] == s.history &&
      |r.transcript| == |s.transcript| + 2 && r.transcript[..|s.transcript|] == s.transcript
  {
    var text := Trim(s.input);
    if text == [] then s
    else
      s.(input := "", pending := true,
         transcript := s.transcript + [Bubble(UserSide, text), Typing],
         history := s.history + [Message(User, text)])
  }

  /** The `messages` of the request `send` issues, None when it issues none. */
  function SendRequest(s: State): (r: Option<seq<Message>>)
    ensures r.None? <==> Blank(s.input)
    ensures r.Some? ==> r.value != [] && r.value[|r.value| - 1].role == User
  {
    if Trim(s.input) == [] then None else Some(s.history + [Message(User, Trim(s.input))])
  }

  /**
   * The completion of the request: remove the placeholder (the last bubble); on a
   * truthy reply append it to the transcript and `history`; otherwise show the
   * failure's message and pop the user message; in every case re-enable the controls.
   */
  function CompleteState(s: State, o: Outcome): (r: State)
    requires s.pending && s.history != [] && s.transcript != []
    ensures !r.pending && r.isOpen == s.isOpen && r.input == s.input
    ensures |r.transcript| == |s.transcript|
    ensures r.transcript[..|r.transcript| - 1] == s.transcript[..|s.transcript| - 1]
    ensures r.transcript[|r.transcript| - 1].side == BotSide
    ensures o.Response? && Truthy(o.reply) ==>
      r.history == s.history + [Message(Assistant, o.reply.value)]
    ensures !(o.Response? && Truthy(o.reply)) ==> r.history == s.history[..|s.history| - 1]
  {
    var shown := s.transcript[..|s.transcript| - 1];
    if o.Response? && Truthy(o.reply) then
      s.(transcript := shown + [Bubble(BotSide, o.reply.value)],
         history := s.history + [Message(Assistant, o.reply.value)],
         pending := false)
    else
      s.(transcript := shown + [Bubble(BotSide, if o.Response? then SoftFailureText else HardFailureText)],
         history := s.history[..|s.history| - 1],
         pending := false)
  }

  // ---------------------------------------------------------------------------
  // Lemmas about the transcript embedding

  lemma {:induction false} EmbeddedExtend(h: seq<Message>, t: seq<Bubble>, b: Bubble)
    requires Embedded(h, t)
    ensures Embedded(h, t + [b])
    decreases |t|, 1
  {
    var t' := t + [b];
    assert t'[..|t'| - 1] == t;
    if h != [] && BubbleOf(h[|h| - 1]) == b {
      EmbeddedDropLast(h, t);
    }
  }

  lemma {:induction false} EmbeddedDropLast(h: seq<Message>, t: seq<Bubble>)
    requires h != [] && Embedded(h, t)
    ensures Embedded(h[..|h| - 1], t)
    decreases |t|, 0
  {
    var h', t' := h[..|h| - 1], t[..|t| - 1];
    assert t' + [t[|t| - 1]] == t;
    if BubbleOf(h[|h| - 1]) != t[|t| - 1] {
      EmbeddedDropLast(h, t');
    }
    EmbeddedExtend(h', t', t[|t| - 1]);
  }

  // ---------------------------------------------------------------------------
  // The invariant is kept by every handler

  lemma InitialInv()
    ensures Inv(Initial) && !Initial.isOpen && Initial.history == []
  {
  }

  /** Toggling keeps the invariant, also while a request is in flight. */
  lemma ToggleKeepsInv(s: State)
    requires Inv(s)
    ensures Inv(ToggleState(s))
    ensures ToggleState(s).pending == s.pending && ToggleState(s).history == s.history
  {
    if !s.isOpen && s.transcript == [] {
      assert !s.pending;
      assert s.history == [];
    }
  }

  lemma SendKeepsInv(s: State)
    requires Inv(s) && !s.pending
    ensures Inv(SendState(s))
  {
    var r := SendState(s);
    if r != s {
      var n, m := |r.history|, |r.transcript|;
      assert r.history[..n - 1] == s.history;
      assert r.transcript[..m - 2] == s.transcript;
    }
  }

  lemma CompleteKeepsInv(s: State, o: Outcome)
    requires Inv(s) && s.pending
    ensures Inv(CompleteState(s, o))
    ensures !CompleteState(s, o).pending
  {
    var r := CompleteState(s, o);
    var n, m := |s.history|, |s.transcript|;
    var h0, t0 := s.history[..n - 1], s.transcript[..m - 2];
    var user := s.history[n - 1];
    assert s.history == h0 + [user];
    assert s.transcript[..m - 1] == t0 + [BubbleOf(user)];
    if o.Response? && Truthy(o.reply) {
      var reply := Message(Assistant, o.reply.value);
      assert r.history == h0 + [user, reply];
      assert r.transcript == t0 + [BubbleOf(user), BubbleOf(reply)];
      TurnKeepsSettled(h0, t0, user, reply);
    } else {
      assert r.history == h0;
      assert r.transcript == t0 + [BubbleOf(user), r.transcript[m - 1]];
      RollbackKeepsShown(h0, t0, BubbleOf(user), r.transcript[m - 1]);
    }
  }

  /** Bubbles shown after a history's own do not disturb its embedding. */
  lemma RollbackKeepsShown(h: seq<Message>, t: seq<Bubble>, b1: Bubble, b2: Bubble)
    requires Embedded(h, t)
    ensures Embedded(h, t + [b1, b2])
  {
    EmbeddedExtend(h, t, b1);
    EmbeddedExtend(h, t + [b1], b2);
    assert t + [b1] + [b2] == t + [b1, b2];
  }

  /** A settled, shown history extended by a whole turn, shown in turn, is settled and shown. */
  lemma TurnKeepsSettled(h: seq<Message>, t: seq<Bubble>, user: Message, reply: Message)
    requires Settled(h) && Embedded(h, t)
    requires user.role == User && user.content != [] && reply.role == Assistant && reply.content != []
    ensures Settled(h + [user, reply])
    ensures Embedded(h + [user, reply], t + [BubbleOf(user), BubbleOf(reply)])
  {
    var h2, t2 := h + [user, reply], t + [BubbleOf(user), BubbleOf(reply)];
    assert h2[..|h2| - 1] == h + [user] && (h + [user])[..|h|] == h;
    assert t2[..|t2| - 1] == t + [BubbleOf(user)] && (t + [BubbleOf(user)])[..|t|] == t;
    forall i | 0 <= i < |h2| ensures h2[i].role == RoleAt(i) && h2[i].content != [] {
      if i < |h| { assert h2[i] == h[i]; }
    }
  }


  // ---------------------------------------------------------------------------
  // Properties of the send lifecycle

  /** Blank or whitespace-only input: no request, and nothing at all changes. */
  lemma BlankSendIsNoOp(s: State)
    ensures Blank(s.input) <==> SendRequest(s).None?
    ensures Blank(s.input) ==> SendState(s) == s
  {
  }

  /**
   * A non-blank send clears the field, sets pending, and appends one user message
   * holding the trimmed text to `history` and, followed by the placeholder, to the
   * transcript.
   */
  lemma SendCommits(s: State)
    requires !Blank(s.input)
    ensures var r := SendState(s);
      r.input == "" && r.pending && r.isOpen == s.isOpen &&
      r.history == s.history + [Message(User, Trim(s.input))] &&
      r.transcript == s.transcript + [Bubble(UserSide, Trim(s.input)), Typing]
    ensures Trim(s.input) != [] && !IsWhitespace(Trim(s.input)[0]) && !IsWhitespace(Trim(s.input)[|Trim(s.input)| - 1])
  {
  }

  /**
   * The request body is the whole history after the push: every settled turn, in
   * order, then the new user message.
   */
  lemma RequestIsFullHistory(s: State)
    requires !Blank(s.input)
    ensures SendRequest(s) == Some(SendState(s).history)
    ensures var body := SendRequest(s).value;
      |body| == |s.history| + 1 && body[..|s.history|] == s.history &&
      body[|s.history|] == Message(User, Trim(s.input))
  {
    var body := SendRequest(s).value;
    assert body[..|s.history|] == s.history;
  }

  /**
   * From a settled state, the request body alternates user/assistant and both
   * starts and ends with a user message.
   */
  lemma {:induction false} RequestAlternates(s: State)
    requires Inv(s) && !s.pending && !Blank(s.input)
    ensures var body := SendRequest(s).value;
      |body| % 2 == 1 && forall i :: 0 <= i < |body| ==> body[i].role == RoleAt(i)
  {
    RequestIsFullHistory(s);
    SettledThenUser(s.history, Message(User, Trim(s.input)));
  }

  /** A settled history followed by one user message alternates, with odd length. */
  lemma SettledThenUser(h: seq<Message>, m: Message)
    requires Settled(h) && m.role == User
    ensures |h + [m]| % 2 == 1 && forall i :: 0 <= i < |h + [m]| ==> (h + [m])[i].role == RoleAt(i)
  {
    forall i | 0 <= i < |h + [m]| ensures (h + [m])[i].role == RoleAt(i) {
      if i < |h| { assert (h + [m])[i] == h[i]; }
    }
  }

  /** A successful exchange: `history` grows by the user message and then the reply. */
  lemma SuccessfulExchange(s: State, reply: string)
    requires Inv(s) && !s.pending && !Blank(s.input) && reply != []
    ensures var r := CompleteState(SendState(s), Response(Some(reply)));
      r.history == s.history + [Message(User, Trim(s.input)), Message(Assistant, reply)] &&
      |r.history| == |s.history| + 2 &&
      r.transcript == s.transcript + [Bubble(UserSide, Trim(s.input)), Bubble(BotSide, reply)] &&
      !r.pending && r.input == "" && Inv(r)
  {
    SendKeepsInv(s);
    CompleteKeepsInv(SendState(s), Response(Some(reply)));
    var r1 := SendState(s);
    assert r1.transcript[..|r1.transcript| - 1] == s.transcript + [Bubble(UserSide, Trim(s.input))];
  }

  /**
   * A failed exchange (no usable reply, or a transport failure): the placeholder
   * gives way to the failure's message, shown in the transcript only, and
   * `history` is back to its value before the send.
   */
  lemma FailedExchangeRollsBack(s: State, o: Outcome)
    requires Inv(s) && !s.pending && !Blank(s.input)
    requires !(o.Response? && Truthy(o.reply))
    ensures var r := CompleteState(SendState(s), o);
      r.history == s.history &&
      r.transcript == s.transcript + [Bubble(UserSide, Trim(s.input)),
                                      Bubble(BotSide, if o.Response? then SoftFailureText else HardFailureText)] &&
      !r.pending && r.input == "" && Inv(r)
  {
    SendKeepsInv(s);
    CompleteKeepsInv(SendState(s), o);
    var r1 := SendState(s);
    assert r1.transcript[..|r1.transcript| - 1] == s.transcript + [Bubble(UserSide, Trim(s.input))];
    assert r1.history[..|r1.history| - 1] == s.history;
  }

  // ---------------------------------------------------------------------------
  // Properties of toggle

  /** Toggling negates `isOpen`, twice restores it, and never touches `history`. */
  lemma ToggleTwice(s: State)
    ensures ToggleState(s).isOpen == !s.isOpen
    ensures ToggleState(ToggleState(s)).isOpen == s.isOpen
    ensures ToggleState(ToggleState(s)).history == s.history
  {
  }

  /**
   * Opening onto an empty transcript adds exactly the greeting bubble; any other
   * toggle leaves the transcript as it is, so the greeting is never repeated.
   */
  lemma GreetingShownOnce(s: State)
    requires Inv(s)
    ensures !s.isOpen && s.transcript == [] ==> ToggleState(s).transcript == [Bubble(BotSide, Greeting)]
    ensures s.isOpen || s.transcript != [] ==> ToggleState(s).transcript == s.transcript
    ensures ToggleState(ToggleState(ToggleState(s))).transcript == ToggleState(s).transcript
  {
  }

  // ---------------------------------------------------------------------------
  // One question, answered and then unanswered

  const Question: string := "What services do you offer?"
  const Answer: string := "We offer cloud, AI, and automation consulting."

  lemma QuestionIsTrimmed()
    ensures Trim(Question) == Question
  {
    assert Question[0] == 'W' && Question[|Question| - 1] == '?';
    assert TrimStart(Question) == Question;
  }

  /** Sending the question from a freshly opened panel issues a one-message request. */
  lemma ExampleRequest()
    ensures SendRequest(ToggleState(Initial).(input := Question)) == Some([Message(User, Question)])
  {
    QuestionIsTrimmed();
    assert [] + [Message(User, Question)] == [Message(User, Question)];
  }

  /**
   * The question sent with an empty history (a freshly opened panel, say) and answered:
   * two history entries, and the question and answer bubbles after what was shown.
   */
  lemma ExampleSuccess(s: State)
    requires Inv(s) && !s.pending && s.history == [] && s.input == Question
    ensures var r := CompleteState(SendState(s), Response(Some(Answer)));
      r.history == [Message(User, Question), Message(Assistant, Answer)] &&
      r.transcript == s.transcript + [Bubble(UserSide, Question), Bubble(BotSide, Answer)]
  {
    QuestionIsTrimmed();
    SuccessfulExchange(s, Answer);
    assert [] + [Message(User, Question), Message(Assistant, Answer)] == [Message(User, Question), Message(Assistant, Answer)];
  }

  /** The same send answered by `{}`: the turn is rolled back and the generic error is shown. */
  lemma ExampleSoftFailure(s: State)
    requires Inv(s) && !s.pending && s.history == [] && s.input == Question
    ensures var r := CompleteState(SendState(s), Response(None));
      r.history == [] &&
      r.transcript == s.transcript + [Bubble(UserSide, Question), Bubble(BotSide, SoftFailureText)]
  {
    QuestionIsTrimmed();
    FailedExchangeRollsBack(s, Response(None));
  }

  /** A freshly opened panel with the question typed in meets the examples' requirements. */
  lemma OpenedPanelWithQuestion()
    ensures var s := ToggleState(Initial).(input := Question);
      Inv(s) && !s.pending && s.history == [] && s.input == Question && s.transcript == [Bubble(BotSide, Greeting)]
  {
    InitialInv();
    ToggleKeepsInv(Initial);
  }

  // ---------------------------------------------------------------------------
  // The controller as the script holds it: fields updated in place

  class ChatWidget {
    var isOpen: bool
    var history: seq<Message>
    var transcript: seq<Bubble>
    var inputValue: string
    var inputDisabled: bool
    var sendDisabled: bool

    /** The state these fields represent; a request is in flight while the controls are disabled. */
    function View(): State
      reads this
    {
      State(isOpen, history, transcript, inputValue, inputDisabled)
    }

    predicate Valid()
      reads this
    {
      inputDisabled == sendDisabled && Inv(View())
    }

    constructor ()
      ensures Valid() && View() == Initial && !sendDisabled
    {
      isOpen := false;
      history := [];
      transcript := [];
      inputValue := "";
      inputDisabled := false;
      sendDisabled := false;
    }

    /** The panel's button or close control was clicked. */
    method Toggle()
      requires Valid()
      modifies this
      ensures Valid() && View() == ToggleState(old(View()))
    {
      ToggleKeepsInv(View());
      isOpen := !isOpen;
      if isOpen {
        if |transcript| == 0 {
          transcript := transcript + [Bubble(BotSide, Greeting)];
        }
      }
    }

    /** The user edits the text field, which only an enabled field allows. */
    method EditInput(text: string)
      requires Valid() && !inputDisabled
      modifies this
      ensures Valid() && View() == old(View()).(input := text)
    {
      inputValue := text;
    }

    /**
     * The send button was clicked or Enter pressed in the field (both only possible
     * while the controls are enabled). Returns the `messages` of the request issued.
     */
    method Send() returns (request: Option<seq<Message>>)
      requires Valid() && !sendDisabled
      modifies this
      ensures Valid() && View() == SendState(old(View()))
      ensures request == SendRequest(old(View()))
    {
      ghost var before := View();
      SendKeepsInv(before);
      var text := Trim(inputValue);
      if text == [] {
        return None;
      }
      inputValue := "";
      inputDisabled := true;
      sendDisabled := true;
      transcript := transcript + [Bubble(UserSide, text)];
      history := history + [Message(User, text)];
      transcript := transcript + [Typing];
      request := Some(history);
      assert transcript == before.transcript + [Bubble(UserSide, text), Typing];
      assert View() == SendState(before);
    }

    /** The request issued by `Send` settled with `outcome`. */
    method Complete(outcome: Outcome)
      requires Valid() && inputDisabled
      modifies this
      ensures Valid() && View() == CompleteState(old(View()), outcome)
      ensures !inputDisabled && !sendDisabled
    {
      CompleteKeepsInv(View(), outcome);
      transcript := transcript[..|transcript| - 1];
      if outcome.Response? && Truthy(outcome.reply) {
        transcript := transcript + [Bubble(BotSide, outcome.reply.value)];
        history := history + [Message(Assistant, outcome.reply.value)];
      } else if outcome.Response? {
        transcript := transcript + [Bubble(BotSide, SoftFailureText)];
        history := history[..|history| - 1];
      } else {
        transcript := transcript + [Bubble(BotSide, HardFailureText)];
        history := history[..|history| - 1];
      }
      inputDisabled := false;
      sendDisabled := false;
    }
  }
}
