# Chat widget conversation controller and `/chat` validator

This project models the two pieces of logic in a small site that embeds a chat
assistant:

- The widget script `static/widget.js` is modelled as a conversation controller.
  It tracks whether the panel is open, the `history` list sent to the backend, the
  message list shown in the panel (the transcript), the text field, and whether a
  request is in flight. The in-flight flag is the `disabled` flags of the input and
  the send button.
- The backend `app.py` is modelled through its `/chat` handler. The handler rejects
  a missing or empty `messages` list, then rejects any message whose role is not
  `user` or `assistant`. Otherwise it forwards the list, unchanged, to the model.

Files:

- `wrappers.dfy`: the `Option` datatype.
- `text.dfy`: JavaScript's `trim`. It removes the ECMAScript whitespace and
  line-terminator characters, written out code point by code point.
- `server.dfy`: `Validate` is the validation as a function. `Chat` is the handler,
  with its loop, proved against `Validate`.
- `widget.dfy`: `State` is the controller's state as a value. It has one transition
  function per event handler: `ToggleState`, `SendState`/`SendRequest` and
  `CompleteState`. `Inv` is the controller invariant, and lemmas prove what each
  handler promises. The class `ChatWidget` holds the same state in fields that its
  methods update in place. Each method is proved to perform its transition and to
  keep the invariant.
- `end_to_end.dfy`: the JSON encoding of `history`. It proves that every request
  the widget can issue passes the backend's validation.

`send` is split in two. `Send` covers everything up to issuing the request and
returns the `messages` it sends. `Complete(outcome)` covers the promise callbacks
and the `finally` block. The outcome is either `Response(reply)` or
`TransportFailure`. `Response(reply)` means the body parsed as JSON other than
`null`, and `reply` is its `reply` field if present (never, for a number, string,
array or boolean, which therefore take the soft-failure path). `TransportFailure` means `fetch` or
`res.json()` rejected, or `data.reply` threw on a `null` body.

The controller invariant `Inv` has two cases:

- While no request is in flight, `history` is settled. It holds whole turns only,
  with user and assistant alternating from a user message, and no empty content.
  The transcript shows every entry of `history`, in order (`Embedded`).
- While a request is in flight, `history` is such a settled history plus one
  trailing user message. The transcript ends with that message's bubble and then
  the typing placeholder.

In both cases an open panel is never empty. The hidden panel can still be reached
from the keyboard, so a message can be sent before the first open. The greeting is
then never added, because `toggle` adds it only to an empty message list.

Two behaviours of the code are worth stating outright:

- The transcript keeps more than `history` and the placeholder. The greeting,
  every error bubble and the bubble of a rolled-back user message all stay. The
  model proves that `history` appears in the transcript in order (`Embedded`).
- `toggle` runs at any time, also while a request is in flight. `ToggleKeepsInv`
  covers that state.

## Model

| member | source | states |
|---|---|---|
| Text.Trim | static/widget.js:129 | the trimmed text is empty exactly when the field holds only whitespace; otherwise it neither starts nor ends with whitespace |
| Text.TrimIsSlice | static/widget.js:129 | the trimmed text is a contiguous slice of the field's value, and only whitespace is cut away on either side |
| Text.TrimIdempotent | static/widget.js:129 | trimming already trimmed text changes nothing |
| Server.RolesKnownIff | app.py:41-43 | the front-to-back role scan succeeds exactly when every message has role `user` or `assistant` |
| Server.Validate | app.py:35-43 | a missing, falsy or empty `messages` gives "No messages provided"; a non-empty list with a message of another or absent role gives "Invalid message role"; anything accepted is the received list itself |
| Server.ValidateAcceptsExactly | app.py:38-43 | validation passes exactly when the list is present, non-empty and every role is `user` or `assistant` |
| Server.EmptyReportedBeforeRoles | app.py:38-43 | the emptiness check comes first, so an empty list never reports a role error |
| Server.Chat | app.py:34-52 | the handler answers 400 with the validation error's text on a rejected request, and otherwise 200 with the completion of exactly the list it received |
| Widget.BubbleOf | static/widget.js:106-110 | the bubble rendered for a history entry has the entry's text, and is on the user side exactly for a user message |
| Widget.Inv | static/widget.js:102-103 | the controller invariant; in particular `history` has even length when no request is in flight and odd length while one is |
| Widget.InitialInv | static/widget.js:102-103 | the widget starts closed, with an empty history, in a state satisfying the controller invariant |
| Widget.ToggleState | static/widget.js:115-126 | toggle negates `isOpen` and keeps `history`, the field and the in-flight flag; the transcript is unchanged, except that an empty one becomes just the greeting |
| Widget.ToggleKeepsInv | static/widget.js:115-126 | toggling keeps the controller invariant, also while a request is in flight, and changes neither `history` nor the in-flight flag |
| Widget.ToggleTwice | static/widget.js:115-116 | toggle negates `isOpen`; toggling twice restores it and leaves `history` alone |
| Widget.GreetingShownOnce | static/widget.js:118-123 | opening onto an empty transcript adds exactly the greeting bubble; any other toggle leaves the transcript alone, so reopening never repeats the greeting |
| Widget.SendState | static/widget.js:128-139 | a blank field leaves the state unchanged; otherwise the field is cleared, pending is set, `history` gains one entry after the old ones and the transcript two bubbles after the old ones; `isOpen` is kept |
| Widget.SendRequest | static/widget.js:141-145 | no request exactly when the field is blank; a request's `messages` are non-empty and end with a user message |
| Widget.BlankSendIsNoOp | static/widget.js:129-130 | no request is issued exactly when the field is blank, and then nothing changes: transcript, history, field and controls |
| Widget.SendCommits | static/widget.js:129-139 | a non-blank send clears the field and sets pending; it appends one user message holding the trimmed text to `history`, and that message's bubble plus the placeholder to the transcript |
| Widget.SendKeepsInv | static/widget.js:128-139 | a send from a settled state leads to the in-flight shape of the invariant: settled history plus one user message, whose bubble and the placeholder end the transcript |
| Widget.RequestIsFullHistory | static/widget.js:137-145 | the request body is the history after the push: every earlier turn in order, then the new user message |
| Widget.RequestAlternates | static/widget.js:137-145 | from a settled state the request body has odd length and alternates user/assistant, starting with a user message |
| Widget.CompleteState | static/widget.js:146-166 | completion clears pending, keeps `isOpen` and the field, replaces the placeholder (the last bubble) by a bot bubble, and either appends the assistant reply to `history` (truthy reply) or pops the user message (otherwise) |
| Widget.CompleteKeepsInv | static/widget.js:146-166 | completion, whatever the outcome, clears pending and returns to a settled history that the transcript still shows in order |
| Widget.SuccessfulExchange | static/widget.js:147-151 | after a send answered by a non-empty reply, `history` is the pre-send history plus the user message then the reply (two entries more); the transcript replaces the placeholder with the reply |
| Widget.FailedExchangeRollsBack | static/widget.js:147-161 | after a send with no usable reply or a transport failure, `history` equals its pre-send value; the transcript shows the user bubble then "Sorry, something went wrong…" or "Connection error…" respectively |
| Widget.ExampleRequest | static/widget.js:128-145 | sending "What services do you offer?" from a freshly opened panel issues a request with that single user message |
| Widget.ExampleSuccess | static/widget.js:147-151 | the question sent with an empty history and answered with a reply leaves exactly two history entries, and the question and reply bubbles after what was shown |
| Widget.ExampleSoftFailure | static/widget.js:152-155 | the same send answered by `{}` leaves an empty history, and the question and generic error bubbles after what was shown |
| Widget.OpenedPanelWithQuestion | static/widget.js:115-123 | a freshly opened panel with the question typed in satisfies the invariant, has an empty history and shows just the greeting |
| Widget.ChatWidget.constructor | static/widget.js:97-103 | the controller starts closed, with empty history and transcript, an empty field and enabled controls |
| Widget.ChatWidget.Toggle | static/widget.js:115-126 | the fields change exactly as `ToggleState` says, and the invariant is kept |
| Widget.ChatWidget.EditInput | static/widget.js:91-92 | typing into the enabled field changes only its value |
| Widget.ChatWidget.Send | static/widget.js:128-145 | the fields change exactly as `SendState` says, the returned request is `SendRequest` of the old state, and the invariant is kept |
| Widget.ChatWidget.Complete | static/widget.js:146-166 | the fields change exactly as `CompleteState` says for the outcome, both controls end enabled, and the invariant is kept |
| EndToEnd.Encode | static/widget.js:144 | a serialised entry carries role `user` or `assistant` and the entry's content |
| EndToEnd.EncodeAll | static/widget.js:144 | the serialised `messages` list has one element per history entry, each the serialised entry at the same position |
| EndToEnd.DecodeEncode | static/widget.js:144 | each history entry is serialised with role `user` or `assistant` and reads back as the same entry |
| EndToEnd.EncodedHistoryAccepted | app.py:38-43 | any non-empty widget history, once serialised, passes validation unchanged |
| EndToEnd.WidgetRequestsAccepted | app.py:35-49 | every request body the widget issues passes validation and reaches the completion call unchanged; its roles alternate from a user message to a user message |

## Left out

- CSS, element creation, `innerHTML`, scrolling and focus handling are not modelled; they are presentation only. A bubble is a side (user or bot) and a text.
- The double-initialisation guard depends on a document lookup and is not modelled. The model builds one controller.
- The `fetch` call, JSON encoding and decoding, and HTTP headers are not modelled, because they are network I/O. Their result is the `Outcome` given to `Complete`.
- A `reply` that is truthy but not a string (a number, an object) is not modelled; `reply` is an optional string.
- The typing placeholder is removed by identity in the script. The model removes the last bubble, which is the placeholder whenever a request is in flight, because the greeting is only ever added to an empty transcript.
- `trim` works on UTF-16 code units in JavaScript; the model works on Unicode scalar values, so lone surrogates are not represented.
- Flask routing, the `index` page, the model client call and `response.content[0].text`, the system prompt, environment variables and the port are not modelled. They are framework or foreign-library behaviour; the completion is the parameter `complete` of `Server.Chat`.
- A request body that is not a JSON object (not JSON at all, `null`, a list) is not modelled, because it fails inside the framework or at `data.get`.
- `ChatRequest.messages == None` stands for an absent key and for any falsy `messages` value (`null`, `""`, `0`, `false`, `{}`), which `if not messages` answers with "No messages provided". A truthy `messages` that is not a list is not modelled: it ends in an unhandled exception. A list element that is not an object is not modelled either: it raises an unhandled exception when the role loop reaches it, that is, when every earlier element has role `user` or `assistant`; an earlier element with another role ends the loop first with "Invalid message role". A role that is present but not a string is treated as absent.
