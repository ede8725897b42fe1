# Chat room session model

A Dafny model of the client side of a socket.io chat application. It covers two pieces:

- The chat room component (`ui/src/components/ChatRoom.jsx`). It emits `join_room` when it mounts. It keeps an append-only message log: local sends are echoed into it right away, and inbound `receive_message` payloads are appended as they arrive. It shows a "<user> is typing..." indicator. Each remote `user_typing` event restarts a 2000 ms countdown, and the indicator clears when the countdown runs out, or at once when the local user sends a message. It emits `typing` on every input change, and its cleanup removes both inbound handlers.
- The join form of the application shell (`ui/src/App.jsx`). It flips `joined` to true only when both username and room are non-empty. It never flips back. Its inputs exist only before joining.

Structure:

- `chat_types.dfy`, module `ChatTypes`: the message record, the outbound events, and JavaScript's `String.prototype.trim`. The trim decides whether a draft is blank.
- `session.dfy`, module `Session`: the component's state as a value. It has one function per handler, `Step`/`Run` to replay a trace of handler calls, and the lemmas about traces.
- `chat_room.dfy`, module `ChatRoom`: class `ChatSession`, the component with its state in fields. The handler methods (`Mount`, `Unmount`, `OnChange`, `Send`, `OnKeyDown`, `Receive`, `UserTyping`, `Advance`) change the fields in place. Each of their postconditions equates the new `Snapshot()` with the matching `Session` function applied to the old one. Two methods are exceptions. `HandleTyping` is the helper `OnChange` calls; its postcondition speaks only of the outbox, the one field it may change. `OwnFlags` is a query: it changes nothing and returns one flag per log entry.
- `join_gate.dfy`, module `JoinGate`: the join form as a value, its transitions and their lemmas.
- `app.dfy`, module `App`: class `JoinForm`. Its methods overwrite `username`, `room` and `joined`.

Modelling choices:

- The socket is the `outbox`: a sequence of emitted events, oldest first. An inbound event is a method call.
- Time is a discrete clock `now` in milliseconds. It moves forward with `Advance(dt)`. The pending `setTimeout` handle is one optional `deadline`, and scheduling a new timeout overwrites it.
- The message id (`crypto.randomUUID()`) and the display time (`toLocaleTimeString`) are parameters of `Send`.
- `listeners` counts the registered handler pairs. Each mount registers one pair, and cleanup's `socket.off(event)` removes every handler of the event. With one pair, which is the normal lifecycle, an inbound message is appended exactly once.
- On a non-blank send the code clears the indicator (ChatRoom.jsx:62) but does not cancel the pending timeout. The model follows the code and keeps the deadline. When the timeout later fires, it only sets the indicator to `""` again.

## Model

| member | source | states |
|---|---|---|
| `ChatTypes.SkipLeading` | ui/src/components/ChatRoom.jsx:46 | the result is the first index at or after the start whose character is not whitespace, or the length when there is none; every character skipped is whitespace |
| `ChatTypes.SkipTrailing` | ui/src/components/ChatRoom.jsx:46 | the result is the index just past the last non-whitespace character of the range, or the range's start when there is none; every character skipped is whitespace |
| `ChatTypes.Trim` | ui/src/components/ChatRoom.jsx:46 | `trim()` returns the contiguous part of the draft that follows its leading whitespace and precedes its trailing whitespace; everything dropped at either end is whitespace, and a non-empty result starts and ends with a non-whitespace character |
| `ChatTypes.BlankIffAllWhitespace` | ui/src/components/ChatRoom.jsx:46 | the blank-input guard `!message.trim()` holds exactly when every character of the draft is JavaScript whitespace, so the empty draft is blank too |
| `Session.Mount` | ui/src/components/ChatRoom.jsx:14-33 | mounting emits exactly one `join_room` carrying the room and registers one pair of inbound handlers; nothing else changes |
| `Session.Unmount` | ui/src/components/ChatRoom.jsx:35-38 | cleanup leaves no inbound handler registered and changes nothing else; the pending timeout is not cancelled |
| `Session.Change` | ui/src/components/ChatRoom.jsx:134-137 | an input change sets the draft to the new text and emits exactly one `typing` event carrying `{username, room}`; it is not throttled |
| `Session.Send` | ui/src/components/ChatRoom.jsx:45-63 | a blank draft changes nothing at all; otherwise exactly one `send_message` is emitted, and the same record is appended as the last log entry; the record holds the room, the username and the untrimmed draft; the draft becomes `""` and the indicator is cleared |
| `Session.KeyDown` | ui/src/components/ChatRoom.jsx:138 | Enter behaves as a send; any other key changes nothing |
| `Session.Receive` | ui/src/components/ChatRoom.jsx:17-19 | each registered handler appends the payload verbatim; earlier entries and the outbox are untouched |
| `Session.UserTyping` | ui/src/components/ChatRoom.jsx:21-33 | an event naming the local user, or arriving with no handler registered, changes nothing; an event from another user sets the indicator to `"<user> is typing..."` and replaces the pending deadline with now + 2000 |
| `Session.Advance` | ui/src/components/ChatRoom.jsx:29-31 | the clock moves forward; the timeout fires, clearing the indicator and leaving none pending, exactly when its deadline falls within the span |
| `Session.StepPreservesValid` | ui/src/components/ChatRoom.jsx:25-31 | every handler keeps the timer invariant: a pending deadline lies in the future, and with none pending the indicator is empty |
| `Session.RunPreservesValid` | ui/src/components/ChatRoom.jsx:25-31 | the timer invariant holds after any trace of handler calls |
| `Session.StepOnlyAppends` | ui/src/components/ChatRoom.jsx:18 | one handler call only appends to the log and the outbox, never moves the clock back, and keeps the room and the user |
| `Session.RunOnlyAppends` | ui/src/components/ChatRoom.jsx:18 | along any trace the log and the outbox are only extended at the end; the log never shrinks and no entry is edited |
| `Session.QuietRunKeepsCleared` | ui/src/components/ChatRoom.jsx:29-31 | once cleared with no timeout pending, the indicator stays empty until another user's typing event arrives, whatever other inputs (sends included) come first |
| `Session.QuietRunFiresAtDeadline` | ui/src/components/ChatRoom.jsx:25-31 | with no new remote typing event and no send, the indicator keeps its text strictly before the deadline and is empty from the deadline on |
| `Session.TypingIndicatorResets` | ui/src/components/ChatRoom.jsx:21-33 | after another user's typing event at time t, with no later remote typing event and no send, the indicator names that user exactly while the clock is below t + 2000; it never clears earlier and never lingers later |
| `Session.TypingTextInjective` | ui/src/components/ChatRoom.jsx:23 | two different user names give two different indicator texts |
| `Session.StepNeverNamesSelf` | ui/src/components/ChatRoom.jsx:21-33 | no single callback makes an indicator that does not name the local user name them |
| `Session.NeverNamesSelf` | ui/src/components/ChatRoom.jsx:21-33 | along any trace, an indicator that does not name the local user never comes to name them: the component ignores its own typing events |
| `Session.DetachedIgnoresInbound` | ui/src/components/ChatRoom.jsx:35-38 | with no handler registered, any sequence of inbound messages and typing events changes nothing |
| `Session.CleanupDetaches` | ui/src/components/ChatRoom.jsx:35-38 | after cleanup, later inbound events have no effect on the state |
| `Session.ReceiveAppendsOnce` | ui/src/components/ChatRoom.jsx:17-19 | with the single handler of a mounted room, an inbound message becomes the last log entry unchanged, and nothing is emitted |
| `Session.SendAppendsOwnMessage` | ui/src/components/ChatRoom.jsx:48-60 | a non-blank send appends exactly one entry; the view classifies it as the local user's own, and it carries the room, the untrimmed draft and the supplied id |
| `Session.SendKeepsIdsDistinct` | ui/src/components/ChatRoom.jsx:56 | if each send is given an id not used before, the ids of the locally sent messages stay pairwise distinct |
| `Session.AliceSendsHi` | ui/src/components/ChatRoom.jsx:15-63 | mount as alice in "general", type "hi" and send: the log is exactly that record; the socket saw one join, one typing event and one `send_message` |
| `Session.BobTypesTwice` | ui/src/components/ChatRoom.jsx:21-33 | bob types at 0 ms and again at 1000 ms: the indicator still names bob at 2000 ms and at 2999 ms, and is empty at 3000 ms |
| `Session.TypeThenWait` | ui/src/components/ChatRoom.jsx:21-33 | another user's typing event followed by less than 2000 ms of quiet leaves the indicator naming that user and the timeout pending at the event's time + 2000; nothing else changes but the clock |
| `Session.RunConcat` | ui/src/components/ChatRoom.jsx:14-138 | handling one trace of callbacks and then another is the same as handling their concatenation |
| `ChatRoom.ChatSession.constructor` | ui/src/components/ChatRoom.jsx:7-12 | the first render has an empty draft, log and indicator, no timeout, no handler and nothing emitted |
| `ChatRoom.ChatSession.Mount` | ui/src/components/ChatRoom.jsx:14-33 | in place: appends one `join_room` with the room to the outbox and registers the handlers, as `Session.Mount` |
| `ChatRoom.ChatSession.Unmount` | ui/src/components/ChatRoom.jsx:35-38 | in place: no handler remains registered, as `Session.Unmount` |
| `ChatRoom.ChatSession.OnChange` | ui/src/components/ChatRoom.jsx:134-137 | in place: the draft is the new text and one `typing` event is emitted, as `Session.Change` |
| `ChatRoom.ChatSession.HandleTyping` | ui/src/components/ChatRoom.jsx:65-67 | appends exactly one `typing` event with `{username, room}` and changes nothing else |
| `ChatRoom.ChatSession.Send` | ui/src/components/ChatRoom.jsx:45-63 | in place: a blank draft leaves the whole state unchanged; otherwise the log gains the record of the old draft, and the draft and the indicator are emptied, as `Session.Send` |
| `ChatRoom.ChatSession.OnKeyDown` | ui/src/components/ChatRoom.jsx:138 | in place: Enter sends and other keys do nothing, as `Session.KeyDown` |
| `ChatRoom.ChatSession.Receive` | ui/src/components/ChatRoom.jsx:17-19 | in place: the old log is a prefix of the new one and nothing is emitted, as `Session.Receive` |
| `ChatRoom.ChatSession.UserTyping` | ui/src/components/ChatRoom.jsx:21-33 | in place: an event naming the local user leaves the state unchanged; otherwise it acts as `Session.UserTyping` |
| `ChatRoom.ChatSession.Advance` | ui/src/components/ChatRoom.jsx:29-31 | in place: the clock moves forward, and a timeout that falls due clears the indicator, as `Session.Advance` |
| `ChatRoom.ChatSession.OwnFlags` | ui/src/components/ChatRoom.jsx:83-84 | for every log entry, in order, the flag is true exactly when the entry's author is the local username |
| `JoinGate.SetUsername` | ui/src/App.jsx:18-30 | before joining, the username becomes the typed value and nothing else changes; once joined, the input is gone and the form is unchanged |
| `JoinGate.SetRoom` | ui/src/App.jsx:32-38 | before joining, the room becomes the typed value and nothing else changes; once joined, the form is unchanged |
| `JoinGate.JoinRoom` | ui/src/App.jsx:9-13 | afterwards `joined` holds exactly when it already did, or when both username and room are non-empty strings (no trim); the fields are kept |
| `JoinGate.ChatProps` | ui/src/App.jsx:47-49 | the chat room is rendered, with the form's username and room, exactly when the form is joined |
| `JoinGate.JoinedIsFinal` | ui/src/App.jsx:7-11 | once joined, no sequence of form events changes the form; a second join is a no-op and the chat room's props are frozen |
| `JoinGate.JoinedMonotone` | ui/src/App.jsx:7-11 | `joined` never goes back from true to false |
| `JoinGate.RunKeepsConsistent` | ui/src/App.jsx:9-38 | a joined form always has a non-empty username and room, whatever events follow |
| `JoinGate.ReachableChatPropsNonEmpty` | ui/src/App.jsx:5-49 | from the initial form, the chat room is only ever rendered with a non-empty username and a non-empty room |
| `JoinGate.WhitespaceNamesJoin` | ui/src/App.jsx:10-11 | a username and a room of one space each are accepted, because there is no trim |
| `App.JoinForm.constructor` | ui/src/App.jsx:5-7 | initially the username and the room are `""` and `joined` is false |
| `App.JoinForm.SetUsername` | ui/src/App.jsx:28 | in place: before joining it overwrites the username only; once joined it changes nothing |
| `App.JoinForm.SetRoom` | ui/src/App.jsx:36 | in place: before joining it overwrites the room only; once joined it changes nothing |
| `App.JoinForm.JoinRoom` | ui/src/App.jsx:9-13 | in place: the fields are kept, and `joined` becomes true exactly when both are non-empty; a joined form stays joined |

## Left out

- The socket connection (ChatRoom.jsx:5) and the relay server. They are networking: emits are appended to `outbox`, and inbound events are method calls. Delivery, a lost connection, and the server's fan-out are not modelled.
- Whether the relay echoes a sender's own message back. The model appends whatever `receive_message` delivers, so such an echo would appear twice, as it would in the component.
- Real timers. `setTimeout`/`clearTimeout` become one optional deadline on a discrete clock. The clock moves only through `Advance`; no wall-clock scheduling is modelled.
- `crypto.randomUUID()` and `toLocaleTimeString` (ChatRoom.jsx:52-56). They are a foreign call and locale formatting. The id and the time string are parameters.
- `Session.SendKeepsIdsDistinct`: id uniqueness is a precondition on the supplied id for one send. It is not a property of the random generator, and ids of received messages are not covered.
- React rendering: JSX and styling, the scroll-into-view effect (ChatRoom.jsx:41-43), and the display stripping of " is typing..." (ChatRoom.jsx:119). They only affect presentation. The one rendering decision kept is the own/other classification (ChatRoom.jsx:84).
- The effect's re-run when `room` or `username` change (ChatRoom.jsx:39). The shell freezes both once joined, so the props never change. Mount and cleanup are explicit inputs instead.
- `socket.off(event)` also removes handlers that other code might register on the shared socket. The model counts only this component's handlers.
- The model does not gate local input (change, Enter, Send) on the mount state. The component's closures do not check it either.
- `PropTypes` and the import path casing (ChatRoom.jsx:154-157, App.jsx:2). They are build and runtime checks, not logic.
