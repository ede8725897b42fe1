/**
 * The chat room's session logic as a state machine over explicit values.
 * Each function is one handler of the component (the mount effect and its
 * cleanup, the input's change and Enter key, the Send button, the two
 * inbound socket handlers and the typing timeout); `Run` replays a trace of
 * them in dispatch order. The socket is an outbox of emitted events, time a
 * discrete millisecond clock with at most one pending typing deadline.
 */
module Session {
  import opened ChatTypes

  /** Milliseconds after the last remote typing event at which the
      indicator clears. */
  const TypingDelay: nat := 2000

  datatype State = State(
    username: string,        // the `username` prop, fixed for the session
    room: string,            // the `room` prop, fixed for the session
    draft: string,           // `message`: the input's current value
    log: seq<Message>,       // `messages`, in dispatch order
    indicator: string,       // `typingMessage`
    deadline: Option<nat>,   // when the pending typing timeout fires
    now: nat,                // the clock, in milliseconds
    listeners: nat,          // registered receive_message / user_typing handler pairs
    outbox: seq<Outbound>)   // every event emitted on the socket, oldest first

  /** The timer invariant: a pending timeout lies in the future, and with
      no timeout pending the indicator is empty. */
  predicate Valid(s: State)
  {
    (s.deadline.Some? ==> s.now < s.deadline.value) &&
    (s.deadline.None? ==> s.indicator == "")
  }

  /** The component's state right after its first render. */
  function Init(username: string, room: string): State
  {
    State(username, room, "", [], "", None, 0, 0, [])
  }

  /** The text shown while another user types. */
  function TypingText(user: string): string
  {
    user + " is typing..."
  }

  /** The mount effect: emit exactly one join_room carrying the room and
      register one receive_message / user_typing handler pair. */
  function Mount(s: State): (r: State)
    ensures r.outbox == s.outbox + [EmitJoinRoom(s.room)]
    ensures r.listeners == s.listeners + 1
    ensures r.(outbox := s.outbox, listeners := s.listeners) == s
  {
    s.(outbox := s.outbox + [EmitJoinRoom(s.room)], listeners := s.listeners + 1)
  }

  /** The effect's cleanup: `socket.off` with no handler argument removes
      every handler of both events. The pending typing timeout is not
      cancelled. */
  function Unmount(s: State): (r: State)
    ensures r.listeners == 0
    ensures r.(listeners := s.listeners) == s
  {
    s.(listeners := 0)
  }

  /** The input's onChange: the draft becomes the new text and exactly one
      typing event carrying {username, room} is emitted, unthrottled. */
  function Change(s: State, text: string): (r: State)
    ensures r.draft == text
    ensures r.outbox == s.outbox + [EmitTyping(s.username, s.room)]
    ensures r.(draft := s.draft, outbox := s.outbox) == s
  {
    s.(draft := text, outbox := s.outbox + [EmitTyping(s.username, s.room)])
  }

  /** `sendMessage`, with the fresh id and the display time supplied. A
      blank draft changes nothing. Otherwise the record of the room, the
      local user and the untrimmed draft is emitted once and appended to
      the log, the draft empties and the indicator clears; the pending
      timeout, if any, stays scheduled. */
  function Send(s: State, id: string, time: string): (r: State)
    ensures IsBlank(s.draft) ==> r == s
    ensures !IsBlank(s.draft) ==>
      var m := Message(s.room, s.username, s.draft, time, id);
      && r.log == s.log + [m]
      && r.outbox == s.outbox + [EmitSendMessage(m)]
      && r.draft == "" && r.indicator == ""
      && r.(log := s.log, outbox := s.outbox, draft := s.draft, indicator := s.indicator) == s
  {
    if IsBlank(s.draft) then s
    else
      var data := Message(s.room, s.username, s.draft, time, id);
      s.(outbox := s.outbox + [EmitSendMessage(data)], log := s.log + [data],
         draft := "", indicator := "")
  }

  /** The input's onKeyDown: only the Enter key sends. */
  function KeyDown(s: State, key: string, id: string, time: string): (r: State)
    ensures key != "Enter" ==> r == s
    ensures key == "Enter" ==> r == Send(s, id, time)
  {
    if key == "Enter" then Send(s, id, time) else s
  }

  /** Every registered receive_message handler appends the payload verbatim;
      nothing is emitted and no earlier entry changes. */
  function Receive(s: State, data: Message): (r: State)
    ensures |r.log| == |s.log| + s.listeners
    ensures r.log[..|s.log|] == s.log
    ensures forall i | |s.log| <= i < |r.log| :: r.log[i] == data
    ensures r.(log := s.log) == s
  {
    s.(log := s.log + seq(s.listeners, _ => data))
  }

  /** The user_typing handler. With no handler registered, or when the event
      names the local user, nothing changes. Otherwise the indicator names
      the user and the single pending timeout is replaced by one that fires
      TypingDelay from now. Running the handler once per registered pair
      ends in the same state as running it once. */
  function UserTyping(s: State, user: string): (r: State)
    ensures s.listeners == 0 || user == s.username ==> r == s
    ensures s.listeners > 0 && user != s.username ==>
      && r.indicator == TypingText(user)
      && r.deadline == Some(s.now + TypingDelay)
      && r.(indicator := s.indicator, deadline := s.deadline) == s
  {
    if s.listeners == 0 || user == s.username then s
    else s.(indicator := TypingText(user), deadline := Some(s.now + TypingDelay))
  }

  /** The clock moves `dt` milliseconds forward. If the pending timeout
      falls within that span it fires: the indicator clears and no timeout
      is pending any more. */
  function Advance(s: State, dt: nat): (r: State)
    ensures r.now == s.now + dt
    ensures s.deadline.Some? && s.deadline.value <= s.now + dt ==>
      r.indicator == "" && r.deadline == None
    ensures !(s.deadline.Some? && s.deadline.value <= s.now + dt) ==>
      r.indicator == s.indicator && r.deadline == s.deadline
    ensures r.(now := s.now, indicator := s.indicator, deadline := s.deadline) == s
  {
    var t := s.now + dt;
    if s.deadline.Some? && s.deadline.value <= t then s.(now := t, indicator := "", deadline := None)
    else s.(now := t)
  }

  /** One callback dispatched to the component. */
  datatype Input =
    | Mounted
    | CleanedUp
    | InputChanged(text: string)
    | KeyPressed(key: string, id: string, time: string)
    | SendClicked(id: string, time: string)
    | MessageReceived(data: Message)
    | TypingReceived(user: string)
    | TimePassed(dt: nat)

  function Step(s: State, i: Input): State
  {
    match i
    case Mounted => Mount(s)
    case CleanedUp => Unmount(s)
    case InputChanged(text) => Change(s, text)
    case KeyPressed(key, id, time) => KeyDown(s, key, id, time)
    case SendClicked(id, time) => Send(s, id, time)
    case MessageReceived(data) => Receive(s, data)
    case TypingReceived(user) => UserTyping(s, user)
    case TimePassed(dt) => Advance(s, dt)
  }

  /** The callbacks of `ins`, one at a time, in order. */
  function Run(s: State, ins: seq<Input>): State
    decreases |ins|
  {
    if ins == [] then s else Run(Step(s, ins[0]), ins[1..])
  }

  /** Every callback keeps the timer invariant. */
  lemma StepPreservesValid(s: State, i: Input)
    requires Valid(s)
    ensures Valid(Step(s, i))
  {
  }

  lemma {:induction false} RunPreservesValid(s: State, ins: seq<Input>)
    requires Valid(s)
    ensures Valid(Run(s, ins))
    decreases |ins|
  {
    if ins != [] {
      StepPreservesValid(s, ins[0]);
      RunPreservesValid(Step(s, ins[0]), ins[1..]);
    }
  }

  /** One callback appends to the log and the outbox at most, never moves
      the clock back, and keeps the room and the user. */
  lemma StepOnlyAppends(s: State, i: Input)
    ensures var r := Step(s, i);
      && s.log <= r.log
      && s.outbox <= r.outbox
      && s.now <= r.now
      && r.username == s.username && r.room == s.room
  {
    var r := Step(s, i);
    match i
    case Mounted =>
      PrefixOfAppend(s.outbox, [EmitJoinRoom(s.room)]);
    case CleanedUp =>
    case InputChanged(text) =>
      PrefixOfAppend(s.outbox, [EmitTyping(s.username, s.room)]);
    case SendClicked(id, time) =>
      SendOnlyAppends(s, id, time);
    case KeyPressed(key, id, time) =>
      if key == "Enter" {
        assert r == Send(s, id, time);
        SendOnlyAppends(s, id, time);
      } else {
        assert r == s;
      }
    case MessageReceived(data) =>
      PrefixOfAppend(s.log, seq(s.listeners, _ => data));
    case TypingReceived(user) =>
    case TimePassed(dt) =>
  }

  lemma SendOnlyAppends(s: State, id: string, time: string)
    ensures s.log <= Send(s, id, time).log && s.outbox <= Send(s, id, time).outbox
  {
    if !IsBlank(s.draft) {
      var m := Message(s.room, s.username, s.draft, time, id);
      PrefixOfAppend(s.log, [m]);
      PrefixOfAppend(s.outbox, [EmitSendMessage(m)]);
    }
  }

  lemma PrefixOfAppend<T>(a: seq<T>, b: seq<T>)
    ensures a <= a + b
  {
    assert (a + b)[..|a|] == a;
  }

  /** Along any trace the log and the outbox only grow at the end, the
      clock never goes back, and the room and user never change. */
  lemma {:induction false} RunOnlyAppends(s: State, ins: seq<Input>)
    ensures var r := Run(s, ins);
      && s.log <= r.log
      && s.outbox <= r.outbox
      && s.now <= r.now
      && r.username == s.username && r.room == s.room
    decreases |ins|
  {
    if ins != [] {
      var s1 := Step(s, ins[0]);
      StepOnlyAppends(s, ins[0]);
      RunOnlyAppends(s1, ins[1..]);
      var r := Run(s1, ins[1..]);
      assert s.log == s1.log[..|s.log|] == r.log[..|s1.log|][..|s.log|];
      assert s.outbox == s1.outbox[..|s.outbox|] == r.outbox[..|s1.outbox|][..|s.outbox|];
    }
  }

  /** Inputs that cannot restart or clear the typing countdown by
      themselves: they neither send nor report another user typing. */
  predicate Quiet(username: string, i: Input)
  {
    match i
    case TypingReceived(user) => user == username
    case SendClicked(_, _) => false
    case KeyPressed(key, _, _) => key != "Enter"
    case _ => true
  }

  /** Inputs other than a typing event from another user: none of them can
      set the indicator. */
  predicate NoRemoteTyping(username: string, i: Input)
  {
    !(i.TypingReceived? && i.user != username)
  }

  /** One callback other than another user's typing event keeps a cleared
      indicator cleared, with no timeout pending. */
  lemma StepKeepsCleared(s: State, i: Input)
    requires s.deadline == None && s.indicator == ""
    requires NoRemoteTyping(s.username, i)
    ensures Step(s, i).deadline == None && Step(s, i).indicator == ""
    ensures Step(s, i).username == s.username
  {
    match i
    case KeyPressed(key, id, time) =>
      if key == "Enter" {
        assert Step(s, i) == Send(s, id, time);
      } else {
        assert Step(s, i) == s;
      }
    case _ =>
  }

  /** Once cleared with no timeout pending, the indicator stays empty until
      another user's typing event arrives; sends, which clear it anyway,
      are allowed. */
  lemma {:induction false} QuietRunKeepsCleared(s: State, ins: seq<Input>)
    requires s.deadline == None && s.indicator == ""
    requires forall k | 0 <= k < |ins| :: NoRemoteTyping(s.username, ins[k])
    ensures Run(s, ins).deadline == None && Run(s, ins).indicator == ""
    decreases |ins|
  {
    if ins != [] {
      var s1 := Step(s, ins[0]);
      StepKeepsCleared(s, ins[0]);
      assert forall k | 0 <= k < |ins[1..]| :: NoRemoteTyping(s1.username, ins[1..][k]) by {
        forall k | 0 <= k < |ins[1..]| ensures NoRemoteTyping(s1.username, ins[1..][k]) {
          assert ins[1..][k] == ins[k + 1];
        }
      }
      QuietRunKeepsCleared(s1, ins[1..]);
    }
  }

  /** Through quiet inputs a pending countdown is neither extended nor
      shortened: the indicator keeps its text while the clock is before the
      deadline, and is empty from the deadline on. */
  lemma {:induction false} QuietRunFiresAtDeadline(s: State, ins: seq<Input>)
    requires Valid(s) && s.deadline.Some?
    requires forall k | 0 <= k < |ins| :: Quiet(s.username, ins[k])
    ensures var r := Run(s, ins);
      && (r.now < s.deadline.value ==> r.indicator == s.indicator && r.deadline == s.deadline)
      && (r.now >= s.deadline.value ==> r.indicator == "" && r.deadline == None)
    decreases |ins|
  {
    if ins != [] {
      var s1 := Step(s, ins[0]);
      RunOnlyAppends(s1, ins[1..]);
      if s1.deadline == s.deadline {
        assert s1.indicator == s.indicator;
        QuietRunFiresAtDeadline(s1, ins[1..]);
      } else {
        assert s1.now >= s.deadline.value;
        QuietRunKeepsCleared(s1, ins[1..]);
      }
    }
  }

  /** Debounce with reset: after a typing event from another user, and with
      no later one, the indicator names that user exactly while the clock is
      less than TypingDelay past that event, never clearing earlier and
      never lingering later. */
  lemma TypingIndicatorResets(s: State, user: string, ins: seq<Input>)
    requires s.listeners > 0 && user != s.username
    requires forall k | 0 <= k < |ins| :: Quiet(s.username, ins[k])
    ensures var r := Run(UserTyping(s, user), ins);
      r.indicator == TypingText(user) <==> r.now < s.now + TypingDelay
  {
    var s1 := UserTyping(s, user);
    QuietRunFiresAtDeadline(s1, ins);
    assert |TypingText(user)| > 0;
  }

  /** Different users get different typing texts. */
  lemma TypingTextInjective(u: string, v: string)
    ensures u != v ==> TypingText(u) != TypingText(v)
  {
    if TypingText(u) == TypingText(v) {
      assert |u| == |v|;
      assert u == TypingText(u)[..|u|];
      assert v == TypingText(v)[..|v|];
    }
  }

  /** One callback never makes the indicator name the local user. */
  lemma StepNeverNamesSelf(s: State, i: Input)
    requires s.indicator != TypingText(s.username)
    ensures Step(s, i).indicator != TypingText(s.username)
  {
    assert |TypingText(s.username)| > 0;
    match i
    case TypingReceived(user) =>
      TypingTextInjective(user, s.username);
    case _ =>
  }

  /** Along any trace the typing indicator never names the local user. */
  lemma {:induction false} NeverNamesSelf(s: State, ins: seq<Input>)
    requires s.indicator != TypingText(s.username)
    ensures Run(s, ins).indicator != TypingText(s.username)
    decreases |ins|
  {
    if ins != [] {
      StepNeverNamesSelf(s, ins[0]);
      RunOnlyAppends(s, [ins[0]]);
      assert Step(s, ins[0]).username == s.username;
      NeverNamesSelf(Step(s, ins[0]), ins[1..]);
    }
  }

  /** With no handler registered, inbound messages and typing events change
      nothing at all, whatever their number and order. */
  lemma {:induction false} DetachedIgnoresInbound(s: State, ins: seq<Input>)
    requires s.listeners == 0
    requires forall k | 0 <= k < |ins| :: ins[k].MessageReceived? || ins[k].TypingReceived?
    ensures Run(s, ins) == s
    decreases |ins|
  {
    if ins != [] {
      assert Step(s, ins[0]) == s;
      DetachedIgnoresInbound(s, ins[1..]);
    }
  }

  /** After cleanup, later inbound events have no effect. */
  lemma CleanupDetaches(s: State, ins: seq<Input>)
    requires forall k | 0 <= k < |ins| :: ins[k].MessageReceived? || ins[k].TypingReceived?
    ensures Run(Unmount(s), ins) == Unmount(s)
  {
    DetachedIgnoresInbound(Unmount(s), ins);
  }

  /** With the single handler pair of a mounted component, an inbound
      message becomes the last log entry unchanged and nothing is emitted. */
  lemma ReceiveAppendsOnce(s: State, data: Message)
    requires s.listeners == 1
    ensures Receive(s, data).log == s.log + [data]
    ensures Receive(s, data).outbox == s.outbox
  {
    assert Receive(s, data).log == s.log + [data];
  }

  /** A non-blank send appends a record that the log classifies as the
      local user's own message, carrying the room and the untrimmed draft. */
  lemma SendAppendsOwnMessage(s: State, id: string, time: string)
    requires !IsBlank(s.draft)
    ensures var r := Send(s, id, time);
      && |r.log| == |s.log| + 1
      && IsOwn(r.log[|s.log|], s.username)
      && r.log[|s.log|].room == s.room && r.log[|s.log|].message == s.draft
      && r.log[|s.log|].id == id
  {
  }

  /** The ids of the messages sent, in order. */
  function SentIds(out: seq<Outbound>): seq<string>
  {
    if out == [] then []
    else (if out[|out| - 1].EmitSendMessage? then SentIds(out[..|out| - 1]) + [out[|out| - 1].data.id]
          else SentIds(out[..|out| - 1]))
  }

  predicate Distinct(xs: seq<string>)
  {
    forall i, j | 0 <= i < j < |xs| :: xs[i] != xs[j]
  }

  /** Supplied with an id not used before, a send keeps the ids of the
      locally sent messages pairwise distinct. */
  lemma SendKeepsIdsDistinct(s: State, id: string, time: string)
    requires Distinct(SentIds(s.outbox)) && id !in SentIds(s.outbox)
    ensures Distinct(SentIds(Send(s, id, time).outbox))
  {
    var r := Send(s, id, time);
    if !IsBlank(s.draft) {
      assert r.outbox[..|r.outbox| - 1] == s.outbox;
      assert SentIds(r.outbox) == SentIds(s.outbox) + [id];
    }
  }

  /** Join "general" as alice, type "hi" and send it: the log holds exactly
      that record, and the socket saw the join, one typing event and one
      send_message. */
  lemma AliceSendsHi(id: string, time: string)
    ensures var r := Run(Init("alice", "general"), [Mounted, InputChanged("hi"), SendClicked(id, time)]);
      var m := Message("general", "alice", "hi", time, id);
      && r.log == [m]
      && r.outbox == [EmitJoinRoom("general"), EmitTyping("alice", "general"), EmitSendMessage(m)]
      && r.draft == ""
  {
    var s0 := Init("alice", "general");
    var s1 := Mount(s0);
    var s2 := Change(s1, "hi");
    assert !IsWhitespace('h');
    BlankIffAllWhitespace("hi");
    var s3 := Send(s2, id, time);
    var ins := [Mounted, InputChanged("hi"), SendClicked(id, time)];
    assert Run(s0, ins) == Run(s1, ins[1..]);
    assert ins[1..][1..] == [SendClicked(id, time)];
    assert Run(s1, ins[1..]) == Run(s2, ins[1..][1..]);
    assert Run(s2, ins[1..][1..]) == Run(s3, []);
  }

  /** bob types at 0 ms and again at 1000 ms: the indicator still names bob
      at 2000 ms and at 2999 ms, and is empty at 3000 ms. */
  lemma BobTypesTwice()
    ensures var s := Mount(Init("alice", "general"));
      var a := Run(s, [TypingReceived("bob"), TimePassed(1000), TypingReceived("bob"), TimePassed(1000)]);
      && a.now == 2000 && a.indicator == "bob is typing..."
      && Advance(a, 999).indicator == "bob is typing..."
      && Advance(a, 1000).indicator == ""
  {
    var s := Mount(Init("alice", "general"));
    var half := [TypingReceived("bob"), TimePassed(1000)];
    assert "bob" != "alice";
    assert TypingText("bob") == "bob is typing...";
    assert [TypingReceived("bob"), TimePassed(1000), TypingReceived("bob"), TimePassed(1000)] == half + half;
    RunConcat(s, half, half);
    TypeThenWait(s, "bob", 1000);
    TypeThenWait(Run(s, half), "bob", 1000);
  }

  /** Running two traces one after the other is running their concatenation. */
  lemma {:induction false} RunConcat(s: State, a: seq<Input>, b: seq<Input>)
    ensures Run(s, a + b) == Run(Run(s, a), b)
    decreases |a|
  {
    if a == [] {
      assert a + b == b;
    } else {
      assert (a + b)[0] == a[0] && (a + b)[1..] == a[1..] + b;
      RunConcat(Step(s, a[0]), a[1..], b);
    }
  }

  /** A remote typing event followed by less than TypingDelay of quiet: the
      indicator names the typist and the timeout is still pending. */
  lemma TypeThenWait(s: State, user: string, dt: nat)
    requires s.listeners > 0 && user != s.username && dt < TypingDelay
    ensures Run(s, [TypingReceived(user), TimePassed(dt)])
      == s.(indicator := TypingText(user), deadline := Some(s.now + TypingDelay), now := s.now + dt)
  {
    var ins := [TypingReceived(user), TimePassed(dt)];
    var s1 := UserTyping(s, user);
    var s2 := Advance(s1, dt);
    assert s2 == s.(indicator := TypingText(user), deadline := Some(s.now + TypingDelay), now := s.now + dt);
    assert ins[1..] == [TimePassed(dt)] && ins[1..][1..] == [];
    assert Run(s1, ins[1..]) == Run(s2, []);
  }
}
