/**
 * The chat room component as an object whose handlers update its state in
 * place. The socket is the `outbox` field, to which every emit appends; the
 * typing timeout handle is the `deadline` field, overwritten by each remote
 * typing event. Every method is specified by the matching function of
 * module Session applied to the state before the call.
 */
module ChatRoom {
  import opened ChatTypes
  import Session

  class ChatSession {
    const username: string
    const room: string
    var draft: string
    var log: seq<Message>
    var indicator: string
    var deadline: Option<nat>
    var now: nat
    var listeners: nat
    var outbox: seq<Outbound>

    /** The component's state as a value. */
    function Snapshot(): Session.State
      reads this
    {
      Session.State(username, room, draft, log, indicator, deadline, now, listeners, outbox)
    }

    predicate Valid()
      reads this
    {
      Session.Valid(Snapshot())
    }

    /** First render with the given props: empty draft, log and indicator,
      no handler registered, nothing emitted. */
    constructor (username: string, room: string)
      ensures Valid()
      ensures Snapshot() == Session.Init(username, room)
    {
      this.username := username;
      this.room := room;
      draft := "";
      log := [];
      indicator := "";
      deadline := None;
      now := 0;
      listeners := 0;
      outbox := [];
    }

    method Mount()
      requires Valid()
      modifies this
      ensures Valid()
      ensures outbox == old(outbox) + [EmitJoinRoom(room)]
      ensures Snapshot() == Session.Mount(old(Snapshot()))
    {
      outbox := outbox + [EmitJoinRoom(room)];
      listeners := listeners + 1;
    }

    method Unmount()
      requires Valid()
      modifies this
      ensures Valid()
      ensures listeners == 0
      ensures Snapshot() == Session.Unmount(old(Snapshot()))
    {
      listeners := 0;
    }

    method OnChange(text: string)
      requires Valid()
      modifies this
      ensures Valid()
      ensures draft == text && outbox == old(outbox) + [EmitTyping(username, room)]
      ensures Snapshot() == Session.Change(old(Snapshot()), text)
    {
      draft := text;
      HandleTyping();
    }

    /** `handleTyping`: emit one typing event. */
    method HandleTyping()
      modifies this`outbox
      ensures outbox == old(outbox) + [EmitTyping(username, room)]
    {
      outbox := outbox + [EmitTyping(username, room)];
    }

    method Send(id: string, time: string)
      requires Valid()
      modifies this
      ensures Valid()
      ensures IsBlank(old(draft)) ==> Snapshot() == old(Snapshot())
      ensures !IsBlank(old(draft)) ==>
        log == old(log) + [Message(room, username, old(draft), time, id)] && draft == "" && indicator == ""
      ensures Snapshot() == Session.Send(old(Snapshot()), id, time)
    {
      if IsBlank(draft) {
        return;
      }
      var data := Message(room, username, draft, time, id);
      outbox := outbox + [EmitSendMessage(data)];
      log := log + [data];
      draft := "";
      indicator := "";
    }

    method OnKeyDown(key: string, id: string, time: string)
      requires Valid()
      modifies this
      ensures Valid()
      ensures Snapshot() == Session.KeyDown(old(Snapshot()), key, id, time)
    {
      if key == "Enter" {
        Send(id, time);
      }
    }

    /** The receive_message handlers: each registered one appends the payload. */
    method Receive(data: Message)
      requires Valid()
      modifies this
      ensures Valid()
      ensures old(log) <= log && outbox == old(outbox)
      ensures Snapshot() == Session.Receive(old(Snapshot()), data)
    {
      log := log + seq(listeners, _ => data);
    }

    /** The user_typing handlers: each one sets the indicator, cancels the
      pending timeout and schedules a fresh one TypingDelay from now. */
    method UserTyping(user: string)
      requires Valid()
      modifies this
      ensures Valid()
      ensures user == username ==> Snapshot() == old(Snapshot())
      ensures Snapshot() == Session.UserTyping(old(Snapshot()), user)
    {
      if listeners > 0 && user != username {
        indicator := Session.TypingText(user);
        deadline := Some(now + Session.TypingDelay);
      }
    }

    /** The render's pass over the log: for each entry, in order, whether it
      is shown as the local user's own message (right-aligned, no author
      line) or as someone else's. */
    method OwnFlags() returns (own: seq<bool>)
      ensures |own| == |log|
      ensures forall i | 0 <= i < |log| :: own[i] <==> IsOwn(log[i], username)
    {
      own := [];
      for i := 0 to |log|
        invariant |own| == i
        invariant forall j | 0 <= j < i :: own[j] <==> IsOwn(log[j], username)
      {
        own := own + [IsOwn(log[i], username)];
      }
    }

    /** The clock moves `dt` milliseconds forward; a timeout that falls due
      fires and clears the indicator. */
    method Advance(dt: nat)
      requires Valid()
      modifies this
      ensures Valid()
      ensures now == old(now) + dt
      ensures Snapshot() == Session.Advance(old(Snapshot()), dt)
    {
      now := now + dt;
      if deadline.Some? && deadline.value <= now {
        indicator := "";
        deadline := None;
      }
    }
  }
}
