/**
 * The application shell's join form as an object whose input handlers
 * overwrite its fields. Each method is specified by the matching function
 * of module JoinGate.
 */
module App {
  import JoinGate

  class JoinForm {
    var username: string
    var room: string
    var joined: bool

    function Snapshot(): JoinGate.Form
      reads this
    {
      JoinGate.Form(username, room, joined)
    }

    /** The shell's initial state: both fields empty and not joined. */
    constructor ()
      ensures username == "" && room == "" && !joined
      ensures Snapshot() == JoinGate.Initial()
    {
      username := "";
      room := "";
      joined := false;
    }

    method SetUsername(v: string)
      modifies this
      ensures !old(joined) ==> username == v && room == old(room) && !joined
      ensures old(joined) ==> Snapshot() == old(Snapshot())
      ensures Snapshot() == JoinGate.SetUsername(old(Snapshot()), v)
    {
      if !joined {
        username := v;
      }
    }

    method SetRoom(v: string)
      modifies this
      ensures !old(joined) ==> room == v && username == old(username) && !joined
      ensures old(joined) ==> Snapshot() == old(Snapshot())
      ensures Snapshot() == JoinGate.SetRoom(old(Snapshot()), v)
    {
      if !joined {
        room := v;
      }
    }

    method JoinRoom()
      modifies this
      ensures username == old(username) && room == old(room)
      ensures joined <==> old(joined) || (username != "" && room != "")
      ensures Snapshot() == JoinGate.JoinRoom(old(Snapshot()))
    {
      if username != "" && room != "" {
        joined := true;
      }
    }
  }
}
