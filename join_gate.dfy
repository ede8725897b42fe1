/**
 * The join form of the application shell as a two-state machine over
 * values: username and room are edited while not joined, and joining
 * succeeds only when both are non-empty. Once joined, the form is frozen
 * and its two values become the chat room's props.
 */
module JoinGate {
  import opened ChatTypes

  datatype Form = Form(username: string, room: string, joined: bool)

  /** Both fields empty, not joined. */
  function Initial(): Form
  {
    Form("", "", false)
  }

  /** The Username input's onChange. The input is rendered only while not
      joined, so once joined no edit reaches the form. */
  function SetUsername(f: Form, v: string): (r: Form)
    ensures !f.joined ==> r == f.(username := v)
    ensures f.joined ==> r == f
  {
    if f.joined then f else f.(username := v)
  }

  /** The Room ID input's onChange, rendered only while not joined. */
  function SetRoom(f: Form, v: string): (r: Form)
    ensures !f.joined ==> r == f.(room := v)
    ensures f.joined ==> r == f
  {
    if f.joined then f else f.(room := v)
  }

  /** `joinRoom`: joined afterwards exactly when it was already, or when
      both fields are non-empty strings (no trimming); the fields are kept. */
  function JoinRoom(f: Form): (r: Form)
    ensures r.username == f.username && r.room == f.room
    ensures r.joined <==> f.joined || (f.username != "" && f.room != "")
  {
    if f.username != "" && f.room != "" then f.(joined := true) else f
  }

  /** What the shell renders the chat room with: its props once joined,
      nothing before. */
  function ChatProps(f: Form): (p: Option<(string, string)>)
    ensures p.Some? <==> f.joined
    ensures p.Some? ==> p.value.0 == f.username && p.value.1 == f.room
  {
    if f.joined then Some((f.username, f.room)) else None
  }

  datatype FormInput = UsernameChanged(v: string) | RoomChanged(v: string) | JoinClicked

  function FormStep(f: Form, i: FormInput): Form
  {
    match i
    case UsernameChanged(v) => SetUsername(f, v)
    case RoomChanged(v) => SetRoom(f, v)
    case JoinClicked => JoinRoom(f)
  }

  function FormRun(f: Form, ins: seq<FormInput>): Form
    decreases |ins|
  {
    if ins == [] then f else FormRun(FormStep(f, ins[0]), ins[1..])
  }

  /** A joined form has a non-empty username and room. */
  predicate Consistent(f: Form)
  {
    f.joined ==> f.username != "" && f.room != ""
  }

  /** Once joined, nothing changes the form again: `joined` never goes back
      to false, a second join is a no-op, and the chat room's props are
      frozen. */
  lemma {:induction false} JoinedIsFinal(f: Form, ins: seq<FormInput>)
    requires f.joined
    ensures FormRun(f, ins) == f
    ensures ChatProps(FormRun(f, ins)) == ChatProps(f)
    decreases |ins|
  {
    if ins != [] {
      assert FormStep(f, ins[0]) == f;
      JoinedIsFinal(f, ins[1..]);
    }
  }

  /** `joined` is monotone along any sequence of form events. */
  lemma JoinedMonotone(f: Form, ins: seq<FormInput>)
    ensures f.joined ==> FormRun(f, ins).joined
  {
    if f.joined {
      JoinedIsFinal(f, ins);
    }
  }

  lemma {:induction false} RunKeepsConsistent(f: Form, ins: seq<FormInput>)
    requires Consistent(f)
    ensures Consistent(FormRun(f, ins))
    decreases |ins|
  {
    if ins != [] {
      RunKeepsConsistent(FormStep(f, ins[0]), ins[1..]);
    }
  }

  /** Whatever the user does, the chat room is only ever shown with a
      non-empty username and a non-empty room. */
  lemma ReachableChatPropsNonEmpty(ins: seq<FormInput>)
    ensures var p := ChatProps(FormRun(Initial(), ins));
      p.Some? ==> p.value.0 != "" && p.value.1 != ""
  {
    RunKeepsConsistent(Initial(), ins);
  }

  /** Whitespace-only values are accepted: there is no trim. */
  lemma WhitespaceNamesJoin()
    ensures FormRun(Initial(), [UsernameChanged(" "), RoomChanged(" "), JoinClicked]).joined
  {
    var ins := [UsernameChanged(" "), RoomChanged(" "), JoinClicked];
    assert FormRun(Initial(), ins) == FormRun(Form(" ", "", false), ins[1..]);
    assert FormRun(Form(" ", "", false), ins[1..]) == FormRun(Form(" ", " ", false), ins[2..]);
    assert FormRun(Form(" ", " ", false), ins[2..]) == FormRun(Form(" ", " ", true), ins[3..]);
    assert ins[3..] == [];
  }
}
