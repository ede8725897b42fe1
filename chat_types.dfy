/**
 * Values shared by the chat room and its socket protocol: the message record,
 * the events the client emits, and JavaScript's String.prototype.trim, which
 * decides whether a draft is blank.
 */
module ChatTypes {

  datatype Option<T> = None | Some(value: T)

  /** A chat message as built by `sendMessage` and as carried by the
      `send_message` and `receive_message` events. */
  datatype Message = Message(room: string, author: string, message: string, time: string, id: string)

  /** The events the chat room emits on the shared socket. */
  datatype Outbound =
    | EmitJoinRoom(room: string)                   // "join_room", payload the bare room id
    | EmitSendMessage(data: Message)               // "send_message", payload the full record
    | EmitTyping(username: string, room: string)   // "typing", payload {username, room}

  /** The code points JavaScript counts as WhiteSpace or LineTerminator:
      the characters `trim` removes from both ends of a string. */
  predicate IsWhitespace(c: char)
  {
    var n := c as int;
    n == 0x09 || n == 0x0A || n == 0x0B || n == 0x0C || n == 0x0D || n == 0x20 ||
    n == 0xA0 || n == 0x1680 || (0x2000 <= n <= 0x200A) || n == 0x2028 || n == 0x2029 ||
    n == 0x202F || n == 0x205F || n == 0x3000 || n == 0xFEFF
  }

  /** The index of the first character of `s` at or after `i` that is not
      whitespace, or `|s|` when there is none. */
  function SkipLeading(s: string, i: nat): (k: nat)
    requires i <= |s|
    ensures i <= k <= |s|
    ensures forall j | i <= j < k :: IsWhitespace(s[j])
    ensures k == |s| || !IsWhitespace(s[k])
    decreases |s| - i
  {
    if i < |s| && IsWhitespace(s[i]) then SkipLeading(s, i + 1) else i
  }

  /** The index just past the last character of `s[lo..hi]` that is not
      whitespace, or `lo` when there is none. */
  function SkipTrailing(s: string, lo: nat, hi: nat): (k: nat)
    requires lo <= hi <= |s|
    ensures lo <= k <= hi
    ensures forall j | k <= j < hi :: IsWhitespace(s[j])
    ensures k == lo || !IsWhitespace(s[k - 1])
  {
    if lo < hi && IsWhitespace(s[hi - 1]) then SkipTrailing(s, lo, hi - 1) else hi
  }

  /** String.prototype.trim: the part of `s` left once its leading and
      trailing whitespace is removed, so a non-empty result starts and ends
      with a non-whitespace character. */
  function Trim(s: string): (r: string)
    ensures var a := SkipLeading(s, 0);
      && a + |r| <= |s|
      && r == s[a..a + |r|]
      && (forall i | 0 <= i < a :: IsWhitespace(s[i]))
      && (forall i | a + |r| <= i < |s| :: IsWhitespace(s[i]))
    ensures r != [] ==> !IsWhitespace(r[0]) && !IsWhitespace(r[|r| - 1])
  {
    var a := SkipLeading(s, 0);
    s[a..SkipTrailing(s, a, |s|)]
  }

  /** `!message.trim()`: the draft is empty or whitespace only. */
  predicate IsBlank(s: string)
  {
    Trim(s) == ""
  }

  /** `msg.author === username`: whether a log entry is shown as the local
      user's own message. */
  predicate IsOwn(m: Message, username: string)
  {
    m.author == username
  }

  /** A draft is blank exactly when every one of its characters is
      whitespace; the empty draft is blank. */
  lemma BlankIffAllWhitespace(s: string)
    ensures IsBlank(s) <==> forall i | 0 <= i < |s| :: IsWhitespace(s[i])
  {
  }
}
