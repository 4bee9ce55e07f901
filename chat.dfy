/** The chat behaviour that the Agent pane and the Dropzone pane share: the
    role label of a message, the chat box that collects role and message
    elements, and what the Enter key and the Send button do to the input box
    and the chat box. */
module ChatLog {

  /** A child element of the chat box: a role element or a message element. */
  datatype ChatNode = RoleNode(caption: string) | MessageNode(text: string)

  /** One message as the reader sees it: the role label above its text. */
  datatype Entry = Entry(caption: string, text: string)

  /** The top-level children of a chat pane's node, in document order. */
  datatype PaneChild = ChatBoxElement | WelcomeIcon | WelcomeLabel | BottomContainer

  /** The role every message typed into the input box is posted under. */
  const UserRole: string := "user"

  /** The label shown for a role: only `system` and `user` have one. */
  function RoleLabel(role: string): (caption: string)
    ensures caption == "System" <==> role == "system"
    ensures caption == "You" <==> role == "user"
    ensures caption == "" <==> role != "system" && role != "user"
  {
    if role == "system" then "System"
    else if role == "user" then "You"
    else ""
  }

  /** The chat box after a message is added: a role element, then the message. */
  function AppendMessage(box: seq<ChatNode>, role: string, message: string): (r: seq<ChatNode>)
    ensures |r| == |box| + 2
    ensures box <= r
    ensures r[|box|] == RoleNode(RoleLabel(role))
    ensures r[|box| + 1] == MessageNode(message)
  {
    box + [RoleNode(RoleLabel(role)), MessageNode(message)]
  }

  /** A chat box alternates role elements and message elements, role first. */
  predicate WellFormed(box: seq<ChatNode>)
    decreases |box|
  {
    box == [] || (|box| >= 2 && box[0].RoleNode? && box[1].MessageNode? && WellFormed(box[2..]))
  }

  /** The transcript a well-formed chat box shows. */
  function Entries(box: seq<ChatNode>): seq<Entry>
    requires WellFormed(box)
    decreases |box|
  {
    if box == [] then [] else [Entry(box[0].caption, box[1].text)] + Entries(box[2..])
  }

  /** Adding a message keeps the chat box well formed and adds exactly one
      transcript entry, at the end. */
  lemma {:induction false} AppendMessageEntries(box: seq<ChatNode>, role: string, message: string)
    requires WellFormed(box)
    ensures WellFormed(AppendMessage(box, role, message))
    ensures Entries(AppendMessage(box, role, message)) == Entries(box) + [Entry(RoleLabel(role), message)]
    decreases |box|
  {
    var r := AppendMessage(box, role, message);
    if box == [] {
      assert r[2..] == [];
    } else {
      AppendMessageEntries(box[2..], role, message);
      assert r[2..] == AppendMessage(box[2..], role, message);
    }
  }

  /** The state of a chat pane: its chat box and the value of its input box. */
  datatype Pane = Pane(box: seq<ChatNode>, input: string)

  /** Enter submits unless Shift is held (Shift+Enter breaks the line). */
  predicate IsSubmitKey(key: string, shiftKey: bool) {
    key == "Enter" && !shiftKey
  }

  /** Posting the input box: its value becomes a user message, the box empties. */
  function Send(p: Pane): Pane {
    Pane(AppendMessage(p.box, UserRole, p.input), "")
  }

  /** A key press in the input box. */
  function KeyDown(p: Pane, key: string, shiftKey: bool): Pane {
    if IsSubmitKey(key, shiftKey) then Send(p) else p
  }

  /** Send records the input under the label `You`, even when the input is
      empty, and leaves the input empty. */
  lemma SendRecordsInput(p: Pane)
    requires WellFormed(p.box)
    ensures Send(p).input == ""
    ensures WellFormed(Send(p).box)
    ensures Entries(Send(p).box) == Entries(p.box) + [Entry("You", p.input)]
  {
    AppendMessageEntries(p.box, UserRole, p.input);
  }

  /** Enter without Shift acts as Send; every other key changes nothing. */
  lemma KeyDownEffect(p: Pane, key: string, shiftKey: bool)
    requires WellFormed(p.box)
    ensures WellFormed(KeyDown(p, key, shiftKey).box)
    ensures IsSubmitKey(key, shiftKey) ==>
              KeyDown(p, key, shiftKey).input == "" &&
              Entries(KeyDown(p, key, shiftKey).box) == Entries(p.box) + [Entry("You", p.input)]
    ensures !IsSubmitKey(key, shiftKey) ==> KeyDown(p, key, shiftKey) == p
  {
    if IsSubmitKey(key, shiftKey) {
      SendRecordsInput(p);
    }
  }

  /** What can happen to a chat pane: the user edits the input box, presses a
      key in it or clicks Send, or a caller posts a message with a role. */
  datatype ChatEvent =
    | Typed(value: string)
    | KeyPress(key: string, shiftKey: bool)
    | SendClick
    | Posted(role: string, message: string)

  function Apply(p: Pane, e: ChatEvent): Pane {
    match e
    case Typed(value) => Pane(p.box, value)
    case KeyPress(key, shiftKey) => KeyDown(p, key, shiftKey)
    case SendClick => Send(p)
    case Posted(role, message) => Pane(AppendMessage(p.box, role, message), p.input)
  }

  function Replay(p: Pane, events: seq<ChatEvent>): Pane
    decreases |events|
  {
    if events == [] then p else Replay(Apply(p, events[0]), events[1..])
  }

  /** The transcript is append-only: whatever happens, the chat box stays well
      formed and the earlier transcript is a prefix of the later one. */
  lemma {:induction false} ReplayAppendOnly(p: Pane, events: seq<ChatEvent>)
    requires WellFormed(p.box)
    ensures WellFormed(Replay(p, events).box)
    ensures Entries(p.box) <= Entries(Replay(p, events).box)
    decreases |events|
  {
    if events != [] {
      var q := Apply(p, events[0]);
      match events[0] {
        case Typed(_) =>
        case KeyPress(key, shiftKey) => KeyDownEffect(p, key, shiftKey);
        case SendClick => SendRecordsInput(p);
        case Posted(role, message) => AppendMessageEntries(p.box, role, message);
      }
      assert WellFormed(q.box) && Entries(p.box) <= Entries(q.box);
      ReplayAppendOnly(q, events[1..]);
    }
  }
}
