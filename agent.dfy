/** The Agent chat pane: a chat box, an input box and a Send button. */
module AgentPane {
  import opened ChatLog

  class Agent {
    /** The children of the pane's node, in document order. */
    var children: seq<PaneChild>
    /** The role and message elements of the chat box. */
    var chatBox: seq<ChatNode>
    /** The value of the input box. */
    var chatInput: string
    /** Whether the pane's node is still in the document. */
    var attached: bool
    var isDisposed: bool

    ghost predicate Valid()
      reads this
    {
      WellFormed(chatBox)
    }

    /** The chat state of the pane. */
    function State(): Pane
      reads this
    {
      Pane(chatBox, chatInput)
    }

    /** A pane as its constructor leaves it. */
    ghost predicate Initial()
      reads this
    {
      && Valid()
      && chatBox == [] && chatInput == ""
      && children == [ChatBoxElement, BottomContainer]
      && attached && !isDisposed
    }

    /** The welcome icon and label are added only when the node has no chat
        box, which is never the case: the chat box is appended first. */
    constructor ()
      ensures Initial()
    {
      var nodes := [ChatBoxElement];
      if ChatBoxElement !in nodes {
        nodes := nodes + [WelcomeIcon, WelcomeLabel];
      }
      children := nodes + [BottomContainer];
      chatBox := [];
      chatInput := "";
      attached := true;
      isDisposed := false;
    }

    /** Appends a role element, then the message element. */
    method AddMessage(role: string, message: string)
      requires Valid()
      modifies this
      ensures Valid()
      ensures chatBox == AppendMessage(old(chatBox), role, message)
      ensures chatInput == old(chatInput) && children == old(children)
      ensures attached == old(attached) && isDisposed == old(isDisposed)
    {
      ghost var before := chatBox;
      AppendMessageEntries(before, role, message);
      var roleNode := RoleNode(RoleLabel(role));
      chatBox := chatBox + [roleNode];
      chatBox := chatBox + [MessageNode(message)];
      assert chatBox == AppendMessage(before, role, message);
    }

    /** Enter without Shift posts the input as a user message and empties it. */
    method EnterKey(key: string, shiftKey: bool)
      requires Valid()
      modifies this
      ensures Valid()
      ensures State() == KeyDown(old(State()), key, shiftKey)
      ensures children == old(children) && attached == old(attached) && isDisposed == old(isDisposed)
    {
      if key == "Enter" && !shiftKey {
        var message := chatInput;
        chatInput := "";
        AddMessage(UserRole, message);
      }
    }

    /** The Send button posts the input, empty or not, and empties it. */
    method ButtonClick()
      requires Valid()
      modifies this
      ensures Valid()
      ensures State() == Send(old(State()))
      ensures children == old(children) && attached == old(attached) && isDisposed == old(isDisposed)
    {
      var message := chatInput;
      chatInput := "";
      AddMessage(UserRole, message);
    }

    /** Removes the pane's node and marks the pane disposed. */
    method Dispose()
      modifies this
      ensures !attached && isDisposed
      ensures State() == old(State()) && children == old(children)
    {
      attached := false;
      isDisposed := true;
    }
  }
}
