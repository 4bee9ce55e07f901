/** The Dropzone pane: the chat pane of the Agent, plus a flag that decides
    whether dragging over the pane highlights it. */
module DropzonePane {
  import opened ChatLog

  /** The class every pane node carries. */
  const PaneClass: string := "agent"
  /** The class that highlights the pane while something is dragged over it. */
  const DragOverClass: string := "drag-over"

  /** The class list after a drag enters or moves over the pane: highlighted
      exactly when drops are received (or it already was), nothing else touched. */
  function Highlight(receivesDrop: bool, classes: set<string>): (r: set<string>)
    ensures DragOverClass in r <==> receivesDrop || DragOverClass in classes
    ensures r - {DragOverClass} == classes - {DragOverClass}
  {
    if receivesDrop then classes + {DragOverClass} else classes
  }

  /** The class list after a drag leaves the pane: never highlighted, nothing
      else touched. */
  function Unhighlight(classes: set<string>): (r: set<string>)
    ensures DragOverClass !in r
    ensures r + {DragOverClass} == classes + {DragOverClass}
  {
    classes - {DragOverClass}
  }

  /** Highlighting twice is highlighting once: the class list is a set. */
  lemma HighlightIdempotent(receivesDrop: bool, classes: set<string>)
    ensures Highlight(receivesDrop, Highlight(receivesDrop, classes)) == Highlight(receivesDrop, classes)
  {
  }

  /** A drag that enters and then leaves restores an unhighlighted class list. */
  lemma LeaveUndoesEnter(receivesDrop: bool, classes: set<string>)
    requires DragOverClass !in classes
    ensures Unhighlight(Highlight(receivesDrop, classes)) == classes
  {
  }

  class Dropzone {
    var children: seq<PaneChild>
    var chatBox: seq<ChatNode>
    var chatInput: string
    /** The class list of the pane's node. */
    var classList: set<string>
    /** Whether a drag over the pane should highlight it. */
    var doseReceiveDrop: bool
    var attached: bool
    var isDisposed: bool

    /** No live handler clears the flag: the drop handler is commented out. */
    ghost predicate Valid()
      reads this
    {
      WellFormed(chatBox) && doseReceiveDrop
    }

    function State(): Pane
      reads this
    {
      Pane(chatBox, chatInput)
    }

    constructor ()
      ensures Valid() && doseReceiveDrop
      ensures chatBox == [] && chatInput == ""
      ensures classList == {PaneClass}
      ensures children == [ChatBoxElement, BottomContainer]
      ensures attached && !isDisposed
    {
      doseReceiveDrop := true;
      classList := {PaneClass};
      var nodes := [ChatBoxElement];
      if ChatBoxElement !in nodes {
        nodes := nodes + [WelcomeIcon, WelcomeLabel];
      }
      children := nodes + [BottomContainer];
      chatBox := [];
      chatInput := "";
      attached := true;
      isDisposed := false;
    }

    method DragEnter()
      requires Valid()
      modifies this
      ensures Valid()
      ensures classList == Highlight(doseReceiveDrop, old(classList))
      ensures DragOverClass in classList
      ensures State() == old(State()) && doseReceiveDrop == old(doseReceiveDrop)
      ensures children == old(children) && attached == old(attached) && isDisposed == old(isDisposed)
    {
      if doseReceiveDrop {
        classList := classList + {DragOverClass};
      }
    }

    method DragOver()
      requires Valid()
      modifies this
      ensures Valid()
      ensures classList == Highlight(doseReceiveDrop, old(classList))
      ensures DragOverClass in classList
      ensures State() == old(State()) && doseReceiveDrop == old(doseReceiveDrop)
      ensures children == old(children) && attached == old(attached) && isDisposed == old(isDisposed)
    {
      if doseReceiveDrop {
        classList := classList + {DragOverClass};
      }
    }

    method DragLeave()
      requires Valid()
      modifies this
      ensures Valid()
      ensures classList == Unhighlight(old(classList))
      ensures State() == old(State()) && doseReceiveDrop == old(doseReceiveDrop)
      ensures children == old(children) && attached == old(attached) && isDisposed == old(isDisposed)
    {
      classList := classList - {DragOverClass};
    }

    method AddMessage(role: string, message: string)
      requires Valid()
      modifies this
      ensures Valid()
      ensures chatBox == AppendMessage(old(chatBox), role, message)
      ensures chatInput == old(chatInput) && classList == old(classList) && doseReceiveDrop == old(doseReceiveDrop)
      ensures children == old(children) && attached == old(attached) && isDisposed == old(isDisposed)
    {
      ghost var before := chatBox;
      AppendMessageEntries(before, role, message);
      var roleNode := RoleNode(RoleLabel(role));
      chatBox := chatBox + [roleNode];
      chatBox := chatBox + [MessageNode(message)];
      assert chatBox == AppendMessage(before, role, message);
    }

    method EnterKey(key: string, shiftKey: bool)
      requires Valid()
      modifies this
      ensures Valid()
      ensures State() == KeyDown(old(State()), key, shiftKey)
      ensures classList == old(classList) && doseReceiveDrop == old(doseReceiveDrop)
      ensures children == old(children) && attached == old(attached) && isDisposed == old(isDisposed)
    {
      if key == "Enter" && !shiftKey {
        var message := chatInput;
        chatInput := "";
        AddMessage(UserRole, message);
      }
    }

    method ButtonClick()
      requires Valid()
      modifies this
      ensures Valid()
      ensures State() == Send(old(State()))
      ensures classList == old(classList) && doseReceiveDrop == old(doseReceiveDrop)
      ensures children == old(children) && attached == old(attached) && isDisposed == old(isDisposed)
    {
      var message := chatInput;
      chatInput := "";
      AddMessage(UserRole, message);
    }

    method Dispose()
      modifies this
      ensures !attached && isDisposed
      ensures State() == old(State()) && classList == old(classList) && doseReceiveDrop == old(doseReceiveDrop)
      ensures children == old(children)
    {
      attached := false;
      isDisposed := true;
    }
  }
}
