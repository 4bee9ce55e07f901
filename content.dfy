/** The content slot of a tab: it owns exactly one Agent pane. */
module ContentSlot {
  import AgentPane

  /** The kinds of content a tab or a floating window can show. */
  datatype ContentType = Agent | Code | Markdown

  class AgentContent {
    /** The pane the slot currently shows. */
    var agent: AgentPane.Agent
    /** Whether the slot's wrapper node is still in its parent container. */
    var attached: bool
    var isDisposed: bool

    /** A slot as its constructor leaves it, holding a pane as the Agent
        constructor leaves it. */
    ghost predicate Initial()
      reads this, agent
    {
      attached && !isDisposed && agent.Initial()
    }

    /** Builds the wrapper, header and content nodes and shows a new Agent. */
    constructor ()
      ensures Initial() && fresh(agent)
    {
      attached := true;
      isDisposed := false;
      agent := new AgentPane.Agent();
    }

    /** Installs a new Agent. The previous one is neither disposed nor
        detached: its node stays in the content node. */
    method ShowAgent()
      modifies this
      ensures fresh(agent) && agent.Initial()
      ensures unchanged(old(agent))
      ensures attached == old(attached) && isDisposed == old(isDisposed)
    {
      agent := new AgentPane.Agent();
    }

    /** Disposes the current Agent, then removes the wrapper and marks the
        slot disposed. */
    method Dispose()
      modifies this, agent
      ensures agent == old(agent)
      ensures agent.isDisposed && !agent.attached
      ensures agent.State() == old(agent.State()) && agent.children == old(agent.children)
      ensures isDisposed && !attached
    {
      agent.Dispose();
      attached := false;
      isDisposed := true;
    }
  }
}
