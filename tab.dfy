/** The tab record and the tab container that creates the first tab. */
module TabModel {
  import opened Wrappers
  import opened ContentSlot

  /** The button that represents a tab: its classes and its title. */
  datatype TabNode = TabNode(classes: set<string>, title: string)

  /** The button every new tab gets. */
  const NewTabNode: TabNode := TabNode({"tab", "new-tab"}, "New tab")

  datatype Tab = Tab(
    cellType: ContentType,
    cellIndex: int,
    tabNode: TabNode,
    tabContent: AgentContent,
    hasNewUpdate: bool)

  /** A cell element, by identity. */
  type CellNode = nat

  class ContentTab {
    var tabContent: AgentContent
    var activeTab: Option<Tab>
    /** Auto-run bookkeeping: declared and initialised, never used. */
    var autoRunTimeout: Option<int>
    var autoRunningCellNodes: set<CellNode>
    var autoRunTabs: seq<Tab>
    var isDisposed: bool

    /** Auto-run state as it is declared. */
    ghost predicate AutoRunIdle()
      reads this
    {
      autoRunTimeout == None && autoRunningCellNodes == {} && autoRunTabs == []
    }

    /** Builds a new Agent tab. The tab is returned only: it is not stored
        and does not become the active tab. */
    static method CreateTab() returns (t: Tab)
      ensures t.cellType == Agent && t.cellIndex == 0 && !t.hasNewUpdate
      ensures t.tabNode == NewTabNode
      ensures fresh(t.tabContent) && t.tabContent.Initial()
    {
      var node := NewTabNode;
      var content := new AgentContent();
      t := Tab(Agent, 0, node, content, false);
    }

    /** Creates the first tab and keeps its content; no tab is active. */
    constructor ()
      ensures fresh(tabContent) && tabContent.Initial()
      ensures activeTab == None
      ensures AutoRunIdle()
      ensures !isDisposed
    {
      activeTab := None;
      autoRunTimeout := None;
      autoRunningCellNodes := {};
      autoRunTabs := [];
      isDisposed := false;
      var first := CreateTab();
      tabContent := first.tabContent;
    }

    method Dispose()
      modifies this
      ensures isDisposed
      ensures tabContent == old(tabContent) && activeTab == old(activeTab)
      ensures autoRunTimeout == old(autoRunTimeout) && autoRunningCellNodes == old(autoRunningCellNodes)
      ensures autoRunTabs == old(autoRunTabs)
    {
      isDisposed := true;
    }
  }
}
