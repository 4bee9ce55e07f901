/** The toolbar button that shows or hides one chat container per notebook. */
module Toolbar {

  /** The chat container of one notebook, reduced to whether it is hidden. */
  class MainContainer {
    var hidden: bool

    constructor (hidden: bool)
      ensures this.hidden == hidden
    {
      this.hidden := hidden;
    }

    predicate IsHidden()
      reads this
    {
      hidden
    }

    method Show()
      modifies this
      ensures !hidden
    {
      hidden := false;
    }

    method Hide()
      modifies this
      ensures hidden
    {
      hidden := true;
    }
  }

  /** The visibility map after a click on notebook `path`: the entry is created
      with visibility `startsHidden` when missing, then flipped; no other
      notebook is touched. */
  function ClickVisibility(vis: map<string, bool>, path: string, startsHidden: bool): (r: map<string, bool>)
    ensures r.Keys == vis.Keys + {path}
    ensures path in vis ==> r[path] == !vis[path]
    ensures path !in vis ==> r[path] == !startsHidden
    ensures forall q :: q in vis && q != path ==> r[q] == vis[q]
  {
    var hidden := if path in vis then vis[path] else startsHidden;
    vis[path := !hidden]
  }

  /** Two clicks on a notebook that already has a container restore every
      visibility. */
  lemma ClickTwiceRestores(vis: map<string, bool>, path: string, h1: bool, h2: bool)
    requires path in vis
    ensures ClickVisibility(ClickVisibility(vis, path, h1), path, h2) == vis
  {
  }

  /** The first click on a new notebook makes its container visible or hidden
      as the opposite of how it was created; the second click brings it back. */
  lemma FirstClicksOnNewNotebook(vis: map<string, bool>, path: string, startsHidden: bool, h2: bool)
    requires path !in vis
    ensures ClickVisibility(vis, path, startsHidden)[path] == !startsHidden
    ensures ClickVisibility(ClickVisibility(vis, path, startsHidden), path, h2)[path] == startsHidden
  {
  }

  class ButtonExtension {
    /** The chat container of each notebook, by notebook path. */
    var mainContainerMap: map<string, MainContainer>

    /** Different notebooks never share a container. */
    ghost predicate Valid()
      reads this
    {
      forall p, q :: p in mainContainerMap && q in mainContainerMap && p != q ==>
        mainContainerMap[p] != mainContainerMap[q]
    }

    /** Whether each notebook's container is hidden. */
    function Visibility(): map<string, bool>
      reads this, mainContainerMap.Values
    {
      map p | p in mainContainerMap :: mainContainerMap[p].hidden
    }

    constructor ()
      ensures Valid() && mainContainerMap == map[]
    {
      mainContainerMap := map[];
    }

    /** The button's click handler for the notebook at `path`. A missing
        container is created, hidden or not as `startsHidden` says; an existing
        one is reused. Then the container is shown if hidden, else hidden. */
    method OnClick(path: string, startsHidden: bool)
      requires Valid()
      modifies this, mainContainerMap.Values
      ensures Valid()
      ensures path in mainContainerMap
      ensures path in old(mainContainerMap) ==> mainContainerMap == old(mainContainerMap)
      ensures path !in old(mainContainerMap) ==>
                fresh(mainContainerMap[path]) &&
                mainContainerMap == old(mainContainerMap)[path := mainContainerMap[path]]
      ensures Visibility() == ClickVisibility(old(Visibility()), path, startsHidden)
    {
      if path !in mainContainerMap {
        var created := new MainContainer(startsHidden);
        mainContainerMap := mainContainerMap[path := created];
      }
      var current := mainContainerMap[path];
      if current.IsHidden() {
        current.Show();
      } else {
        current.Hide();
      }
    }
  }
}
