/** `TabBarPage` and `MainCoordinator` (MainCoordinator.swift): the mapping between the three tabs
    and their indices, and the coordinator's list of child coordinators. */
module Coordinators {
  import opened Base
  import opened Navigation

  // ----- `TabBarPage` -----

  datatype TabBarPage = Dogs | Cats | Search

  /** `init?(index:)`: the tabs are numbered 0, 1, 2; any other index has no tab. */
  function PageFromIndex(index: int): (p: Option<TabBarPage>)
    ensures p.Some? <==> 0 <= index <= 2
  {
    match index
    case 0 => Some(Dogs)
    case 1 => Some(Cats)
    case 2 => Some(Search)
    case _ => None
  }

  /** `tabOrderNumber`. */
  function TabOrderNumber(p: TabBarPage): (n: int)
    ensures 0 <= n <= 2
  {
    match p
    case Dogs => 0
    case Cats => 1
    case Search => 2
  }

  /** `tabTitle`. */
  function TabTitle(p: TabBarPage): string
  {
    match p
    case Dogs => "Dogs"
    case Cats => "Cats"
    case Search => "Search"
  }

  /** Index and order number are inverse to each other. */
  lemma PageIndexRoundTrip(p: TabBarPage, index: int)
    ensures PageFromIndex(TabOrderNumber(p)) == Some(p)
    ensures 0 <= index <= 2 ==> TabOrderNumber(PageFromIndex(index).value) == index
  {
  }

  /** Distinct pages have distinct order numbers and distinct titles. */
  lemma OrderNumbersAndTitlesDistinct(p: TabBarPage, q: TabBarPage)
    ensures TabOrderNumber(p) == TabOrderNumber(q) ==> p == q
    ensures TabTitle(p) == TabTitle(q) ==> p == q
  {
  }

  // ----- the coordinators -----

  /** A `TabCoordinator`, seen from its parent: started once, finished when its parent finishes.
      Its tab bar and its own children are not modelled. */
  class TabCoordinator {
    var started: bool
    var finished: bool

    constructor ()
      ensures !started && !finished
    {
      started := false;
      finished := false;
    }

    method Start()
      modifies this
      ensures started && finished == old(finished)
    {
      started := true;
    }

    /** `finish()`: empties its own children. */
    method Finish()
      modifies this
      ensures finished && started == old(started)
    {
      finished := true;
    }
  }

  class MainCoordinator {
    const navigationController: BaseNavigationController
    var childCoordinators: seq<TabCoordinator>

    constructor (navigationController: BaseNavigationController)
      ensures this.navigationController == navigationController && childCoordinators == []
    {
      this.navigationController := navigationController;
      childCoordinators := [];
    }

    function Children(): set<TabCoordinator>
      reads this
    {
      set i | 0 <= i < |childCoordinators| :: childCoordinators[i]
    }

    /** `showMainFlow()`: start a new tab coordinator and append it, exactly one per call. */
    method ShowMainFlow()
      modifies this
      ensures |childCoordinators| == |old(childCoordinators)| + 1
      ensures childCoordinators[..|old(childCoordinators)|] == old(childCoordinators)
      ensures var c := childCoordinators[|old(childCoordinators)|]; fresh(c) && c.started && !c.finished
    {
      var tabCoordinator := new TabCoordinator();
      tabCoordinator.Start();
      childCoordinators := childCoordinators + [tabCoordinator];
    }

    /** `finish()`: finish every child, forget them all and pop to the root controller. */
    method Finish()
      modifies this, Children(), navigationController
      ensures childCoordinators == []
      ensures forall c :: c in old(Children()) ==> c.finished
      ensures navigationController.viewControllers ==
        if |old(navigationController.viewControllers)| == 0 then [] else [old(navigationController.viewControllers)[0]]
    {
      for i := 0 to |childCoordinators|
        invariant childCoordinators == old(childCoordinators)
        invariant forall j :: 0 <= j < i ==> childCoordinators[j].finished
        invariant navigationController.viewControllers == old(navigationController.viewControllers)
      {
        childCoordinators[i].Finish();
      }
      childCoordinators := [];
      navigationController.PopToRoot();
    }
  }
}
