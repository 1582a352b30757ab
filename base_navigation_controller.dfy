/** `BaseNavigationController` (BaseNavigationController.swift): a navigation stack that ignores
    a push while another push is still being shown, or when a controller of the same class is
    already on the stack. `super.pushViewController` appends to the stack; the delegate's
    `didShow` callback ends the transition. */
module Navigation {

  /** A `UIViewController`, known here only by its Objective-C class name. */
  class ViewController {
    const className: string

    constructor (className: string)
      ensures this.className == className
    {
      this.className := className;
    }
  }

  /** `viewControllers.map { $0.className }`. */
  function ClassNames(vcs: seq<ViewController>): (names: seq<string>)
    ensures |names| == |vcs|
    ensures forall i :: 0 <= i < |vcs| ==> names[i] == vcs[i].className
  {
    if vcs == [] then [] else [vcs[0].className] + ClassNames(vcs[1..])
  }

  /** No two controllers on the stack share a class name. */
  ghost predicate DistinctClassNames(vcs: seq<ViewController>)
  {
    forall i, j :: 0 <= i < j < |vcs| ==> vcs[i].className != vcs[j].className
  }

  /** `contains(viewController:)`: a controller of the same class is on the stack. */
  function ContainsClass(vcs: seq<ViewController>, vc: ViewController): (r: bool)
    ensures r <==> exists i :: 0 <= i < |vcs| && vcs[i].className == vc.className
  {
    vc.className in ClassNames(vcs)
  }

  /** A push that passes the guard keeps the class names distinct. */
  lemma PushKeepsClassNamesDistinct(vcs: seq<ViewController>, vc: ViewController)
    requires DistinctClassNames(vcs) && !ContainsClass(vcs, vc)
    ensures DistinctClassNames(vcs + [vc])
  {
  }

  class BaseNavigationController {
    var viewControllers: seq<ViewController>
    var isNewViewControllerBeingAdded: bool

    constructor ()
      ensures viewControllers == [] && !isNewViewControllerBeingAdded
    {
      viewControllers := [];
      isNewViewControllerBeingAdded := false;
    }

    /** `contains(viewController:)` on the current stack. */
    function Contains(vc: ViewController): bool
      reads this
    {
      ContainsClass(viewControllers, vc)
    }

    /** `pushViewController(_:animated:)`. The push takes effect only when no transition is in
        progress and no controller of the same class is on the stack; it then appends the
        controller and marks a transition in progress, so later pushes are ignored until
        `didShow`. An ignored push changes nothing. Distinct class names stay distinct. */
    method PushViewController(vc: ViewController)
      modifies this
      ensures !old(isNewViewControllerBeingAdded) && !old(Contains(vc)) ==>
        viewControllers == old(viewControllers) + [vc] && isNewViewControllerBeingAdded
      ensures old(isNewViewControllerBeingAdded) || old(Contains(vc)) ==>
        viewControllers == old(viewControllers) && isNewViewControllerBeingAdded == old(isNewViewControllerBeingAdded)
      ensures DistinctClassNames(old(viewControllers)) ==> DistinctClassNames(viewControllers)
    {
      if !isNewViewControllerBeingAdded && !Contains(vc) {
        if DistinctClassNames(viewControllers) {
          PushKeepsClassNamesDistinct(viewControllers, vc);
        }
        isNewViewControllerBeingAdded := true;
        viewControllers := viewControllers + [vc];
      }
    }

    /** `navigationController(_:didShow:animated:)`: the transition is over; the stack is as it
        was. */
    method DidShow(vc: ViewController)
      modifies this
      ensures !isNewViewControllerBeingAdded && viewControllers == old(viewControllers)
    {
      isNewViewControllerBeingAdded := false;
    }

    /** `popToRootViewController(animated:)`: only the bottom controller stays. */
    method PopToRoot()
      modifies this
      ensures viewControllers == if |old(viewControllers)| == 0 then [] else [old(viewControllers)[0]]
      ensures isNewViewControllerBeingAdded == old(isNewViewControllerBeingAdded)
    {
      if |viewControllers| > 0 {
        viewControllers := [viewControllers[0]];
      }
    }
  }

  /** Two pushes with no `didShow` between them: when the first takes effect, the second is
      ignored whatever it pushes. */
  method PushTwice(nav: BaseNavigationController, first: ViewController, second: ViewController)
    modifies nav
    ensures !old(nav.isNewViewControllerBeingAdded) && !old(nav.Contains(first)) ==>
      nav.viewControllers == old(nav.viewControllers) + [first]
  {
    nav.PushViewController(first);
    nav.PushViewController(second);
  }
}
