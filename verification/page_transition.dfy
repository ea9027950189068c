/**
 * The page-transition hook: a transition flag and a direction, set
 * directly by `startTransition` and by a chain of three timers in
 * `navigateWithTransition`. The router's `navigate` is recorded in a log
 * of the paths it was called with; each timer firing is a step.
 */
module PageTransition {
  datatype Direction = In | Out

  /** What the hook exposes: whether a transition runs, and in which direction. */
  datatype Phase = Phase(transitioning: bool, direction: Direction)

  class TransitionHook {
    var isTransitioning: bool
    var transitionDirection: Direction
    /** The paths `navigate` has been called with, in order. */
    var navigations: seq<string>
    /** Exit timers still running, with the path each will navigate to; equal delays fire in order. */
    var pendingNavigate: seq<string>
    /** Entrance timers still running. */
    var pendingEnter: nat
    /** End timers still running. */
    var pendingEnd: nat
    /** Every path `navigateWithTransition` was called with. */
    ghost var requested: seq<string>

    /** Each requested path is navigated to or still waiting, once and in request order. */
    ghost predicate Valid()
      reads this
    {
      navigations + pendingNavigate == requested
    }

    function Current(): Phase
      reads this
    {
      Phase(isTransitioning, transitionDirection)
    }

    /** No timer of the hook is running. */
    predicate Quiet()
      reads this
    {
      pendingNavigate == [] && pendingEnter == 0 && pendingEnd == 0
    }

    constructor ()
      ensures Valid() && Quiet()
      ensures !isTransitioning && transitionDirection == In && navigations == [] && requested == []
    {
      isTransitioning := false;
      transitionDirection := In;
      navigations := [];
      pendingNavigate := [];
      pendingEnter := 0;
      pendingEnd := 0;
      requested := [];
    }

    /** `startTransition(direction)`. */
    method StartTransition(direction: Direction)
      requires Valid()
      modifies this
      ensures Valid()
      ensures isTransitioning && transitionDirection == direction
      ensures navigations == old(navigations) && pendingNavigate == old(pendingNavigate)
      ensures pendingEnter == old(pendingEnter) && pendingEnd == old(pendingEnd) && requested == old(requested)
    {
      transitionDirection := direction;
      isTransitioning := true;
    }

    /** `navigateWithTransition(to)`: the exit phase starts and the exit timer is set; nothing is navigated yet. */
    method NavigateWithTransition(to: string)
      requires Valid()
      modifies this
      ensures Valid()
      ensures isTransitioning && transitionDirection == Out
      ensures navigations == old(navigations) && pendingNavigate == old(pendingNavigate) + [to]
      ensures requested == old(requested) + [to]
      ensures pendingEnter == old(pendingEnter) && pendingEnd == old(pendingEnd)
    {
      transitionDirection := Out;
      isTransitioning := true;
      pendingNavigate := pendingNavigate + [to];
      requested := requested + [to];
    }

    /** The oldest exit timer fires: it navigates to its path and sets the entrance timer. */
    method ExitTimerFires()
      requires Valid() && pendingNavigate != []
      modifies this
      ensures Valid()
      ensures navigations == old(navigations) + [old(pendingNavigate)[0]]
      ensures pendingNavigate == old(pendingNavigate)[1..] && pendingEnter == old(pendingEnter) + 1
      ensures isTransitioning == old(isTransitioning) && transitionDirection == old(transitionDirection)
      ensures pendingEnd == old(pendingEnd) && requested == old(requested)
    {
      navigations := navigations + [pendingNavigate[0]];
      pendingNavigate := pendingNavigate[1..];
      pendingEnter := pendingEnter + 1;
      assert old(pendingNavigate) == [old(pendingNavigate)[0]] + pendingNavigate;
    }

    /** An entrance timer fires: the entrance phase starts and the end timer is set. */
    method EnterTimerFires()
      requires Valid() && pendingEnter > 0
      modifies this
      ensures Valid()
      ensures isTransitioning && transitionDirection == In
      ensures pendingEnter == old(pendingEnter) - 1 && pendingEnd == old(pendingEnd) + 1
      ensures navigations == old(navigations) && pendingNavigate == old(pendingNavigate) && requested == old(requested)
    {
      transitionDirection := In;
      isTransitioning := true;
      pendingEnter := pendingEnter - 1;
      pendingEnd := pendingEnd + 1;
    }

    /** An end timer fires: the transition is over; the direction stays. */
    method EndTimerFires()
      requires Valid() && pendingEnd > 0
      modifies this
      ensures Valid()
      ensures !isTransitioning && transitionDirection == old(transitionDirection)
      ensures pendingEnd == old(pendingEnd) - 1
      ensures navigations == old(navigations) && pendingNavigate == old(pendingNavigate)
      ensures pendingEnter == old(pendingEnter) && requested == old(requested)
    {
      isTransitioning := false;
      pendingEnd := pendingEnd - 1;
    }
  }

  /**
   * One navigation on an idle hook, run to the end with no other event in
   * between: the phases seen after each step are exit, exit, entrance and
   * done, `navigate(to)` happens exactly once (at the second step), and the
   * hook ends idle with direction 'in'.
   */
  method NavigateThrough(h: TransitionHook, to: string) returns (phases: seq<Phase>)
    requires h.Valid() && h.Quiet()
    modifies h
    ensures h.Valid() && h.Quiet()
    ensures phases == [Phase(true, Out), Phase(true, Out), Phase(true, In), Phase(false, In)]
    ensures h.navigations == old(h.navigations) + [to]
    ensures !h.isTransitioning && h.transitionDirection == In
  {
    h.NavigateWithTransition(to);
    phases := [h.Current()];
    h.ExitTimerFires();
    assert h.navigations == old(h.navigations) + [to];
    phases := phases + [h.Current()];
    h.EnterTimerFires();
    phases := phases + [h.Current()];
    h.EndTimerFires();
    phases := phases + [h.Current()];
  }
}
