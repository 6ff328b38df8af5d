/**
 * The teardown actions the audio layout registers while it sets up and
 * connects, and what running them does to the resources it holds.
 */
module Lifecycle {
  import opened Dom

  /** The element's two effects: the menu size sync (setup) and the icon switch (connect). */
  datatype Reaction = SizeSync | IconSwitch

  /** Helper for `Dispose`: with neither effect running, no effect runs. */
  lemma NoneLive(live: set<Reaction>)
    requires SizeSync !in live && IconSwitch !in live
    ensures live == {}
  {
    if live != {} {
      var x :| x in live;
      match x {
        case SizeSync => assert false;
        case IconSwitch => assert false;
      }
    }
  }

  /** A registered disposal action. */
  datatype Teardown =
    | RemoveMenuContainer        // `this.menuContainer?.remove()`
    | RemoveLayoutMarker         // `this._media.player.el?.removeAttribute('data-layout')`
    | StopReaction(reaction: Reaction)  // an effect created in the scope stops with it

  /** What the teardown actions act on: the menu container, the player element and the live effects. */
  datatype Resources = Resources(
    menuContainer: Option<Element>,
    player: Option<Element>,
    live: set<Reaction>)

  const LayoutAttr := "data-layout"

  /** `menuContainer?.remove()`: detaches a container if there is one; no container, no change. */
  function RemoveContainer(c: Option<Element>): (r: Option<Element>)
    ensures r.Some? <==> c.Some?
    ensures r.Some? ==> !r.value.attached && r.value.attrs == c.value.attrs
    ensures r.Some? ==> r.value.className == c.value.className
  {
    match c
    case Some(e) => Some(Detach(e))
    case None => None
  }

  /** The player element, if there is one, carries `data-layout="audio"`. */
  predicate MarkerSet(p: Option<Element>) {
    p.Some? ==> LayoutAttr in p.value.attrs && p.value.attrs[LayoutAttr] == "audio"
  }

  /** The player element, if there is one, carries no `data-layout`. */
  predicate MarkerClear(p: Option<Element>) {
    p.Some? ==> LayoutAttr !in p.value.attrs
  }

  /** `player.el?.setAttribute('data-layout', 'audio')`: no player element, no change. */
  function PlaceMarker(p: Option<Element>): (r: Option<Element>)
    ensures r.Some? <==> p.Some?
    ensures MarkerSet(r)
    ensures r.Some? ==> r.value.attrs.Keys == p.value.attrs.Keys + {LayoutAttr}
    ensures r.Some? ==> forall n :: n in p.value.attrs && n != LayoutAttr ==> r.value.attrs[n] == p.value.attrs[n]
    ensures r.Some? ==> r.value.className == p.value.className && r.value.attached == p.value.attached
  {
    match p
    case Some(e) => Some(WithAttribute(e, LayoutAttr, "audio"))
    case None => None
  }

  /** `player.el?.removeAttribute('data-layout')`: no player element, no change. */
  function ClearMarker(p: Option<Element>): (r: Option<Element>)
    ensures r.Some? <==> p.Some?
    ensures MarkerClear(r)
    ensures r.Some? ==> r.value.attrs.Keys == p.value.attrs.Keys - {LayoutAttr}
    ensures r.Some? ==> forall n :: n in r.value.attrs ==> r.value.attrs[n] == p.value.attrs[n]
    ensures r.Some? ==> r.value.className == p.value.className && r.value.attached == p.value.attached
  {
    match p
    case Some(e) => Some(WithoutAttribute(e, LayoutAttr))
    case None => None
  }

  /** Clearing the marker a second time changes nothing. */
  lemma ClearMarkerTwice(p: Option<Element>)
    ensures ClearMarker(ClearMarker(p)) == ClearMarker(p)
  {
    if p.Some? {
      assert ClearMarker(ClearMarker(p)).value.attrs == ClearMarker(p).value.attrs;
    }
  }

  /** One teardown action; each touches a single resource. */
  function Apply(t: Teardown, d: Resources): Resources {
    match t
    case RemoveMenuContainer => d.(menuContainer := RemoveContainer(d.menuContainer))
    case RemoveLayoutMarker => d.(player := ClearMarker(d.player))
    case StopReaction(x) => d.(live := d.live - {x})
  }

  /**
   * Runs the actions in the order they are listed. Teardown only releases:
   * no resource appears that was not held, and no effect starts.
   */
  function RunAll(ts: seq<Teardown>, d: Resources): (r: Resources)
    ensures r.menuContainer.Some? <==> d.menuContainer.Some?
    ensures r.player.Some? <==> d.player.Some?
    ensures r.live <= d.live
    decreases |ts|
  {
    if ts == [] then d else Apply(ts[|ts| - 1], RunAll(ts[..|ts| - 1], d))
  }

  /** The effects a list of actions stops. */
  function Stopped(ts: seq<Teardown>): set<Reaction> {
    set t | t in ts && t.StopReaction? :: t.reaction
  }

  /**
   * Running a list of actions leaves each resource as if exactly the actions
   * that touch it had run once: only membership in the list matters.
   */
  lemma {:induction false} RunAllEffect(ts: seq<Teardown>, d: Resources)
    ensures RunAll(ts, d).menuContainer ==
              if RemoveMenuContainer in ts then RemoveContainer(d.menuContainer) else d.menuContainer
    ensures RunAll(ts, d).player ==
              if RemoveLayoutMarker in ts then ClearMarker(d.player) else d.player
    ensures RunAll(ts, d).live == d.live - Stopped(ts)
    decreases |ts|
  {
    if ts != [] {
      var init, last := ts[..|ts| - 1], ts[|ts| - 1];
      assert ts == init + [last];
      RunAllEffect(init, d);
      ClearMarkerTwice(d.player);
      assert Stopped(ts) == Stopped(init) + (if last.StopReaction? then {last.reaction} else {});
    }
  }

  /** The order in which the actions run does not change the outcome. */
  lemma RunAllOrderFree(ts: seq<Teardown>, us: seq<Teardown>, d: Resources)
    requires forall t :: t in ts <==> t in us
    ensures RunAll(ts, d) == RunAll(us, d)
  {
    RunAllEffect(ts, d);
    RunAllEffect(us, d);
    assert Stopped(ts) == Stopped(us);
  }

  /** Running the actions twice is the same as running them once: teardown tolerates repetition. */
  lemma RunAllIdempotent(ts: seq<Teardown>, d: Resources)
    ensures RunAll(ts, RunAll(ts, d)) == RunAll(ts, d)
  {
    RunAllEffect(ts, d);
    RunAllEffect(ts, RunAll(ts, d));
    ClearMarkerTwice(d.player);
  }
}
