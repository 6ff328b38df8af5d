/**
 * The `<media-audio-layout>` element: its setup and connect hooks, the two
 * effects they start, the teardowns they register, and what it renders.
 */
module AudioLayout {
  import opened Dom
  import opened Layouts
  import opened Lifecycle

  /** The class the element adds to itself and gives its menu container. */
  const LayoutClass := "vds-audio-layout"

  const SizeAttr := "data-size"

  /** The value `isSmallLayout && 'sm'` hands to `setAttribute`: `false` stands for `None`. */
  function SizeValue(isSmallLayout: bool): Option<string> {
    if isSmallLayout then Some("sm") else None
  }

  /** How icons are supplied: from the author's slots, or by the generated default loader. */
  datatype IconStrategy = SlotManager | IconsLoader

  /** The strategy one run of the icon effect connects. */
  function IconStrategyFor(customIcons: bool): (r: IconStrategy)
    ensures r == SlotManager <==> customIcons
    ensures r == IconsLoader <==> !customIcons
  {
    if customIcons then SlotManager else IconsLoader
  }

  /** The media store values the element reads through its media context. */
  datatype MediaState = MediaState(load: LoadMode, canLoad: bool, streamType: StreamType)

  /** Where the element stands in its lifecycle. */
  datatype Phase = Created | SetUp | Connected | Disconnected | Disposed {
    /** Between setup and dispose. */
    predicate Live() {
      SetUp? || Connected? || Disconnected?
    }
  }

  class MediaAudioLayoutElement {
    var phase: Phase

    // the host element
    var forwardKeepAlive: bool
    var classes: set<string>
    var isMatch: bool
    var isSmallLayout: bool
    var customIcons: bool

    // what the media context gives access to: the media store and the player element
    var media: MediaState
    var player: Option<Element>

    // owned resources
    var menuContainer: Option<Element>
    var live: set<Reaction>
    var setupTeardowns: seq<Teardown>
    var connectTeardowns: seq<Teardown>

    // icon strategies connected so far, most recent last
    var iconConnects: seq<IconStrategy>

    /** The lifecycle invariant: which resources exist in which phase. */
    ghost predicate Valid()
      reads this`phase, this`player, this`menuContainer, this`live
      reads this`setupTeardowns, this`connectTeardowns, this`iconConnects
    {
      && (phase.Created? ==> menuContainer.None? && live == {} && setupTeardowns == [] && iconConnects == [])
      && (!phase.Created? ==> menuContainer.Some? && menuContainer.value.className == LayoutClass)
      && (SizeSync in live <==> phase.Live())
      && (IconSwitch in live <==> phase.Connected?)
      && (phase.Live() ==>
            menuContainer.value.attached && setupTeardowns == [StopReaction(SizeSync), RemoveMenuContainer])
      && (phase.Disposed? ==> !menuContainer.value.attached && setupTeardowns == [])
      && (phase.Connected? ==>
            MarkerSet(player) && iconConnects != [] &&
            connectTeardowns == [RemoveLayoutMarker, StopReaction(IconSwitch)])
      && (!phase.Connected? ==> connectTeardowns == [])
      && (phase.Disconnected? ==> MarkerClear(player))
    }

    /** The icon strategy connected last, if any. */
    function ActiveIcons(): Option<IconStrategy>
      reads this`iconConnects
    {
      if iconConnects == [] then None else Some(iconConnects[|iconConnects| - 1])
    }

    /** What the teardown actions act on. */
    function Held(): Resources
      reads this`menuContainer, this`player, this`live
    {
      Lifecycle.Resources(menuContainer, player, live)
    }

    /** The menu container's `data-size` reflects `isSmallLayout`. */
    ghost predicate SizeInSync()
      reads this`menuContainer, this`isSmallLayout
    {
      menuContainer.Some? ==>
        if isSmallLayout then SizeAttr in menuContainer.value.attrs && menuContainer.value.attrs[SizeAttr] == "sm"
        else SizeAttr !in menuContainer.value.attrs
    }

    /** The values the selector reads at render time. */
    function CurrentSnapshot(): Snapshot
      reads this
    {
      Snapshot(isMatch, media.load, media.canLoad, media.streamType, isSmallLayout)
    }

    constructor (playerEl: Option<Element>, media: MediaState, isMatch: bool, isSmallLayout: bool,
                 customIcons: bool, keepAlive: bool)
      ensures Valid() && phase == Created
      ensures player == playerEl && this.media == media && this.isMatch == isMatch
      ensures this.isSmallLayout == isSmallLayout && this.customIcons == customIcons
      ensures forwardKeepAlive == keepAlive && classes == {}
      ensures connectTeardowns == [] && iconConnects == []
    {
      phase := Created;
      forwardKeepAlive := keepAlive;
      classes := {};
      this.isMatch := isMatch;
      this.isSmallLayout := isSmallLayout;
      this.customIcons := customIcons;
      this.media := media;
      player := playerEl;
      menuContainer := None;
      live := {};
      setupTeardowns := [];
      connectTeardowns := [];
      iconConnects := [];
    }

    /** The inputs change: breakpoint match, size, the `customIcons` prop and the media store. */
    method Update(isMatch: bool, isSmallLayout: bool, customIcons: bool, media: MediaState)
      modifies this`isMatch, this`isSmallLayout, this`customIcons, this`media
      ensures this.isMatch == isMatch && this.isSmallLayout == isSmallLayout
      ensures this.customIcons == customIcons && this.media == media
    {
      this.isMatch, this.isSmallLayout, this.customIcons, this.media := isMatch, isSmallLayout, customIcons, media;
    }

    /** One run of the size effect's body: a container present gets `data-size="sm"` when small, none otherwise. */
    method SyncSize()
      modifies this`menuContainer
      ensures SizeInSync()
      ensures menuContainer ==
                if old(menuContainer).None? then None
                else Some(SetAttribute(old(menuContainer).value, SizeAttr, SizeValue(isSmallLayout)))
    {
      if menuContainer.None? {
        return;
      }
      menuContainer := Some(SetAttribute(menuContainer.value, SizeAttr, SizeValue(isSmallLayout)));
    }

    /** One run of the icon effect's body: connect the strategy the `customIcons` prop selects. */
    method SwitchIcons()
      modifies this`iconConnects
      ensures ActiveIcons() == Some(IconStrategyFor(customIcons))
      ensures iconConnects == old(iconConnects) + [IconStrategyFor(customIcons)]
    {
      iconConnects := iconConnects + [IconStrategyFor(customIcons)];
    }

    /** The scheduler re-runs the size effect after a change; once stopped, it does nothing. */
    method ReactToSize()
      requires Valid()
      modifies this`menuContainer
      ensures Valid()
      ensures SizeSync in live ==> SizeInSync()
      ensures menuContainer ==
                if SizeSync in live then Some(SetAttribute(old(menuContainer).value, SizeAttr, SizeValue(isSmallLayout)))
                else old(menuContainer)
    {
      if SizeSync in live {
        SyncSize();
      }
    }

    /** The scheduler re-runs the icon effect after a change; once stopped, it does nothing. */
    method ReactToIcons()
      requires Valid()
      modifies this`iconConnects
      ensures Valid()
      ensures IconSwitch in live ==> ActiveIcons() == Some(IconStrategyFor(customIcons))
      ensures iconConnects ==
                if IconSwitch in live then old(iconConnects) + [IconStrategyFor(customIcons)]
                else old(iconConnects)
    {
      if IconSwitch in live {
        SwitchIcons();
      }
    }

    /**
     * `onSetup`: turn off keep-alive, bind the media context, add the layout
     * class, create the menu container, start the size effect and register the
     * container's removal.
     */
    method Setup()
      requires Valid() && phase == Created
      modifies this`phase, this`forwardKeepAlive, this`classes
      modifies this`menuContainer, this`live, this`setupTeardowns
      ensures Valid() && phase == SetUp
      ensures !forwardKeepAlive && classes == old(classes) + {LayoutClass}
      ensures menuContainer == Some(SetAttribute(Element(LayoutClass, map[], true), SizeAttr, SizeValue(isSmallLayout)))
      ensures SizeInSync()
      ensures live == {SizeSync}
      ensures setupTeardowns == [StopReaction(SizeSync), RemoveMenuContainer]
    {
      assert live == {} && setupTeardowns == [];
      forwardKeepAlive := false;
      classes := classes + {LayoutClass};
      menuContainer := Some(Element(LayoutClass, map[], true));
      live := live + {SizeSync};
      setupTeardowns := setupTeardowns + [StopReaction(SizeSync)];
      SyncSize();
      assert menuContainer.value.className == LayoutClass && menuContainer.value.attached;
      setupTeardowns := setupTeardowns + [RemoveMenuContainer];
      phase := SetUp;
    }

    /**
     * `onConnect`: mark the player element with `data-layout="audio"`, register
     * the marker's removal and start the icon effect.
     */
    method Connect()
      requires Valid() && (phase == SetUp || phase == Disconnected)
      modifies this`phase, this`player, this`connectTeardowns, this`live
      modifies this`iconConnects
      ensures Valid() && phase == Connected
      ensures player == PlaceMarker(old(player))
      ensures connectTeardowns == [RemoveLayoutMarker, StopReaction(IconSwitch)]
      ensures live == old(live) + {IconSwitch}
      ensures ActiveIcons() == Some(IconStrategyFor(customIcons))
      ensures iconConnects == old(iconConnects) + [IconStrategyFor(customIcons)]
    {
      player := PlaceMarker(player);
      connectTeardowns := connectTeardowns + [RemoveLayoutMarker];
      live := live + {IconSwitch};
      connectTeardowns := connectTeardowns + [StopReaction(IconSwitch)];
      SwitchIcons();
      phase := Connected;
    }

    /** Runs the given teardown actions, one after another, on the held resources. */
    method RunTeardowns(ts: seq<Teardown>)
      modifies this`menuContainer, this`player, this`live
      ensures Held() == RunAll(ts, old(Held()))
    {
      var i := 0;
      while i < |ts|
        invariant 0 <= i <= |ts|
        invariant Held() == RunAll(ts[..i], old(Held()))
      {
        assert ts[..i + 1][..i] == ts[..i];
        var next := Apply(ts[i], Held());
        menuContainer, player, live := next.menuContainer, next.player, next.live;
        i := i + 1;
      }
      assert ts[..|ts|] == ts;
    }

    /** Leaving the document disposes the connect scope: the marker goes and the icon effect stops. */
    method Disconnect()
      requires Valid() && phase == Connected
      modifies this`phase, this`menuContainer, this`player, this`live, this`connectTeardowns
      ensures Valid() && phase == Disconnected
      ensures Held() == RunAll(old(connectTeardowns), old(Held()))
      ensures player == ClearMarker(old(player)) && MarkerClear(player)
      ensures live == old(live) - {IconSwitch}
      ensures menuContainer == old(menuContainer)
      ensures connectTeardowns == []
    {
      RunAllEffect(connectTeardowns, Held());
      RunTeardowns(connectTeardowns);
      connectTeardowns := [];
      phase := Disconnected;
    }

    /**
     * Destroying the element disposes every scope still open: the menu
     * container leaves the document, both effects stop and, if connected, the
     * marker goes. Disposing twice changes nothing more.
     */
    method Dispose()
      requires Valid() && phase != Created
      modifies this`phase, this`menuContainer, this`player, this`live
      modifies this`setupTeardowns, this`connectTeardowns
      ensures Valid() && phase == Disposed
      ensures Held() == RunAll(old(connectTeardowns) + old(setupTeardowns), old(Held()))
      ensures menuContainer == RemoveContainer(old(menuContainer)) && !menuContainer.value.attached
      ensures live == {}
      ensures player == if old(phase) == Connected then ClearMarker(old(player)) else old(player)
      ensures old(phase) == Connected ==> MarkerClear(player)
      ensures old(phase) == Disposed ==> Held() == old(Held())
      ensures setupTeardowns == [] && connectTeardowns == []
    {
      var ts := connectTeardowns + setupTeardowns;
      RunAllEffect(ts, Held());
      RunTeardowns(ts);
      NoneLive(live);
      connectTeardowns, setupTeardowns := [], [];
      phase := Disposed;
    }

    /**
     * `_render`: the layout the selector picks from what the element reads now;
     * the media context must be bound, so setup has run.
     */
    function Render(): (r: Layout)
      reads this
      requires phase != Created
      ensures !isMatch ==> r == NoLayout
      ensures r == LoadLayout <==> isMatch && media.load == Play && !media.canLoad
      ensures r == SmallLayout ==> media.streamType != Unknown && isSmallLayout
      ensures r == LargeLayout ==> media.streamType != Unknown && !isSmallLayout
      ensures r == NoLayout && isMatch ==> media.streamType == Unknown
    {
      Select(CurrentSnapshot())
    }
  }

  /** The menu container exists and is in the document. */
  predicate Placed(c: Option<Element>) {
    c.Some? && c.value.attached
  }

  /**
   * setup, connect, disconnect, connect, dispose: the marker is on the player
   * exactly while connected, the menu container is in the document from setup
   * until dispose.
   */
  method MarkerLifecycle(p: Element, media: MediaState, customIcons: bool)
    returns (marked: seq<bool>, placed: seq<bool>)
    requires LayoutAttr !in p.attrs
    ensures marked == [false, true, false, true, false]
    ensures placed == [true, true, true, true, false]
  {
    var e := new MediaAudioLayoutElement(Some(p), media, true, false, customIcons, true);
    e.Setup();
    var m0, p0 := !MarkerClear(e.player), Placed(e.menuContainer);
    assert !m0 && p0;
    e.Connect();
    var m1, p1 := !MarkerClear(e.player), Placed(e.menuContainer);
    assert m1 && p1;
    e.Disconnect();
    var m2, p2 := !MarkerClear(e.player), Placed(e.menuContainer);
    assert !m2 && p2;
    e.Connect();
    var m3, p3 := !MarkerClear(e.player), Placed(e.menuContainer);
    assert m3 && p3;
    e.Dispose();
    marked := [m0, m1, m2, m3, !MarkerClear(e.player)];
    placed := [p0, p1, p2, p3, Placed(e.menuContainer)];
  }

  /**
   * Turning `customIcons` on while connected: the connect run chose the
   * generated loader, the next run of the icon effect connects the slot
   * manager, one strategy per run.
   */
  method IconToggle(p: Option<Element>, media: MediaState)
    returns (log: seq<IconStrategy>, active: Option<IconStrategy>)
    ensures log == [IconsLoader, SlotManager]
    ensures active == Some(SlotManager)
  {
    var e := new MediaAudioLayoutElement(p, media, true, false, false, false);
    e.Setup();
    e.Connect();
    e.Update(true, false, true, media);
    e.ReactToIcons();
    log, active := e.iconConnects, e.ActiveIcons();
  }

  /** The menu container's size follows `isSmallLayout` until dispose, and no longer after. */
  method MenuSize(p: Option<Element>, media: MediaState)
    returns (sizes: seq<Option<string>>)
    ensures sizes == [None, Some("sm"), None, None]
  {
    var e := new MediaAudioLayoutElement(p, media, true, false, false, true);
    e.Setup();
    var s0 := SizeOf(e.menuContainer);
    assert s0 == None;
    e.Update(true, true, false, media);
    e.ReactToSize();
    var s1 := SizeOf(e.menuContainer);
    assert s1 == Some("sm");
    e.Update(true, false, false, media);
    e.ReactToSize();
    var s2 := SizeOf(e.menuContainer);
    assert s2 == None;
    e.Dispose();
    e.Update(true, true, false, media);
    e.ReactToSize();
    sizes := [s0, s1, s2, SizeOf(e.menuContainer)];
  }

  /** The `data-size` of a container, if it has one. */
  function SizeOf(c: Option<Element>): Option<string> {
    if c.Some? && SizeAttr in c.value.attrs then Some(c.value.attrs[SizeAttr]) else None
  }
}
