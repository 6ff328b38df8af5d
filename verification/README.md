# Audio layout element, modelled in Dafny

This project models vidstack's `<media-audio-layout>` web component
(`MediaAudioLayoutElement`). It has two parts:

- **The layout selector.** `_render` picks what the element shows. It looks at
  the breakpoint match, the player's `load` prop, the store's `canLoad` and
  `streamType`, and the element's `isSmallLayout` flag. The result is nothing,
  the load placeholder, the small layout or the large layout. The gates apply
  in a fixed order: breakpoint, then loading, then stream type, then size.
- **The lifecycle.** `onSetup` turns off keep-alive, adds the layout class,
  creates the menu container, starts an effect that keeps the container's
  `data-size` in step with `isSmallLayout`, and registers the container's
  removal. `onConnect` sets `data-layout="audio"` on the player element,
  registers its removal, and starts an effect that connects the slot-based
  icon strategy when `customIcons` is on and the generated icon loader
  otherwise.

Files:

- `layouts.dfy` (module `Layouts`): the snapshot the selector reads, the four
  layout tags, `Select`, and lemmas about the order of the gates.
- `dom.dfy` (module `Dom`): elements as values (class name, attribute map, in
  the document or not). It also holds the attribute primitives the element
  calls: the native `setAttribute`, `removeAttribute` and `remove`, and
  maverick's `setAttribute` helper, where `false` (here `None`) removes the
  attribute.
- `lifecycle.dfy` (module `Lifecycle`): the registered teardown actions and
  `RunAll`, which runs a list of them. Lemmas prove what a list of teardowns
  does, that its order does not matter, and that running it twice is the same
  as running it once.
- `audio_layout.dfy` (module `AudioLayout`): the class
  `MediaAudioLayoutElement`. Its fields are the host state; `Valid()` is the
  lifecycle invariant. Its methods are setup, connect, disconnect, dispose and
  one re-run of each effect. `Render` is the selector applied to the fields.
  Three client methods run the lifecycle scenarios.

Modelling choices:

- Each `effect(...)` appears twice. One method is the effect's body
  (`SyncSize`, `SwitchIcons`). Another is the scheduler re-running it after an
  input changes (`ReactToSize`, `ReactToIcons`). An effect is "live" from its
  creation until the scope that created it is disposed. Stopping it is a
  teardown (`StopReaction`) in that scope.
- There are two scopes, one per hook. Teardowns registered in `onSetup` (the
  size effect and the container's removal) run when the element is destroyed
  (`Dispose`). Teardowns registered in `onConnect` (the marker's removal and
  the icon effect) run on disconnect (`Disconnect`), and also on `Dispose` if
  the element is still connected.
- `this._media.player.el` may be null, so the player element is an
  `Option<Element>`. Setting or removing the marker on a missing element
  changes nothing.
- `menuContainer?.remove()` takes the container out of the document. The
  `menuContainer` field still refers to it afterwards, so the model keeps the
  container value and sets its `attached` flag to false.
- The inputs (`isMatch`, `isSmallLayout`, `customIcons`, the media store) are
  fields. `Update` changes them from outside, and a reaction method then
  brings the outputs back in step.

## Model

| member | source | states |
|---|---|---|
| `Layouts.Select` | packages/vidstack/src/elements/define/layouts/default/audio-layout-element.ts:72-84 | Decision table, both directions. Without a breakpoint match the result is no layout. The result is the load placeholder exactly when matched and `load` is `play` while `canLoad` is false. It is the small or large layout exactly when matched, not loading and the stream type is known; small only if `isSmallLayout` holds, large only if it does not. |
| `Layouts.LoadingIgnoresStreamType` | packages/vidstack/src/elements/define/layouts/default/audio-layout-element.ts:76-78 | Loading wins over stream type. While matched and loading, changing the stream type leaves the result at the load placeholder. |
| `Layouts.UnmatchedIgnoresEverythingElse` | packages/vidstack/src/elements/define/layouts/default/audio-layout-element.ts:75-83 | Two unmatched snapshots give the same result, no layout, whatever their other fields. |
| `Layouts.SizeOnlyPicksVariant` | packages/vidstack/src/elements/define/layouts/default/audio-layout-element.ts:79-81 | Flipping `isSmallLayout` changes the result exactly when the result is the small or the large layout. |
| `Layouts.LoadingBeforeUnknownStream` | packages/vidstack/src/elements/define/layouts/default/audio-layout-element.ts:75-78 | Matched, `load` is `play`, cannot load, stream type unknown: the load placeholder, not no layout. |
| `Layouts.LoadedOnDemandWide` | packages/vidstack/src/elements/define/layouts/default/audio-layout-element.ts:75-81 | Matched, eager, can load, on-demand, not small: the large layout. |
| `Dom.SetAttribute` | packages/vidstack/src/elements/define/layouts/default/audio-layout-element.ts:49 | A value sets the attribute to that value. No value removes it. Every other attribute, the class name and the in-document flag are kept. |
| `Dom.WithAttribute` | packages/vidstack/src/elements/define/layouts/default/audio-layout-element.ts:56 | The attribute has the value, the key set gains only that name, and the other attributes are kept. |
| `Dom.WithoutAttribute` | packages/vidstack/src/elements/define/layouts/default/audio-layout-element.ts:57 | The key set loses exactly that name, whether or not it was there. The remaining attributes are kept. |
| `Dom.Detach` | packages/vidstack/src/elements/define/layouts/default/audio-layout-element.ts:52 | The element leaves the document and keeps its class and attributes. |
| `Lifecycle.RemoveContainer` | packages/vidstack/src/elements/define/layouts/default/audio-layout-element.ts:52 | Optional chaining: with no container nothing changes. A container is detached and keeps its class and attributes. |
| `Lifecycle.PlaceMarker` | packages/vidstack/src/elements/define/layouts/default/audio-layout-element.ts:56 | A player element present gets `data-layout="audio"`. It gains no other attribute, its other attribute values are kept, and its class name and in-document flag are unchanged. A missing one stays missing. |
| `Lifecycle.ClearMarker` | packages/vidstack/src/elements/define/layouts/default/audio-layout-element.ts:57 | A player element present loses `data-layout`. Its other attributes keep their values, and its class name and in-document flag are unchanged. A missing one stays missing. |
| `Lifecycle.ClearMarkerTwice` | packages/vidstack/src/elements/define/layouts/default/audio-layout-element.ts:57 | Removing the marker a second time changes nothing. |
| `Lifecycle.RunAll` | packages/vidstack/src/elements/define/layouts/default/audio-layout-element.ts:52-57 | Running the registered `onDispose` callbacks one after another only releases: a container or player element is present afterwards exactly when it was before, and the live effects are a subset of the earlier ones. |
| `Lifecycle.RunAllEffect` | packages/vidstack/src/elements/define/layouts/default/audio-layout-element.ts:47-57 | After running any list of teardowns, the container is removed iff a container removal is listed. The marker is cleared iff a marker removal is listed. The live effects are the earlier ones minus those the list stops. |
| `Lifecycle.RunAllOrderFree` | packages/vidstack/src/elements/define/layouts/default/audio-layout-element.ts:47-57 | Two lists with the same actions, in any order or multiplicity, leave the same resources. No dispose order needs to be assumed. |
| `Lifecycle.RunAllIdempotent` | packages/vidstack/src/elements/define/layouts/default/audio-layout-element.ts:52-57 | Running the teardowns twice gives the same result as running them once. |
| `AudioLayout.IconStrategyFor` | packages/vidstack/src/elements/define/layouts/default/audio-layout-element.ts:60-64 | The slot manager iff `customIcons` is on, the generated loader iff it is off. |
| `AudioLayout.MediaAudioLayoutElement.SyncSize` | packages/vidstack/src/elements/define/layouts/default/audio-layout-element.ts:47-50 | With a container, `data-size` is `sm` when small and absent otherwise; nothing else on the container changes. With no container, nothing changes. |
| `AudioLayout.MediaAudioLayoutElement.ReactToSize` | packages/vidstack/src/elements/define/layouts/default/audio-layout-element.ts:47-50 | While the size effect is live, a re-run brings `data-size` back in step. Once it is stopped, a re-run changes nothing. Keeps `Valid()`. |
| `AudioLayout.MediaAudioLayoutElement.SwitchIcons` | packages/vidstack/src/elements/define/layouts/default/audio-layout-element.ts:59-65 | One run connects exactly one strategy, the one the flag selects. It is appended to the log and becomes the active one. |
| `AudioLayout.MediaAudioLayoutElement.ReactToIcons` | packages/vidstack/src/elements/define/layouts/default/audio-layout-element.ts:59-65 | While connected, each re-run connects one more strategy, chosen by the current flag. After disconnect, a re-run connects nothing. Keeps `Valid()`. |
| `AudioLayout.MediaAudioLayoutElement.Setup` | packages/vidstack/src/elements/define/layouts/default/audio-layout-element.ts:38-53 | Keep-alive is off and the layout class is added. There is a new in-document container with the layout class and `data-size` in step. The size effect is live. The setup scope holds the effect's stop and the container's removal. The player, the props and the icon log are untouched. |
| `AudioLayout.MediaAudioLayoutElement.Connect` | packages/vidstack/src/elements/define/layouts/default/audio-layout-element.ts:55-66 | The player carries `data-layout="audio"`. The connect scope holds the marker's removal and the icon effect's stop. The icon effect is live and has connected the flag's strategy once. The container and setup scope are untouched. |
| `AudioLayout.MediaAudioLayoutElement.RunTeardowns` | packages/vidstack/src/elements/define/layouts/default/audio-layout-element.ts:52-57 | Running the registered callbacks one by one leaves the resources as `RunAll` says. |
| `AudioLayout.MediaAudioLayoutElement.Disconnect` | packages/vidstack/src/elements/define/layouts/default/audio-layout-element.ts:57-65 | Runs the connect scope. Afterwards the marker is absent, the icon effect is stopped, and the container and size effect are untouched. |
| `AudioLayout.MediaAudioLayoutElement.Dispose` | packages/vidstack/src/elements/define/layouts/default/audio-layout-element.ts:52-57 | Runs every open scope. The container is out of the document, no effect is live, and the marker is cleared if the element was connected. A second dispose changes nothing. |
| `AudioLayout.MediaAudioLayoutElement.Render` | packages/vidstack/src/elements/define/layouts/default/audio-layout-element.ts:68-84 | After setup, the layout shown follows the selector's table over the element's current fields. |
| `AudioLayout.MarkerLifecycle` | packages/vidstack/src/elements/define/layouts/default/audio-layout-element.ts:45-57 | Setup, connect, disconnect, connect, dispose. The marker is on the player exactly in the two connected steps. The container is in the document from setup until dispose. |
| `AudioLayout.IconToggle` | packages/vidstack/src/elements/define/layouts/default/audio-layout-element.ts:59-65 | Connecting with the flag off connects the loader. Turning the flag on and re-running connects the slot manager. Two runs, two connects, the last one active. |
| `AudioLayout.MenuSize` | packages/vidstack/src/elements/define/layouts/default/audio-layout-element.ts:47-52 | `data-size` goes absent, `sm`, absent as the size flag changes. After dispose, a size change no longer reaches the container. |

## Left out

- lit-html templating, `$computed` and the markup of `DefaultAudioLoadLayout`, `DefaultAudioLayoutSmall` and `DefaultAudioLayoutLarge`: rendering only. Each variant is a tag of `Layout`.
- The maverick.js effect scheduler (dependency tracking, batching, the order in which dispose callbacks run): each effect is an explicit re-run method. Teardowns run in registration order, and `RunAllOrderFree` shows their outcome does not depend on that order.
- Where a teardown runs, connect scope on disconnect and setup scope on destroy, comes from the framework's hooks, which are not part of this model. The file itself shows only the `onDispose` registrations.
- `SlotManager` and `DefaultLayoutIconsLoader` internals, including any disconnect of an earlier strategy: the file never calls `disconnect`. The model keeps a log of connected strategies and does not claim the previous one is disconnected first.
- `useMediaContext` is not part of this model, nor is its failure when no media context is present. The context (media store and player element) is taken as given at construction, and `Render` requires that setup has run.
- `createMenuContainer` is not part of this model. It is taken to return a new container in the document, carrying the layout class and no attributes.
- `forwardKeepAlive`, `classList` and the `Host(LitElement, DefaultAudioLayout)` base: only the values this file assigns are modelled. How `isMatch` and `isSmallLayout` are computed is not part of this model; they are inputs.
- The `load` and `streamType` value lists are declared elsewhere in the repository. The model lists vidstack's values; the selector only distinguishes `play` and `unknown`.
- Calling `onSetup` twice or `onConnect` before setup: the file has no guard and relies on the framework's call order, so `Setup` and `Connect` require the right phase.
