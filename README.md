# Dashboard widget component, modelled in Dafny

This project models the dashboard widget component of the Code-demo
repository (`Widget.jsx`). A widget is a movable, resizable panel on a
dashboard canvas. It keeps its content live through a push channel named
after its class. Three pieces are modelled.

- **Geometry** (module `Geometry`). `fixDimension` clamps one axis to the
  dashboard box. `getPositioning` applies that clamp to both axes, or gives
  an expanded widget the whole box.
- **Stacking order** (module `ZOrder`). `updateZIndex` scans the
  dashboard's widgets and raises the moved widget above every other one.
  It is a `while` loop proved against a recursive specification function.
- **The component itself** (module `WidgetComponent`). The class `Widget`
  has the component's state fields: `x`, `y`, `width`, `height`, `z`,
  `expanded`, `showLoader`, `draggable`, `widgetData` and `requestOptions`.
  It also holds its props, the z held by the attached `Rnd` view handle, the
  channel it subscribed to, and its lifecycle phase. Each handler is a
  method. Every outbound call goes into an append-only ghost log:
  `updateWidget`, `deleteWidget`, `perform('redraw')`, and subscription
  create and remove. Module `Channel` builds the channel name and the cable
  URL, and counts the subscriptions a log leaves open. Module `LiveOptions`
  holds the redraw decision of `componentWillReceiveProps`, together with
  lemmas about any sequence of option updates.

The model follows the code as written, including where it differs from
the component's evident design:

- In `getPositioning` the props `offsetWidth` and `offsetHeight` are bound
  to the names `dashHeight` and `dashWidth`. So x and width are clamped
  against `offsetHeight`, and y and height against `offsetWidth`.
- Collapsing restores the geometry from the props `x, y, width, height`.
  It does not restore a saved copy of the geometry from before expanding.
- Expanding uses the dashboard record's `width` and `height`. The expanded
  branch of `getPositioning` uses the offset sizes.
- A drag never changes the state field `z`. `updateZIndex` gives the new z
  to the view handle only. `savePosition` sends the handle's z
  (`this.rnd.state.z`), modelled as the field `rndZ`.
- `fixDimension` works for every integer. `Math.floor(d / 2)` is exactly
  Dafny's `d / 2`, because with a positive divisor Euclidean division
  rounds down for both signs. The bounds are proved for non-negative inputs.
- React installs the new props after `componentWillReceiveProps` returns.
  `ReceiveProps` does both, so later handlers see the new props.
- The `redraw` callback sends the widget captured when the channel was
  subscribed (`channelWidget`). `componentWillUnmount` uses the current
  props' class name.

## Model

| member | source | states |
|---|---|---|
| Geometry.FixDimension | Widget.jsx:182-193 | never past the far edge; a fitting widget is unchanged; an overflowing one ends exactly at the edge, keeping its size unless that exceeds half the dashboard, then exactly half; with non-negative inputs the position is non-negative and the size grows neither beyond the request nor beyond the dashboard |
| Geometry.FixDimensionIdempotent | Widget.jsx:182-193 | clamping a clamped dimension changes nothing |
| Geometry.FixDimensionExamples | Widget.jsx:185-192 | (400, 300, 200) gives size 200 at 200; (400, 100, 250) gives size 100 at 250 |
| Geometry.GetPositioning | Widget.jsx:159-180 | z and expanded pass through; expanded gives (0, 0, offsetHeight, offsetWidth); otherwise x/width are clamped against offsetHeight and y/height against offsetWidth, independently |
| Geometry.GetPositioningInBounds | Widget.jsx:161-173 | a collapsed widget with non-negative geometry lies inside the offsetHeight x offsetWidth box and is no larger than requested |
| Geometry.GetPositioningIdempotent | Widget.jsx:164-179 | feeding the computed geometry back in as props yields the same geometry |
| ZOrder.Raise | Widget.jsx:109-111 | one scan step never lowers the running maximum, leaves it above a widget with another id, and moves it only to just above that widget |
| ZOrder.NextZ | Widget.jsx:106-112 | the scan's result is at least the moved widget's z |
| ZOrder.NextZAbove | Widget.jsx:106-112 | the new z is at least the moved widget's z and strictly above the z of every widget with another id |
| ZOrder.NextZAttained | Widget.jsx:106-112 | the new z is the moved widget's z or one more than some other widget's z |
| ZOrder.NextZLeast | Widget.jsx:106-112 | no value that is at least the moved widget's z and strictly above every other widget lies below the new z, so the new z is the least such value |
| ZOrder.NextZOnTop | Widget.jsx:106-112 | a widget already strictly above all others keeps its z |
| ZOrder.NextZExample | Widget.jsx:106-113 | moving the z=5 widget among siblings with z 7, 7, 10 gives 11 |
| ZOrder.ComputeZIndex | Widget.jsx:106-112 | the loop returns the specification's z: at least the old z, above every other widget, attained |
| Channel.ChannelNameInjective | Widget.jsx:54-64 | the channel names built by ChannelName (the class name followed by `Channel`) are equal iff the class names are |
| Channel.CableUrlParts | Widget.jsx:59-60 | the URL that CableUrl builds starts with `wss://` iff the protocol is `https:` (else `ws://`, the choice Scheme makes), carries `hostname:port`, and ends with `/cable` |
| Channel.SubscribeOpens | Widget.jsx:63-66 | subscribing with nothing open leaves exactly that channel open |
| Channel.UnsubscribeCloses | Widget.jsx:54 | a removal takes one copy of its channel away, matching by channel name alone (see the Unmount lines under Left out) |
| Channel.OtherCallKeepsOpen | Widget.jsx:152 | calls other than subscribe and remove leave the open subscriptions unchanged |
| Values.OnlineByFlagAlone | Widget.jsx:43 | Online is decided by the `online` option alone: without it the dashboard is offline, other options make no difference, and with it the answer is that value's truthiness |
| LiveOptions.ReactToOptions | Widget.jsx:42-50 | a redraw iff online and the new options differ from the stored ones; online options are stored afterwards; offline ones are neither stored nor redrawn for; only online options are ever stored |
| LiveOptions.SameOptionsTwice | Widget.jsx:42-50 | delivering the same options twice redraws at most once |
| LiveOptions.RedrawsAtMostChangesFrom | Widget.jsx:42-50 | over any sequence of updates, redraws are at most the changes from one update to the next, starting from a last update that is stored or was offline |
| LiveOptions.RedrawsAtMostChanges | Widget.jsx:42-50 | over any sequence of updates, at most one redraw per actual change of the options |
| LiveOptions.OfflineNoRedraw | Widget.jsx:43 | a sequence of offline updates neither redraws nor stores anything |
| LiveOptions.DeliverKeepsLastOnline | Widget.jsx:43-46 | after a sequence of updates the stored options are the last online ones |
| WidgetComponent.EventType | Widget.jsx:197 | the event type is `mouseenter` exactly for an enter event |
| WidgetComponent.MergeParams | Widget.jsx:151 | the params have every key of the four argument maps, each valued from the last map holding it |
| WidgetComponent.MergeParamsEmpty | Widget.jsx:120-144 | empty argument maps contribute nothing to the params |
| WidgetComponent.ToggledView | Widget.jsx:134-143 | the flag flips; expanding gives (0, 0, dashboard width, dashboard height); collapsing gives the props' (x, y, width, height) |
| WidgetComponent.ExpandThenCollapse | Widget.jsx:134-143 | expand followed by collapse gives the props geometry, collapsed |
| WidgetComponent.ExpandThenCollapseExample | Widget.jsx:134-143 | a widget at (10, 20) of size 300 x 300 comes back there |
| WidgetComponent.Widget.constructor | Widget.jsx:24-35 | loader shown, dragging off, empty data and options, geometry from getPositioning, nothing sent |
| WidgetComponent.Widget.Mount | Widget.jsx:37-66 | the handle gets the state's z; the cable URL is built from the location; exactly one subscription, to the class's channel, is open |
| WidgetComponent.Widget.Redraw | Widget.jsx:73-76 | one `perform('redraw')` for the subscribed widget |
| WidgetComponent.Widget.ReceiveProps | Widget.jsx:42-50 | stored options and the redraw sent follow ReactToOptions; the new props are installed |
| WidgetComponent.Widget.Received | Widget.jsx:80-83 | the loader is off and the payload replaces the data |
| WidgetComponent.Widget.UpdateServerPositionAndSize | Widget.jsx:147-153 | exactly one `updateWidget` with the merged params |
| WidgetComponent.Widget.UpdateZIndex | Widget.jsx:101-114 | the handle's z becomes the scan's result, above every other widget |
| WidgetComponent.Widget.SaveSize | Widget.jsx:116-121 | nothing while expanded; otherwise one `updateWidget` with exactly `size_x`, `size_y` |
| WidgetComponent.Widget.SavePosition | Widget.jsx:123-128 | nothing while expanded; otherwise one `updateWidget` with exactly `pos_x`, `pos_y` and the handle's `z_index` |
| WidgetComponent.Widget.ToggleWidgetSize | Widget.jsx:130-145 | the geometry follows ToggledView; one `updateWidget` carrying only the new `expanded` |
| WidgetComponent.Widget.ToggleDragging | Widget.jsx:195-201 | dragging is on iff the event is `mouseenter` |
| WidgetComponent.Widget.HeaderHover | Widget.jsx:238-242 | entering the header turns dragging on, leaving turns it off |
| WidgetComponent.Widget.BodyHover | Widget.jsx:247-251 | as the header, except that on a Map widget (IsAMap: title `Map`, line 203) entering the body does nothing, so there the body can only turn dragging off |
| WidgetComponent.Widget.RemoveWidget | Widget.jsx:87-97 | a `deleteWidget` iff the user confirmed |
| WidgetComponent.Widget.Unmount | Widget.jsx:52-55 | removes the channel of the current class name; with the class name unchanged, no subscription is left |

## Left out

- `user_registration_service.rb` is not part of this model. It is a thin wrapper over a persistence layer, translations, tokens and a mailer, whose code is not part of the component modelled here.
- Rendering and the JSX markup (lines 205-258), and the `MapWidgetData` and `ChartWidgetData` children. Only the hover handlers' wiring is modelled, in HeaderHover and BodyHover.
- The `Rnd` handle's `updateSize` and `updatePosition` calls (lines 176-177). The constructor's `getPositioning` call skips them because the handle is not attached yet. `setZindex` is modelled only as the field `rndZ`.
- The cable transport: creating the consumer (only its URL is kept), the `connected`, `disconnected` and `rejected` callbacks (they only log), and asynchronous delivery. Each pushed message and each props update is one sequential method call.
- The page location is passed as plain strings, and `confirm()` as a boolean.
- `console.log` and `event.preventDefault()`.
- `_.isEqual` is structural equality on an options map. Immutable's `get` and `getIn` are field access and map lookup. JavaScript truthiness is modelled for the `online` option.
- Floating point. Geometry is integers. The measured size strings are opaque text.
- Mount runs once, on a constructed widget that has not been mounted yet. ReceiveProps, Received, Redraw, SavePosition, UpdateZIndex and Unmount require a mounted component, because they use the channel or the attached handle. React and the subscription call them only on a mounted component. A `received` after unmount is not modelled; it could happen if the subscription stays open (see the Unmount lines).
- Unmount: proves that no subscription is left only when the class name is the same as at mount. The code removes the channel named by the current props.
- Unmount: `subscriptions.remove` (line 54) is modelled as closing one subscription whose channel name matches. The code passes a fresh `{ channel }` object, not the subscription object that `subscriptions.create` returned at line 63, and not the `widget` it was created with. The cable library's own matching rule is not part of this model; if it removes only the very object `create` returned, the subscription stays open after unmount, and the "no subscription left" promise does not hold for the real call.
