/** The dashboard widget component: its view state, its gesture and channel
    handlers, and the outbound calls they make, recorded in a ghost log. */
module WidgetComponent {
  import opened Values
  import opened Geometry
  import opened ZOrder
  import opened Channel
  import opened LiveOptions

  /** Where the component is in its life: built, mounted, unmounted. */
  datatype Phase = Constructed | Mounted | Unmounted

  /** The mouse events the header and the body listen for. */
  datatype Hover = MouseEnter | MouseLeave

  /** `event.type` of a mouse event. */
  function EventType(h: Hover): (t: string)
    ensures t == "mouseenter" <==> h == MouseEnter
  {
    if h == MouseEnter then "mouseenter" else "mouseleave"
  }

  /** `Object.assign({}, position, size, z, expanded)`: every key of the four
      maps, each taking its value from the last map that has it. */
  function MergeParams(position: UpdateParams, size: UpdateParams, z: UpdateParams, expanded: UpdateParams): (r: UpdateParams)
    ensures r.Keys == position.Keys + size.Keys + z.Keys + expanded.Keys
    ensures forall k :: k in expanded ==> r[k] == expanded[k]
    ensures forall k :: k in z && k !in expanded ==> r[k] == z[k]
    ensures forall k :: k in size && k !in z && k !in expanded ==> r[k] == size[k]
    ensures forall k :: k in position && k !in size && k !in z && k !in expanded ==> r[k] == position[k]
  {
    position + size + z + expanded
  }

  /** Empty argument maps contribute nothing to the merged params. */
  lemma MergeParamsEmpty(m: UpdateParams)
    ensures MergeParams(map[], m, map[], map[]) == m
    ensures MergeParams(map[], map[], map[], m) == m
  {
  }

  /** The geometry and expansion flag the component renders with. */
  datatype View = View(x: int, y: int, width: int, height: int, expanded: bool)

  /** `toggleWidgetSize` on the view: expanding fills the box the dashboard
      record gives, collapsing takes the position and size of the props. */
  function ToggledView(v: View, p: Props): (r: View)
    ensures r.expanded == !v.expanded
    ensures r.expanded ==> r == View(0, 0, p.dashboard.width, p.dashboard.height, true)
    ensures !r.expanded ==> r == View(p.x, p.y, p.width, p.height, false)
  {
    if !v.expanded then View(0, 0, p.dashboard.width, p.dashboard.height, !v.expanded)
    else View(p.x, p.y, p.width, p.height, !v.expanded)
  }

  /** Expanding and then collapsing leaves the widget where its props put it. */
  lemma ExpandThenCollapse(v: View, p: Props)
    requires !v.expanded
    ensures ToggledView(ToggledView(v, p), p) == View(p.x, p.y, p.width, p.height, false)
  {
  }

  /** Expanding and then collapsing a widget at (10, 20) of size 300 x 300
      brings it back there, when its props hold that geometry. */
  lemma ExpandThenCollapseExample(p: Props)
    requires p.x == 10 && p.y == 20 && p.width == 300 && p.height == 300
    ensures ToggledView(ToggledView(View(10, 20, 300, 300, false), p), p) == View(10, 20, 300, 300, false)
  {
  }

  class Widget {
    /** The props, as React installs them. */
    var props: Props

    // this.state
    var x: int
    var y: int
    var width: int
    var height: int
    var z: int
    var expanded: bool
    var showLoader: bool
    var draggable: bool
    var widgetData: map<string, JsValue>
    var requestOptions: RequestOptions

    /** The z-index held by the attached `Rnd` view handle (`this.rnd.state.z`). */
    var rndZ: int
    /** The endpoint the cable consumer connects to. */
    var cableUrl: string
    /** The channel subscribed to on mount, and the widget its callbacks carry. */
    var channelName: string
    var channelWidget: WidgetRecord
    var phase: Phase

    /** Every outbound call, in order. */
    ghost var log: seq<Event>

    ghost predicate Valid()
      reads this
    {
      && (phase == Constructed ==> OpenSubscriptions(log) == multiset{})
      && (phase == Mounted ==> OpenSubscriptions(log) == multiset{channelName})
      && (phase != Constructed ==> channelName == ChannelName(channelWidget.className))
      && Storable(requestOptions)
    }

    function CurrentView(): (r: View)
      reads this
    {
      View(x, y, width, height, expanded)
    }

    /** A widget on a Map shows a map that needs the mouse for panning. */
    predicate IsAMap()
      reads this
    {
      props.widget.title == "Map"
    }

    /** The loader shows, dragging is off, no data or options are held yet, and
        the geometry is the clamped one of the props. */
    constructor (p: Props)
      ensures Valid() && phase == Constructed && props == p && log == []
      ensures showLoader && !draggable && widgetData == map[] && requestOptions == map[]
      ensures Positioning(x, y, width, height, z, expanded) == GetPositioning(p)
    {
      props := p;
      showLoader, draggable := true, false;
      widgetData, requestOptions := map[], map[];
      var pos := GetPositioning(p);
      x, y, width, height, z, expanded := pos.x, pos.y, pos.width, pos.height, pos.z, pos.expanded;
      // not observed until Mount attaches the handle
      rndZ := pos.z;
      cableUrl, channelName, channelWidget := "", "", p.widget;
      phase := Constructed;
      log := [];
    }

    /** `componentDidMount`: hands the state's z to the view handle and opens
        the one subscription of this widget. The page location is a parameter. */
    method Mount(protocol: string, hostname: string, port: string)
      requires Valid() && phase == Constructed
      modifies this`rndZ, this`cableUrl, this`channelName, this`channelWidget, this`phase, this`log
      ensures Valid() && phase == Mounted
      ensures rndZ == z
      ensures cableUrl == CableUrl(protocol, hostname, port)
      ensures channelWidget == props.widget && channelName == ChannelName(props.widget.className)
      ensures log == old(log) + [Subscribe(channelName, props.widget.id)]
    {
      var name := ChannelName(props.widget.className);
      var subscribe := Subscribe(name, props.widget.id);
      SubscribeOpens(log, name, props.widget.id);
      var url := CableUrl(protocol, hostname, port);
      rndZ, cableUrl, channelWidget, channelName, log, phase := z, url, props.widget, name, log + [subscribe], Mounted;
    }

    /** The subscription's `redraw`: asks the server to recompute this widget. */
    method Redraw()
      requires Valid() && phase == Mounted
      modifies this`log
      ensures Valid()
      ensures log == old(log) + [Perform("redraw", channelWidget.id)]
    {
      OtherCallKeepsOpen(log, Perform("redraw", channelWidget.id));
      log := log + [Perform("redraw", channelWidget.id)];
    }

    /** `componentWillReceiveProps`, followed by React installing the new props. */
    method ReceiveProps(next: Props)
      requires Valid() && phase == Mounted
      modifies this`props, this`requestOptions, this`log
      ensures Valid()
      ensures props == next
      ensures var r := ReactToOptions(old(requestOptions), next.dashboard.requestOptions);
        && requestOptions == r.stored
        && log == old(log) + if r.redraw then [Perform("redraw", channelWidget.id)] else []
    {
      var newRequestOptions := next.dashboard.requestOptions;
      if Online(newRequestOptions) {
        if newRequestOptions != requestOptions {
          requestOptions := newRequestOptions;
          Redraw();
        }
      }
      props := next;
    }

    /** The channel's `received`: the loader goes away and the payload replaces
        the widget's data in full. */
    method Received(data: map<string, JsValue>)
      requires Valid() && phase == Mounted
      modifies this`showLoader, this`widgetData
      ensures Valid()
      ensures !showLoader && widgetData == data
    {
      showLoader, widgetData := false, data;
    }

    /** `updateServerPositionAndSize`: one `updateWidget` call with the merged params. */
    method UpdateServerPositionAndSize(position: UpdateParams, size: UpdateParams, zp: UpdateParams, expandedp: UpdateParams)
      requires Valid()
      modifies this`log
      ensures Valid()
      ensures log == old(log) + [UpdateWidget(props.dashboard.id, props.widget.id, MergeParams(position, size, zp, expandedp))]
    {
      var params := MergeParams(position, size, zp, expandedp);
      OtherCallKeepsOpen(log, UpdateWidget(props.dashboard.id, props.widget.id, params));
      log := log + [UpdateWidget(props.dashboard.id, props.widget.id, params)];
    }

    /** `updateZIndex` on drag start: the view handle gets a z above every
        other widget of the dashboard. */
    method UpdateZIndex()
      requires Valid() && phase == Mounted
      modifies this`rndZ
      ensures Valid()
      ensures rndZ == NextZ(props.widget.z, props.widget.id, props.dashboard.widgets)
      ensures props.widget.z <= rndZ
      ensures AboveOthers(rndZ, props.widget.id, props.dashboard.widgets)
    {
      var maxZ := ComputeZIndex(props.widget.z, props.widget.id, props.dashboard.widgets);
      rndZ := maxZ;
    }

    /** `saveSize` on resize stop: nothing while expanded, otherwise the
        measured size strings. */
    method SaveSize(styleWidth: string, styleHeight: string)
      requires Valid()
      modifies this`log
      ensures Valid()
      ensures old(expanded) ==> log == old(log)
      ensures !old(expanded) ==>
        log == old(log) + [UpdateWidget(props.dashboard.id, props.widget.id,
                                        map["size_x" := PText(styleWidth), "size_y" := PText(styleHeight)])]
    {
      if expanded {
        return;
      }
      var size := map["size_x" := PText(styleWidth), "size_y" := PText(styleHeight)];
      MergeParamsEmpty(size);
      UpdateServerPositionAndSize(map[], size, map[], map[]);
    }

    /** `savePosition` on drag stop: nothing while expanded, otherwise the
        dropped position and the z held by the view handle. */
    method SavePosition(dataX: int, dataY: int)
      requires Valid() && phase == Mounted
      modifies this`log
      ensures Valid()
      ensures old(expanded) ==> log == old(log)
      ensures !old(expanded) ==>
        log == old(log) + [UpdateWidget(props.dashboard.id, props.widget.id,
                                        map["pos_x" := PNum(dataX), "pos_y" := PNum(dataY), "z_index" := PNum(rndZ)])]
    {
      if expanded {
        return;
      }
      var position := map["pos_x" := PNum(dataX), "pos_y" := PNum(dataY)];
      var zp := map["z_index" := PNum(rndZ)];
      assert MergeParams(position, map[], zp, map[]) ==
        map["pos_x" := PNum(dataX), "pos_y" := PNum(dataY), "z_index" := PNum(rndZ)];
      UpdateServerPositionAndSize(position, map[], zp, map[]);
    }

    /** `toggleWidgetSize`: flips the expansion, sets the geometry and sends
        only the new flag. */
    method ToggleWidgetSize()
      requires Valid()
      modifies this`x, this`y, this`width, this`height, this`expanded, this`log
      ensures Valid()
      ensures CurrentView() == ToggledView(old(CurrentView()), props)
      ensures log == old(log) + [UpdateWidget(props.dashboard.id, props.widget.id, map["expanded" := PBool(expanded)])]
    {
      var dashWidth, dashHeight := props.dashboard.width, props.dashboard.height;
      var wasExpanded := expanded;
      var newX, newY, newWidth, newHeight;
      if !wasExpanded {
        newX, newY, newWidth, newHeight := 0, 0, dashWidth, dashHeight;
      } else {
        newX, newY, newWidth, newHeight := props.x, props.y, props.width, props.height;
      }
      x, y, width, height, expanded := newX, newY, newWidth, newHeight, !wasExpanded;
      var flag := map["expanded" := PBool(!wasExpanded)];
      MergeParamsEmpty(flag);
      UpdateServerPositionAndSize(map[], map[], map[], flag);
    }

    /** `toggleDragging`: dragging is enabled by entering and disabled by anything else. */
    method ToggleDragging(eventType: string)
      requires Valid()
      modifies this`draggable
      ensures Valid()
      ensures draggable <==> eventType == "mouseenter"
    {
      draggable := eventType == "mouseenter";
    }

    /** The header's enter and leave handlers. */
    method HeaderHover(h: Hover)
      requires Valid()
      modifies this`draggable
      ensures Valid()
      ensures draggable <==> h == MouseEnter
    {
      ToggleDragging(EventType(h));
    }

    /** The body's handlers: a Map widget's body has no enter handler, so on a
        map the body can only turn dragging off. */
    method BodyHover(h: Hover)
      requires Valid()
      modifies this`draggable
      ensures Valid()
      ensures IsAMap() && h == MouseEnter ==> draggable == old(draggable)
      ensures !(IsAMap() && h == MouseEnter) ==> (draggable <==> h == MouseEnter)
      ensures IsAMap() && draggable ==> old(draggable)
    {
      if h == MouseEnter && IsAMap() {
        return;
      }
      ToggleDragging(EventType(h));
    }

    /** `removeWidget`: a deletion request only after the user confirmed. */
    method RemoveWidget(confirmed: bool)
      requires Valid()
      modifies this`log
      ensures Valid()
      ensures log == old(log) + if confirmed then [DeleteWidget(props.dashboard.id, props.widget.id)] else []
    {
      if confirmed {
        OtherCallKeepsOpen(log, DeleteWidget(props.dashboard.id, props.widget.id));
        log := log + [DeleteWidget(props.dashboard.id, props.widget.id)];
      }
    }

    /** `componentWillUnmount`: removes the channel named after the current
        props' class name. A removal is modelled as closing a subscription by
        channel name alone, so with the class name unchanged no subscription
        is left. */
    method Unmount()
      requires Valid() && phase == Mounted
      modifies this`phase, this`log
      ensures Valid() && phase == Unmounted
      ensures log == old(log) + [Unsubscribe(ChannelName(props.widget.className))]
      ensures OpenSubscriptions(log) == old(OpenSubscriptions(log)) - multiset{ChannelName(props.widget.className)}
      ensures props.widget.className == channelWidget.className ==> OpenSubscriptions(log) == multiset{}
      ensures props.widget.className != channelWidget.className ==> OpenSubscriptions(log) == multiset{channelName}
    {
      var name := ChannelName(props.widget.className);
      ChannelNameInjective(props.widget.className, channelWidget.className);
      UnsubscribeCloses(log, name);
      log := log + [Unsubscribe(name)];
      phase := Unmounted;
    }
  }
}
