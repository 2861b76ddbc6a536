/** The values the dashboard widget component reads from its surroundings
    (the widget and dashboard records in its props, the dashboard's query
    options) and the outbound calls it makes (the `updateWidget` and
    `deleteWidget` actions and the live-channel operations). */
module Values {

  /** A JavaScript value, as far as the component inspects one. Numbers are
      integers here: floating point is not modelled. */
  datatype JsValue = JUndefined | JNull | JBool(b: bool) | JNum(n: int) | JStr(s: string)

  /** JavaScript truthiness of a value. */
  predicate Truthy(v: JsValue) {
    match v
    case JUndefined => false
    case JNull => false
    case JBool(b) => b
    case JNum(n) => n != 0
    case JStr(s) => s != ""
  }

  /** The dashboard-level query parameters (`requestOptions`). Structural
      equality of two such maps stands for `_.isEqual`. */
  type RequestOptions = map<string, JsValue>

  /** `getIn(['requestOptions', key])`: a missing key reads as `undefined`. */
  function Lookup(o: RequestOptions, key: string): (v: JsValue) {
    if key in o then o[key] else JUndefined
  }

  /** The dashboard reports itself online when its `online` option is truthy. */
  predicate Online(o: RequestOptions) {
    Truthy(Lookup(o, "online"))
  }

  /** Only the `online` option decides: a dashboard without it is offline,
      and setting any other option leaves the answer as it was. */
  lemma OnlineByFlagAlone(o: RequestOptions, key: string, v: JsValue)
    ensures "online" !in o ==> !Online(o)
    ensures key != "online" ==> (Online(o[key := v]) <==> Online(o))
    ensures Online(o["online" := v]) <==> Truthy(v)
  {
  }

  /** One widget record as stored on the dashboard (`widget.get(...)`). */
  datatype WidgetRecord = WidgetRecord(id: int, z: int, className: string, title: string)

  /** The dashboard record: its box, its widgets in iteration order, its options. */
  datatype Dashboard = Dashboard(
    id: int,
    width: int,
    height: int,
    widgets: seq<WidgetRecord>,
    requestOptions: RequestOptions)

  /** The props the component is rendered with. */
  datatype Props = Props(
    widget: WidgetRecord,
    dashboard: Dashboard,
    x: int,
    y: int,
    width: int,
    height: int,
    z: int,
    expanded: bool,
    offsetWidth: int,
    offsetHeight: int)

  /** One field of an `updateWidget` payload: positions and z are numbers, the
      measured sizes are opaque pixel strings, `expanded` is a flag. */
  datatype Param = PNum(n: int) | PText(s: string) | PBool(b: bool)

  type UpdateParams = map<string, Param>

  /** An outbound call made by the component. */
  datatype Event =
    | UpdateWidget(dashboardId: int, widgetId: int, params: UpdateParams)
    | DeleteWidget(dashboardId: int, widgetId: int)
    | Perform(action: string, widgetId: int)
    | Subscribe(channel: string, widgetId: int)
    | Unsubscribe(channel: string)
}
