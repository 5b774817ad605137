/** The chart container and tooltip helpers: the CSS colour variables a
    chart config produces, the context lookup, and the tooltip's rows. */
module Chart {
  import opened Wrappers

  datatype ConfigEntry = ConfigEntry(seriesLabel: string, color: string, strokeDasharray: Option<string>)

  /** A chart config maps each series key to its entry. */
  type ChartConfig = map<string, ConfigEntry>

  datatype ChartContextValue = ChartContextValue(config: ChartConfig, id: string)

  const ContextError := "useChartContext must be used within a ChartContainer"
  const DefaultColor := "hsl(var(--primary))"

  /** `useChartContext`: the provided value, or the error it throws outside
      a container. */
  function UseChartContext(context: Option<ChartContextValue>): (r: Result<ChartContextValue, string>)
    ensures r.Success? <==> context.Some?
    ensures r.Success? ==> r.value == context.value
    ensures r.Failure? ==> r.error == ContextError
  {
    match context
    case None => Failure(ContextError)
    case Some(value) => Success(value)
  }

  /** The CSS variable that carries a series' colour. */
  function ColorVar(key: string): string
  {
    "--color-" + key
  }

  lemma ColorVarInjective(a: string, b: string)
    requires ColorVar(a) == ColorVar(b)
    ensures a == b
  {
    assert a == ColorVar(a)[8..] == ColorVar(b)[8..] == b;
  }

  /** The container's style: one variable per config key, holding that
      key's colour, and nothing else. Entries are visited one at a time and
      written into the accumulated map. */
  method ContainerStyle(config: ChartConfig) returns (style: map<string, string>)
    ensures style.Keys == set k | k in config :: ColorVar(k)
    ensures forall k | k in config :: style[ColorVar(k)] == config[k].color
  {
    style := map[];
    var remaining := config.Keys;
    while remaining != {}
      invariant remaining <= config.Keys
      invariant style.Keys == set k | k in config && k !in remaining :: ColorVar(k)
      invariant forall k | k in config && k !in remaining :: style[ColorVar(k)] == config[k].color
      decreases remaining
    {
      var key :| key in remaining;
      forall k | k in config && k !in remaining
        ensures ColorVar(k) != ColorVar(key)
      {
        if ColorVar(k) == ColorVar(key) {
          ColorVarInjective(k, key);
        }
      }
      style := style[ColorVar(key) := config[key].color];
      remaining := remaining - {key};
    }
  }

  /** One variable per key: the style has as many entries as the config,
      so an empty config gives an empty style. */
  lemma StyleSize(config: ChartConfig, style: map<string, string>)
    requires style.Keys == set k | k in config :: ColorVar(k)
    ensures |style| == |config|
    ensures config == map[] ==> style == map[]
  {
    SizeOfImage(config.Keys);
  }

  lemma {:induction false} SizeOfImage(keys: set<string>)
    ensures |set k | k in keys :: ColorVar(k)| == |keys|
    decreases |keys|
  {
    if keys != {} {
      var x :| x in keys;
      var rest := keys - {x};
      SizeOfImage(rest);
      var image := set k | k in keys :: ColorVar(k);
      var restImage := set k | k in rest :: ColorVar(k);
      assert image == restImage + {ColorVar(x)};
      if ColorVar(x) in restImage {
        var y :| y in rest && ColorVar(y) == ColorVar(x);
        ColorVarInjective(x, y);
      }
    }
  }

  /** A tooltip payload value: a number or a text. */
  datatype Value = Num(n: real) | Text(s: string)

  datatype PayloadItem = PayloadItem(name: string, value: Value, color: Option<string>)

  /** A formatter returns the value text and the name text. */
  type Formatter = (Value, string) -> (string, string)

  datatype TooltipRow = TooltipRow(color: string, name: string, value: string)

  /** The dot colour: the config entry's colour, else the item's own, else
      the theme's primary colour; an empty string counts as missing. */
  function ItemColor(config: ChartConfig, item: PayloadItem): (color: string)
    ensures color != ""
    ensures item.name in config && config[item.name].color != "" ==> color == config[item.name].color
    ensures (item.name !in config || config[item.name].color == "") && item.color.Some? && item.color.value != ""
      ==> color == item.color.value
    ensures (item.name !in config || config[item.name].color == "") && (item.color.None? || item.color.value == "")
      ==> color == DefaultColor
  {
    if item.name in config && config[item.name].color != "" then config[item.name].color
    else if item.color.Some? && item.color.value != "" then item.color.value
    else DefaultColor
  }

  /** The name shown: the formatter's second text if there is a formatter,
      else the config label, else the item's own name. */
  function ItemName(config: ChartConfig, item: PayloadItem, formatter: Option<Formatter>): (name: string)
    ensures formatter.Some? ==> name == formatter.value(item.value, item.name).1
    ensures formatter.None? && item.name in config && config[item.name].seriesLabel != "" ==> name == config[item.name].seriesLabel
    ensures formatter.None? && (item.name !in config || config[item.name].seriesLabel == "") ==> name == item.name
  {
    match formatter
    case Some(f) => f(item.value, item.name).1
    case None =>
      if item.name in config && config[item.name].seriesLabel != "" then config[item.name].seriesLabel else item.name
  }

  /** The value shown: the formatter's first text if there is a formatter,
      else a number in the locale's notation, else the text itself. */
  function ItemValue(item: PayloadItem, formatter: Option<Formatter>, localeString: real -> string): (text: string)
    ensures formatter.Some? ==> text == formatter.value(item.value, item.name).0
    ensures formatter.None? && item.value.Num? ==> text == localeString(item.value.n)
    ensures formatter.None? && item.value.Text? ==> text == item.value.s
  {
    match formatter
    case Some(f) => f(item.value, item.name).0
    case None =>
      match item.value
      case Num(n) => localeString(n)
      case Text(s) => s
  }

  /** `ChartTooltipContent`: fails outside a container (even when inactive),
      renders nothing when inactive or without payload, and otherwise one row
      per payload item, in order. */
  function TooltipContent(context: Option<ChartContextValue>, active: bool, payload: Option<seq<PayloadItem>>,
                          formatter: Option<Formatter>, localeString: real -> string): (r: Result<Option<seq<TooltipRow>>, string>)
    ensures r.Failure? <==> context.None?
    ensures r.Failure? ==> r.error == ContextError
    ensures r.Success? ==> (r.value.None? <==> !active || payload.None? || payload.value == [])
    ensures r.Success? && r.value.Some? ==>
      |r.value.value| == |payload.value| &&
      forall i :: 0 <= i < |payload.value| ==>
        r.value.value[i].color == ItemColor(context.value.config, payload.value[i]) &&
        r.value.value[i].name == ItemName(context.value.config, payload.value[i], formatter) &&
        r.value.value[i].value == ItemValue(payload.value[i], formatter, localeString) &&
        r.value.value[i].color != ""
  {
    match UseChartContext(context)
    case Failure(e) => Failure(e)
    case Success(ctx) =>
      if !active || payload.None? || payload.value == [] then Success(None)
      else
        var items := payload.value;
        Success(Some(seq(|items|, i requires 0 <= i < |items| =>
          TooltipRow(ItemColor(ctx.config, items[i]), ItemName(ctx.config, items[i], formatter),
                     ItemValue(items[i], formatter, localeString)))))
  }
}
