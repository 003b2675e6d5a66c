/** The markets widget: its configuration, the two price fetches, the index build and
    render, and the refresh entry point the host calls (markets/widget.go:16-141).
    The network is a parameter `net` giving what one GET of a URL produced, and the
    float formatting of prices is a parameter `formatPrice`. */
module Markets {
  import opened Quotes
  import opened PriceIndex
  import opened Template

  const GoldUrl: string := "https://www.doviz.com/api/v1/golds/all/latest"
  const CurrencyUrl: string := "https://www.doviz.com/api/v1/currencies/all/latest"

  const NameColorOption: string := "wtf.mods.markets.colors.name"
  const ValueColorOption: string := "wtf.mods.markets.colors.value"
  const DefaultNameColor: string := "red"
  const DefaultValueColor: string := "white"

  /** What one GET produced: the request could not be built, the round trip failed,
      the body did not decode as a list of quotes, or the decoded list. Each failure
      carries the text of its error. */
  datatype FetchOutcome =
    | BadRequest(message: string)
    | TransportFailed(message: string)
    | Undecodable(message: string)
    | Decoded(quotes: seq<Quote>)

  datatype Result<T> = Ok(value: T) | Err(message: string)

  /** What fetching returns for an outcome: the list, or the error with its text. */
  function FetchResult(outcome: FetchOutcome): Result<seq<Quote>>
  {
    match outcome
    case BadRequest(message) => Err(message)
    case TransportFailed(message) => Err(message)
    case Undecodable(message) => Err(message)
    case Decoded(quotes) => Ok(quotes)
  }

  /** A string option from the configuration store, or the given default. */
  function UString(config: map<string, string>, path: string, default: string): string
  {
    if path in config then config[path] else default
  }

  /** The colours a widget reads from the configuration store at construction. */
  function ConfigColors(config: map<string, string>): Colors
  {
    Colors(UString(config, NameColorOption, DefaultNameColor),
           UString(config, ValueColorOption, DefaultValueColor))
  }

  /** The URLs one aggregation requests: the currency endpoint only once the gold
      fetch has succeeded. */
  function Requests(gold: FetchOutcome): seq<string>
  {
    if FetchResult(gold).Err? then [GoldUrl] else [GoldUrl, CurrencyUrl]
  }

  /** The text one refresh cycle publishes, given what the two endpoints produced:
      the first failure's message, or the four rendered lines. When no quote name
      collides with a colour key, each line is in the configured colours and shows
      the price of the last quote (gold list first, then currency list) carrying its
      key, or the missing-key placeholder. */
  function CycleText(colors: Colors, gold: FetchOutcome, currency: FetchOutcome,
                     formatPrice: real -> string): (text: string)
    ensures !gold.Decoded? ==> text == gold.message
    ensures gold.Decoded? && !currency.Decoded? ==> text == currency.message
    ensures gold.Decoded? && currency.Decoded?
         && NameColorKey !in NormalisedNames(gold.quotes + currency.quotes)
         && ValueColorKey !in NormalisedNames(gold.quotes + currency.quotes)
        ==> text == FourLines(colors, gold.quotes + currency.quotes, formatPrice)
  {
    match FetchResult(gold)
    case Err(message) => message
    case Ok(goldList) =>
      match FetchResult(currency)
      case Err(message) => message
      case Ok(currencyList) =>
        var quotes := goldList + currencyList;
        RenderFourLines(colors, quotes, formatPrice);
        Execute(ResultTemplate(), Index(colors, quotes, formatPrice))
  }

  /** What the widget shows for an instrument key: the price of the last quote that
      carries it, or the missing-key placeholder. */
  function Shown(quotes: seq<Quote>, key: string, formatPrice: real -> string): string
  {
    var j := LastCarrying(quotes, key);
    if j < 0 then NoValue else Price(quotes[j], formatPrice)
  }

  /** A line of the widget's output with the colours written out. */
  function Line(colors: Colors, caption: string, shown: string): string
  {
    " [" + colors.name + "]" + caption + ": [" + colors.value + "]" + shown + "\n"
  }

  /** The four lines in the fixed order gram gold, USD, EUR, GBP, each in the given
      colours and showing what the quote list gives for the line's key. */
  function FourLines(colors: Colors, quotes: seq<Quote>, formatPrice: real -> string): string
  {
    Line(colors, GoldLabel, Shown(quotes, GoldKey, formatPrice))
      + Line(colors, UsdLabel, Shown(quotes, UsdKey, formatPrice))
      + Line(colors, EurLabel, Shown(quotes, EurKey, formatPrice))
      + Line(colors, GbpLabel, Shown(quotes, GbpKey, formatPrice))
  }

  /** Without configured options the colours are red and white; configuring both
      options replaces both defaults. */
  lemma ConfigDefaults(nameColor: string, valueColor: string)
    ensures ConfigColors(map[]) == Colors("red", "white")
    ensures ConfigColors(map[NameColorOption := nameColor, ValueColorOption := valueColor])
         == Colors(nameColor, valueColor)
  {
    assert NameColorOption[24] != ValueColorOption[24];
  }

  /** A failed gold fetch ends the cycle: the text is that error's message, whatever
      the currency endpoint would have produced, and it is the only request. */
  lemma GoldFailureShortCircuits(colors: Colors, gold: FetchOutcome, currency: FetchOutcome,
                                 formatPrice: real -> string)
    requires !gold.Decoded?
    ensures CycleText(colors, gold, currency, formatPrice) == gold.message
    ensures Requests(gold) == [GoldUrl]
  {
  }

  /** A failed currency fetch discards the gold list: the text is the currency
      error's message, whatever the gold list held. */
  lemma CurrencyFailureDiscardsGold(colors: Colors, gold: FetchOutcome, currency: FetchOutcome,
                                    formatPrice: real -> string)
    requires gold.Decoded? && !currency.Decoded?
    ensures CycleText(colors, gold, currency, formatPrice) == currency.message
    ensures Requests(gold) == [GoldUrl, CurrencyUrl]
  {
  }

  /** Rendering the index of a quote list gives the four lines in the fixed order,
      in the configured colours, each showing the price of the last quote carrying
      its key or the placeholder. A quote whose name normalises to a colour key is
      excluded here: its price then takes the colour's place (NameColorCollision). */
  lemma {:induction false} RenderFourLines(colors: Colors, quotes: seq<Quote>, formatPrice: real -> string)
    ensures NameColorKey !in NormalisedNames(quotes) && ValueColorKey !in NormalisedNames(quotes)
        ==> Execute(ResultTemplate(), Index(colors, quotes, formatPrice)) == FourLines(colors, quotes, formatPrice)
  {
    if NameColorKey !in NormalisedNames(quotes) && ValueColorKey !in NormalisedNames(quotes) {
      var ctx := Index(colors, quotes, formatPrice);
      RenderLines(ctx);
      ShownLine(colors, quotes, formatPrice, GoldLabel, GoldKey);
      ShownLine(colors, quotes, formatPrice, UsdLabel, UsdKey);
      ShownLine(colors, quotes, formatPrice, EurLabel, EurKey);
      ShownLine(colors, quotes, formatPrice, GbpLabel, GbpKey);
    }
  }

  /** When a quote's name normalises to `nameColor`, every line's name colour is
      the price of the last such quote instead of the configured colour. */
  lemma NameColorCollision(colors: Colors, quotes: seq<Quote>, formatPrice: real -> string)
    requires LastCarrying(quotes, NameColorKey) >= 0
    ensures Lookup(Index(colors, quotes, formatPrice), "nameColor")
         == Price(quotes[LastCarrying(quotes, NameColorKey)], formatPrice)
  {
    IndexLastWriteWins(colors, quotes, formatPrice, LastCarrying(quotes, NameColorKey));
  }

  /** One rendered line over the built index, with colours and price resolved. */
  lemma ShownLine(colors: Colors, quotes: seq<Quote>, formatPrice: real -> string, caption: string, key: string)
    requires key != NameColorKey && key != ValueColorKey
    requires NameColorKey !in NormalisedNames(quotes) && ValueColorKey !in NormalisedNames(quotes)
    ensures RenderedLine(Index(colors, quotes, formatPrice), caption, key)
         == Line(colors, caption, Shown(quotes, key, formatPrice))
  {
    var ctx := Index(colors, quotes, formatPrice);
    IndexColors(colors, quotes, formatPrice);
    IndexAt(colors, quotes, formatPrice, key);
    assert Lookup(ctx, "nameColor") == colors.name;
    assert Lookup(ctx, "valueColor") == colors.value;
    assert Lookup(ctx, key) == Shown(quotes, key, formatPrice);
  }

  /** On duplicate names across the two lists the currency list, fetched second,
      supplies the price that is shown. */
  lemma CurrencyWinsOnDuplicates(goldList: seq<Quote>, currencyList: seq<Quote>,
                                 formatPrice: real -> string, key: string)
    requires key in NormalisedNames(currencyList)
    ensures Shown(goldList + currencyList, key, formatPrice) == Shown(currencyList, key, formatPrice)
  {
    var quotes := goldList + currencyList;
    var j := LastCarrying(currencyList, key);
    var i := LastCarrying(quotes, key);
    assert quotes[|goldList| + j] == currencyList[j];
    assert forall l :: |goldList| <= l < |quotes| ==> quotes[l] == currencyList[l - |goldList|];
  }

  /** The widget: the host text view it writes to, its configured colours, and the
      last result computed. */
  class Widget {
    /** Whether the host has disabled the widget. */
    const disabled: bool
    var colors: Colors
    var result: string
    /** The text the host's view shows. */
    var viewText: string
    /** The URLs requested so far, in order. */
    ghost var requests: seq<string>

    constructor (config: map<string, string>, disabled: bool)
      ensures this.disabled == disabled
      ensures colors == ConfigColors(config)
      ensures result == [] && viewText == [] && requests == []
    {
      this.disabled := disabled;
      colors := Colors([], []);
      result, viewText := [], [];
      requests := [];
      new;
      Config(config);
    }

    /** Reads the two colour options, with their defaults. */
    method Config(config: map<string, string>)
      modifies this`colors
      ensures colors == ConfigColors(config)
    {
      var nameColor, valueColor := UString(config, NameColorOption, DefaultNameColor),
                                   UString(config, ValueColorOption, DefaultValueColor);
      colors := Colors(nameColor, valueColor);
    }

    /** One GET of `url`, recorded as a request: on any failure the error's text
        becomes the result and the error is returned; on success the result is
        untouched. */
    method Get(net: string -> FetchOutcome, url: string) returns (r: Result<seq<Quote>>)
      modifies this`result, this`requests
      ensures requests == old(requests) + [url]
      ensures r == FetchResult(net(url))
      ensures r.Err? ==> result == r.message
      ensures r.Ok? ==> result == old(result)
    {
      requests := requests + [url];
      match net(url)
      case BadRequest(message) =>
        result := message;
        r := Err(message);
      case TransportFailed(message) =>
        result := message;
        r := Err(message);
      case Undecodable(message) =>
        result := message;
        r := Err(message);
      case Decoded(quotes) =>
        r := Ok(quotes);
    }

    /** The two fetches in order, stopping at the first failure, then the render of
        the gold list followed by the currency list. */
    method Ipinfo(net: string -> FetchOutcome, formatPrice: real -> string)
      modifies this`result, this`requests
      ensures result == CycleText(colors, net(GoldUrl), net(CurrencyUrl), formatPrice)
      ensures requests == old(requests) + Requests(net(GoldUrl))
    {
      var goldList := Get(net, GoldUrl);
      if goldList.Err? {
        result := goldList.message;
        return;
      }
      var currencyList := Get(net, CurrencyUrl);
      if currencyList.Err? {
        result := currencyList.message;
        return;
      }
      var info := goldList.value + currencyList.value;
      SetResult(info, formatPrice);
    }

    /** Builds the price index from the colours and `info`, one insertion per quote
        in order, and renders the result template against it. */
    method SetResult(info: seq<Quote>, formatPrice: real -> string)
      modifies this`result
      ensures result == Execute(ResultTemplate(), Index(colors, info, formatPrice))
    {
      var infoMap := map[NameColorKey := colors.name, ValueColorKey := colors.value];
      for i := 0 to |info|
        invariant infoMap == Index(colors, info[..i], formatPrice)
      {
        var item := info[i];
        var key := RemoveHyphens(item.name);
        assert info[..i + 1][..i] == info[..i];
        infoMap := infoMap[key := formatPrice(item.selling) + LiraSuffix];
      }
      assert info[..|info|] == info;
      result := Execute(ResultTemplate(), infoMap);
    }

    /** The host's refresh hook: nothing happens while the widget is disabled;
        otherwise a full cycle runs and its text replaces what the view showed. */
    method Refresh(net: string -> FetchOutcome, formatPrice: real -> string)
      modifies this`result, this`viewText, this`requests
      ensures disabled ==> result == old(result) && viewText == old(viewText) && requests == old(requests)
      ensures !disabled ==> result == CycleText(colors, net(GoldUrl), net(CurrencyUrl), formatPrice)
      ensures !disabled ==> viewText == result && requests == old(requests) + Requests(net(GoldUrl))
    {
      if disabled {
        return;
      }
      Ipinfo(net, formatPrice);
      viewText := result;
    }
  }

  /** Two refreshes of one newly built enabled widget against unchanged remote data
      show the same text, which depends only on the configuration and that data, and
      each refresh issues the same requests. Refresh's own contract states this for a
      widget in any state. */
  method RefreshTwice(config: map<string, string>, net: string -> FetchOutcome, formatPrice: real -> string)
    returns (first: string, second: string, ghost requested: seq<string>)
    ensures first == second
    ensures first == CycleText(ConfigColors(config), net(GoldUrl), net(CurrencyUrl), formatPrice)
    ensures requested == Requests(net(GoldUrl)) + Requests(net(GoldUrl))
  {
    var widget := new Widget(config, false);
    widget.Refresh(net, formatPrice);
    first := widget.viewText;
    widget.Refresh(net, formatPrice);
    second := widget.viewText;
    requested := widget.requests;
  }

  /** A newly built disabled widget keeps its empty view and requests nothing,
      whatever the remote data. Refresh's own contract states this for a widget in
      any state. */
  method RefreshDisabled(config: map<string, string>, net: string -> FetchOutcome, formatPrice: real -> string)
    returns (shown: string, ghost requested: seq<string>)
    ensures shown == [] && requested == []
  {
    var widget := new Widget(config, true);
    widget.Refresh(net, formatPrice);
    shown := widget.viewText;
    requested := widget.requests;
  }
}
