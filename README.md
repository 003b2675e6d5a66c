# Markets widget: a Dafny model

This project models the core of the `markets` widget of the wtf terminal dashboard
(`markets/widget.go`). When the host refreshes it, the widget fetches two price lists
from doviz.com, gold quotes first and then currency quotes. It merges them into a price
index keyed by instrument name with the hyphens removed. It then renders four coloured
lines (gram gold, USD, EUR, GBP) into the text the host's view shows. If either fetch
fails, the error's text replaces the whole display.

Modules:

- `Quotes` (`quote.dfy`): the quote record, name normalisation (`RemoveHyphens`, `Key`),
  and the price text (`Price`, `LiraSuffix`).
- `PriceIndex` (`price_index.dfy`): the colour seed and the index as a function of the
  quote list (`Index`), with lemmas about its keys, last-write-wins, the colour entries,
  its size, and which list wins on duplicates.
- `Template` (`template.dfy`): the fixed template, held as literal text and `{{.name}}`
  actions. `Source` gives its template text and `Execute` gives the direct substitution
  against a map. A missing key prints the placeholder `<no value>`.
- `Markets` (`widget.dfy`): the `Widget` class with its mutable `result`, its view text
  and a ghost log of the URLs it has requested. `Get` is proved against `FetchResult`.
  `SetResult`, which holds the index-building loop, is proved against
  `Execute(ResultTemplate(), Index(..))`. `Ipinfo` and `Refresh` are proved against the
  specification function `CycleText` and, for the request log, against `Requests`.
  `CycleText`'s contract and the lemmas beside it state the short-circuit and rendering
  properties.

External inputs become parameters:

- The network is `net: string -> FetchOutcome`. It says what one GET of a URL produced:
  the request could not be built, the transport failed, the body did not decode, or the
  decoded quote list.
- The float formatting of `strconv.FormatFloat(selling, 'f', 3, 32)` is
  `formatPrice: real -> string`.
- The configuration store is a `map<string, string>` from option paths to values.
- Whether the widget is disabled is a constructor argument.

Three behaviours of the code that a reader might not expect, all modelled as written:

- A missing instrument key (say the feed has no `euro` quote) is not an error. The
  `Execute` error is discarded at markets/widget.go:138, and text/template prints
  `<no value>` for a missing map key, so that line shows the placeholder and the other
  lines render normally. `CycleText` and `RenderFourLines` state this through `Shown`.
- The currency suffix at markets/widget.go:135 is, as written, a space followed by the
  three characters U+00E2 U+201A U+00BA (`â‚º`). These are the UTF-8 bytes of the
  Turkish lira sign U+20BA (`₺`) read as Windows-1252. `Quotes.LiraSuffix` holds what
  the code holds, so a price ends in ` â‚º`, not in the lira sign `₺`.
- `get` already writes the error text to `result` before `ipinfo` writes the same text
  again. `Widget.Get` models the write in `get` (markets/widget.go:65, 71, 82) and
  `Widget.Ipinfo` the second one (markets/widget.go:93, 99); the result ends the same.

## Model

| member | source | states |
|---|---|---|
| `Quotes.RemoveHyphens` | markets/widget.go:134 | the normalised name holds no `-` and is no longer than the name |
| `Quotes.RemoveHyphensRemovesAll` | markets/widget.go:134 | the normalised name holds no `-`, and as a multiset it equals the name with every `-` removed and every other character kept |
| `Quotes.RemoveHyphensAppend` | markets/widget.go:134 | normalising a concatenation normalises each part, so the kept characters stay in order |
| `Quotes.RemoveHyphensChar` | markets/widget.go:134 | a single character is dropped exactly when it is `-` |
| `Quotes.RemoveHyphensFixed` | markets/widget.go:134 | a name is left unchanged if and only if it holds no `-` |
| `Quotes.RemoveHyphensIdempotent` | markets/widget.go:134 | normalising twice equals normalising once |
| `PriceIndex.Index` | markets/widget.go:129-136 | the index always holds both colour keys and the normalised name of every quote |
| `PriceIndex.IndexKeys` | markets/widget.go:129-136 | the index keys are exactly `nameColor`, `valueColor` and the normalised names of all quotes |
| `PriceIndex.IndexLastWriteWins` | markets/widget.go:133-136 | a key maps to the formatted price of the last quote in the list that carries it |
| `PriceIndex.IndexUntouched` | markets/widget.go:129-136 | a key that no quote normalises to is in the index exactly when it is a seed key, with its seed value |
| `PriceIndex.IndexColors` | markets/widget.go:129-132 | both colour keys are always present and hold the configured colours unless a quote's normalised name collides with them |
| `PriceIndex.IndexLaterListWins` | markets/widget.go:133-136 | for every key the second list carries, the index of the concatenation agrees with the index of the second list alone |
| `PriceIndex.IndexSize` | markets/widget.go:129-136 | with pairwise distinct normalised names and no colour-key collision, the index has one entry per quote plus two |
| `PriceIndex.LastCarrying` | markets/widget.go:133-136 | returns the position of the last quote carrying a key (no later quote carries it), or -1 exactly when none does |
| `PriceIndex.IndexAt` | markets/widget.go:133-136 | an instrument key is in the index if and only if some quote carries it, and then it maps to the price of the last such quote |
| `Template.Execute` | markets/widget.go:138-140 | a template of literal text only prints exactly its own text |
| `Template.FormatableText` | markets/widget.go:143-145 | the line's template text is exactly ` [{{.nameColor}}]` + caption + `: [{{.valueColor}}]{{.` + key + `}}\n`, and executing it against any map gives the rendered line |
| `Template.ExecuteAppend` | markets/widget.go:138-140 | executing a concatenation of templates writes their outputs one after the other |
| `Template.ResultTemplateSource` | markets/widget.go:116-121 | the result template's text is the four formatted lines for gram gold, USD, EUR and GBP in that order |
| `Template.RenderLines` | markets/widget.go:116-140 | executing the result template gives the four rendered lines in the fixed order, with the placeholder for a missing key |
| `Markets.ConfigDefaults` | markets/widget.go:109-113 | an empty configuration gives `red` and `white`; configuring both options gives exactly the configured colours |
| `Markets.CycleText` | markets/widget.go:90-106 | the text is the gold error's message if gold failed, else the currency error's message if currency failed, else (with no colour-key collision) the four lines (gold, USD, EUR, GBP) in the configured colours, each showing the price of the last quote with that key in gold-then-currency order, or `<no value>` |
| `Markets.GoldFailureShortCircuits` | markets/widget.go:90-95 | a failed gold fetch makes the text equal that error's message whatever the currency endpoint holds, and the gold URL is the only request |
| `Markets.CurrencyFailureDiscardsGold` | markets/widget.go:97-101 | after a successful gold fetch, a failed currency fetch makes the text equal the currency error's message, and both URLs are requested |
| `Markets.RenderFourLines` | markets/widget.go:115-140 | with no colour-key collision, rendering the index of a list gives the four lines in the configured colours, each showing the last carrying quote's price or `<no value>` |
| `Markets.NameColorCollision` | markets/widget.go:129-135 | a quote whose name normalises to `nameColor` replaces the name colour with its price |
| `Markets.CurrencyWinsOnDuplicates` | markets/widget.go:103-136 | for a name the currency list carries, the shown price is the one the currency list alone gives, whatever the gold list holds |
| `Markets.Widget.constructor` | markets/widget.go:37-47 | a new widget has the configured colours, an empty result, an empty view and has requested nothing |
| `Markets.Widget.Config` | markets/widget.go:109-113 | sets the colours from the configuration with their defaults |
| `Markets.Widget.Get` | markets/widget.go:61-87 | requests `url` once; returns the decoded list or the error; on an error the result becomes the error's text, otherwise the result is unchanged |
| `Markets.Widget.Ipinfo` | markets/widget.go:90-106 | the result becomes `CycleText` of the two endpoints, and the request log grows by the gold URL, then the currency URL only if gold succeeded |
| `Markets.Widget.SetResult` | markets/widget.go:115-141 | the loop builds exactly `Index` of the colours and the list, and the result is the result template executed against it |
| `Markets.Widget.Refresh` | markets/widget.go:49-59 | when disabled, result, view and request log are unchanged; otherwise the result is the new cycle's text, the view shows it, and the request log grows as in `Ipinfo` |
| `Markets.RefreshTwice` | markets/widget.go:49-59 | two refreshes of a new enabled widget against unchanged remote data show the same text, which depends only on the configuration and the data, and request the same URLs each time |
| `Markets.RefreshDisabled` | markets/widget.go:49-52 | a new disabled widget's refresh leaves its view empty and requests nothing |

## Left out

- HTTP request construction, the `User-Agent: curl` header, `client.Do` and closing the
  response body (markets/widget.go:62-74) are network I/O. Their outcome is the abstract
  `FetchOutcome` that `net` returns for a URL.
- The second `err` check at markets/widget.go:75-78 cannot fire, because `err` was
  already tested at line 70. It has no counterpart.
- JSON decoding into the quote records (markets/widget.go:79-84) is a library call. Its
  success or failure is part of `FetchOutcome`.
- `strconv.FormatFloat(item.Selling, 'f', 3, 32)` (markets/widget.go:135) converts a
  float to text at 32-bit precision. It is the caller-supplied `formatPrice`, so nothing
  is proved about the digits it writes.
- Parsing the template with text/template and the `cannot create template` branch
  (markets/widget.go:116-125) are not modelled. The template is a compile-time constant
  that parses, so the model holds it already parsed (`Template.ResultTemplate`).
  Execution covers only `{{.name}}` actions on a string map.
- The host widget framework is not modelled: `wtf.NewTextWidget`, `View.SetWrap`,
  `View.Clear`, `UpdateRefreshedAt` (a clock) and the `Disabled` flag's origin
  (markets/widget.go:39-42, 50, 54-56). The view is a single `viewText` field that
  `Refresh` overwrites, and disabled is a constructor argument.
- `wtf.Config.UString` reads a configuration file. The store is a map given to the
  constructor.
- Go's `append` at markets/widget.go:103 may reuse the gold slice's storage. Only the
  concatenated value is modelled, which is all that is read afterwards.
