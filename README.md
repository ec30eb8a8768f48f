# FilterIt filter-state model

A Dafny model of the filter editor in `src/components/App.js` of FilterIt, a
React page that previews a remote image under CSS filters and exports it as a
PNG. The model covers the component's state and the events that replace it:

- **options**: the seven filter options (brightness, contrast, saturate,
  grayscale, sepia, hue-rotate, blur), each with a display name, a CSS
  property, a current value, a range and a unit, starting from the defaults;
- **quality**: the output quality factor, starting at 1;
- **selectedOptionIndex**: which option the single slider edits (index -1 would
  make the slider edit the quality instead);
- **imageUrl**: the image address, an opaque string.

The events are a slider change, the Quality toggle, a sidebar click and the URL
input. The preview style holds the canonical filter descriptor: one
term per option, the property followed by the value and the unit in
parentheses with nothing between value and unit (`brightness(100%)`), in option order, joined by single
spaces. The style carries no filter entry when the selected index names no
option.

Modules:

- `Decimal` (decimal.dfy): how a template literal renders a non-negative
  integer below 10^21, and reading digit strings back.
- `Quality` (quality.dfy): quality levels as an exact number of tenths, or
  NaN. It holds the toggle, and `parseFloat` on the strings a step-0.1 slider
  reports.
- `Filters` (filters.dfy): the options, `DEFAULT_OPTIONS`, the point update a
  slider change makes, and the descriptor built by `map` and `join`. `Split`
  serves as join's reference inverse.
- `App` (app.dfy): the preview style (`getImageStyle`), and the class
  `AppState` whose methods are the event handlers. `AppState.Valid()` is the
  invariant every reachable state keeps. It says the options keep the default
  count, order, names, properties, ranges and units. It says the selected
  index names an option. It says the quality is 1 or 0.1.

Two things follow from the invariant. The quality branch of the slider handler
is never taken, because no event sets the index to -1: the Quality sidebar
entry toggles and does not select. So in every reachable state the style has a
filter.

The toggle compares with the literal 1, so every other value (0.1, a slider
value such as 0.5, NaN) becomes 1 (`Quality.Toggle`).

Option values are `Number(n)` for the numeric defaults and `Text(s)` for what a
slider change stores. The handler stores the widget's value string verbatim
(line 93) and never parses or clamps it.

## Model

| member | source | states |
|---|---|---|
| `Decimal.NatToString` | src/components/App.js:114 | A rendered number has at least one character, only digits, and no leading zero unless it is 0 |
| `Decimal.NatToStringRoundTrip` | src/components/App.js:114 | Reading the digits of a rendered number back gives the number |
| `Quality.Toggle` | src/components/App.js:99-101 | The toggle always yields 1 or 0.1. It yields 0.1 exactly when the quality was 1, so 0.1, any slider value and NaN all become 1 |
| `Quality.ToggleInvolution` | src/components/App.js:100 | On the two levels 1 and 0.1, toggling twice gives the starting level |
| `Quality.Parse` | src/components/App.js:88 | `parseFloat` on the strings a step-0.1 slider reports: digits, or optional digits, a point and one digit, read as tenths; anything else is NaN. `ParseText` proves it inverts `Text`, and `SliderEnds` fixes its value on the slider's end strings |
| `Quality.Text` | src/components/App.js:182 | The string a quality shows as the slider's value: whole numbers without a point, others with one fractional digit, NaN as "NaN". `ParseText` proves `Parse` reads it back to the same quality |
| `Quality.ParseText` | src/components/App.js:88 | Parsing the rendering of any quality gives that quality back, so the quality slider reporting its own value (lines 179-182) leaves the quality unchanged |
| `Quality.SliderEnds` | src/components/App.js:179-181 | The slider strings "0.1", "1" and "1.0" parse to 0.1, 1 and 1; the empty string parses to NaN |
| `Filters.DefaultOptions` | src/components/App.js:6-77 | The seven default options with their names, properties, values, ranges and units, in order. `DefaultsInRange`, `DefaultsSpaceFree` and `DefaultFilterString` state their properties |
| `Filters.DefaultsInRange` | src/components/App.js:6-77 | Every default value is a number within its option's range |
| `Filters.RenderValue` | src/components/App.js:114 | A template literal's rendering of a value: the decimal digits of a numeric default, a stored slider string as it is. `NatToString` and `NatToStringRoundTrip` state the numeric case |
| `Filters.Term` | src/components/App.js:114 | One option's term: property, "(", rendered value, unit, ")". `TermSpaceFree` and `LayoutTerms` state its properties |
| `Filters.Join` | src/components/App.js:118 | `Array.prototype.join`: the parts with the separator between neighbours, "" for no parts. `SplitJoin` proves `Split` inverts it |
| `Filters.FilterString` | src/components/App.js:113-118 | The descriptor: the options' terms joined by single spaces. `FilterStringTerms` proves one term per option in order, and `DefaultFilterString` the exact default string |
| `Filters.UpdateFrom` | src/components/App.js:91-94 | The `map` with index keeps the length. Each option passes through unchanged unless its index is the selected one; that option gets the new value string |
| `Filters.SetValueAt` | src/components/App.js:90-95 | A slider change keeps the length and every option except the selected one. The selected option keeps its name, property, range and unit, and its value becomes the event's string verbatim, with no clamping. An index naming no option changes nothing |
| `Filters.SetValueKeepsLayout` | src/components/App.js:90-95 | A slider change keeps the default count, order, names, properties, ranges and units |
| `Filters.Terms` | src/components/App.js:113-115 | One term per option, in option order, each the option's property, then its rendered value immediately followed by its unit, in parentheses |
| `Filters.SplitJoin` | src/components/App.js:118 | Splitting a join at its one-character separator gives the parts back, provided no part contains the separator |
| `Filters.FilterStringTerms` | src/components/App.js:113-118 | When no property, value or unit holds a space, splitting the descriptor at spaces gives exactly the options' terms in order: one term per option, separated by single spaces |
| `Filters.LayoutTerms` | src/components/App.js:113-115 | In the default layout the seven terms name the default properties and units in default order, each with the option's current value, whatever the edit history |
| `Filters.SetValueTerms` | src/components/App.js:113-115 | After a slider change, every term except the selected option's is as before. The selected term shows the new string verbatim between the property and the unit |
| `Filters.DefaultsSpaceFree` | src/components/App.js:6-77 | No default option has a space in its property, rendered value or unit |
| `Filters.DefaultFilterStringTerms` | src/components/App.js:113-118 | Splitting the default descriptor at spaces gives the seven default terms |
| `Filters.DefaultFilterString` | src/components/App.js:113-118 | With the unedited options of lines 6-77, the descriptor is exactly `brightness(100%) contrast(100%) saturate(100%) grayscale(0%) sepia(0%) hue-rotate(0deg) blur(0px)`, written in the lemma as its seven terms joined by six single spaces |
| `Filters.BrightnessFifty` | src/components/App.js:90-95 | Setting brightness to "50" gives `brightness(50%)` followed by the six unchanged default terms |
| `Filters.NoClamping` | src/components/App.js:93 | "500" is stored and rendered as `brightness(500%)` even though brightness ranges up to 200 |
| `App.ImageStyle` | src/components/App.js:103-122 | The style always carries `url(<imageUrl>)` and the quality. It has a filter entry exactly when the selected index names an option, and that entry is the descriptor of all options |
| `App.StyleIgnoresSelection` | src/components/App.js:113-118 | Which valid index is selected does not change the style |
| `App.AppState.Valid` | src/components/App.js:80-83 | The reachable-state invariant: default layout of the options, a selected index naming an option, quality 1 or 0.1. The constructor establishes it and every event method keeps it |
| `App.AppState.constructor` | src/components/App.js:80-83 | The initial state has the default options, quality 1, index 0 and an empty URL, and satisfies the invariant |
| `App.AppState.SelectOption` | src/components/App.js:162-167 | A sidebar click with an option's index selects it, changes nothing else, and keeps the invariant |
| `App.AppState.HandleSliderChange` | src/components/App.js:86-97 | With index -1 the quality becomes the parsed string and the options stay. Otherwise the options become the point update and the quality stays. The index and URL never change. The invariant is kept, and under it the quality never changes |
| `App.AppState.HandleQualityToggle` | src/components/App.js:99-101 | The quality becomes the toggle of the old quality. Nothing else changes, and the invariant is kept |
| `App.AppState.SetImageUrl` | src/components/App.js:199 | The URL becomes the input's text. Nothing else changes, and the invariant is kept |
| `App.AppState.CurrentStyle` | src/components/App.js:160 | The preview style of the current state. In every state satisfying the invariant, its filter is the descriptor of the current options |
| `App.Session` | src/components/App.js:86-101 | A scenario composed from the contracts alone: from the initial state the preview shows the default descriptor; after brightness "50" it shows `brightness(50%)` first; toggling twice returns quality to 1; after selecting blur and sliding to "3" the brightness edit survives and the invariant holds |

## Left out

- `src/server/server.js`: HTTP routing, static files, CORS and the fetch proxy are I/O with no logic of their own.
- `handleSaveImage` (lines 124-155): fetching, image decoding, canvas drawing, PNG encoding and the download link are browser calls. The filter it draws with is `getImageStyle().filter`, which is `AppState.CurrentStyle().filter` here.
- JSX rendering, the `Slider` and `SidebarItem` components, CSS, and the sidebar's "Quality: High/Low" label (line 171) are presentation. The slider's range and value props (lines 178-192) appear only as the `range` field.
- React's state semantics: each setter is modelled as replacing the field at once. The handler sees the current selected index rather than the one captured when the page last rendered.
- Quality.Parse: it models `parseFloat` only on digit strings with at most one fractional digit, which is what a slider with step 0.1 reports. Any other string reads as NaN here, while `parseFloat` would read a longer decimal or a numeric prefix.
- Floating point is not modelled. A quality is an exact number of tenths, so 0.1 means exactly one tenth.
- Decimal.NatToString: it renders only non-negative integers, always as plain digits. JavaScript switches to exponent form from 10^21 on (`1e+21`) and cannot hold integers above 2^53 exactly; neither matters here, since the only numbers ever rendered are the defaults 0 and 100 and slider changes store strings.
- Filters.NoClamping: it compares the range bound 200 with the stored text "500" informally, because the model never reads option values as numbers, just as the code does not.
