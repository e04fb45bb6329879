# Gallery navigation model

A Dafny model of `gallery.js`, a carousel widget. The widget takes a container
holding a fixed list of slides. Its left and right controls move a current
slide index. It writes the index as a `translateX(...)` offset on the
`.gallery` element. The model covers four things:

- **Settings resolution** (`_establishObjectProperties`). `ease` and
  `duration` take the supplied option when it is truthy in JavaScript's sense.
  Otherwise they take `'ease'` and `400`, so a duration of `0` also becomes
  `400`.
- **The transition style** (`_addTransitions`): `'transform ' + duration + 'ms ' + ease`.
- **The navigation state machine** (`moveLeft`, `moveRight`). `currentSlide`
  starts at 0 and `totalSlides` is fixed when the object is built.
  `moveLeft` refuses at slide 0. `moveRight` refuses once
  `currentSlide >= totalSlides - 1`, which includes an empty gallery.
  Otherwise each handler moves one slide and writes
  `translateX(-(currentSlide*100)%)`.
- **The click wiring** (`_addListeners`): the left control calls
  `moveLeft` and the right control calls `moveRight`.

Module layout:

- `Wrappers`: the `Option` type.
- `Decimal`: how JavaScript prints an integral Number inside a string
  concatenation (exactly for magnitudes up to 2^53), plus a parser. `IntToStringRoundTrip` and `ParseIntRoundTrip` prove that `ParseInt`
  inverts the printing in both directions.
- `JsValues`: the option values (`undefined`, `null`, booleans, integral
  numbers, `NaN`, strings), their truthiness, `||`, and string conversion.
- `Navigation`: the two handlers as functions on the index, and the index
  after any sequence of clicks. It holds the clamping, distance, reach and
  undo lemmas.
- `GalleryWidget`: the settings, the two style strings and their parsers,
  and the class `Gallery`. Its fields are `settings`, `totalSlides`,
  `currentSlide`, and the element's `transition` and `transform` styles. Its
  methods are proved against the `Navigation` functions. Its invariant
  `Valid()` keeps the index in range. It also keeps the written transform equal
  to the current slide's offset, or empty before the first move.

Return values: `moveLeft`/`moveRight` return `false` on a refusal and
`undefined` on a move. The model returns `moved: bool`, with `false` for the
source's `false` and `true` for its `undefined`.

Negative zero: at slide 0 the source computes `-(0*100)`, which is `-0`, and
JavaScript prints it as `0`. Dafny's integers have no negative zero, so the
model prints `translateX(0%)` too (`GalleryWidget.FirstSlideStyle`).

`gallery.js` has no drag gestures, fade mode, resize handling, jump-to-index,
previous-index field or emitted events, so the model has none either. Its
duration default is 400.

## Model

| member | source | states |
|---|---|---|
| `JsValues.OrLaws` | gallery.js:42-43 | `\|\|` returns one of its operands. The result is truthy iff either operand is. Applying it again with the same default changes nothing |
| `GalleryWidget.EstablishSettings` | gallery.js:42-43 | Resolved ease and duration are always truthy. A truthy option is kept. A falsy one (undefined, null, false, 0, NaN, "") becomes `'ease'` or `400` |
| `GalleryWidget.EstablishSettingsIdempotent` | gallery.js:42-43 | Resolving already-resolved settings gives them back unchanged |
| `GalleryWidget.ZeroDurationBecomesDefault` | gallery.js:43 | An explicit duration of 0 becomes 400 |
| `GalleryWidget.DefaultTransition` | gallery.js:42-61 | With neither option given, the transition style is exactly `transform 400ms ease` |
| `GalleryWidget.TransitionRoundTrip` | gallery.js:61 | For an integral duration, the transition style parses back into that duration and the ease text. The string is `'transform '`, the duration, `'ms '`, then the ease |
| `GalleryWidget.TranslateRoundTrip` | gallery.js:82 | The transform written for slide i parses back to an offset of exactly -(i*100) percent |
| `GalleryWidget.TranslateStyleInjective` | gallery.js:96 | Two different slide indices never produce the same transform |
| `GalleryWidget.FirstSlideStyle` | gallery.js:81-82 | Slide 0 renders as `translateX(0%)` with no minus sign, and slide 1 as `translateX(-100%)` |
| `GalleryWidget.Gallery.constructor` | gallery.js:13-55 | Settings are the resolved options. `currentSlide` is 0 and `totalSlides` is the slide count. The transition style is set and no transform is written. The invariant holds |
| `GalleryWidget.Gallery.AddTransitions` | gallery.js:60-62 | Writes the transition style from the settings and nothing else |
| `GalleryWidget.Gallery.MoveLeft` | gallery.js:76-85 | Refuses (`moved` false) with nothing changed exactly when the index is 0. Otherwise it decrements the index by one and writes that slide's transform. The invariant is kept |
| `GalleryWidget.Gallery.MoveRight` | gallery.js:90-99 | Refuses with nothing changed exactly when the index is at least totalSlides-1. Otherwise it increments the index by one and writes that slide's transform. The invariant is kept |
| `GalleryWidget.Gallery.HandleClick` | gallery.js:64-67 | A left click runs MoveLeft and a right click runs MoveRight. The new index is the one the click's step function gives. A move writes the new slide's transform, and a refusal leaves the transform unchanged |
| `GalleryWidget.Gallery.RenderedOffsetMatchesIndex` | gallery.js:76-99 | In a valid gallery, a written transform shows exactly the current slide's offset. No transform has been written only while the index is still 0 |
| `Navigation.StepClamps` | gallery.js:76-99 | From a valid index, a click is refused exactly at its boundary: left at 0, right at the last slide. Otherwise it moves one slide in its direction, and the index stays valid |
| `Navigation.RunStaysInRange` | gallery.js:76-99 | Under any sequence of clicks, 0 <= currentSlide <= max(0, totalSlides-1) |
| `Navigation.RunDistance` | gallery.js:81-95 | A sequence of n clicks moves the index by at most n |
| `Navigation.SingleSlideNeverMoves` | gallery.js:91-93 | With 0 or 1 slides, no click sequence leaves slide 0 |
| `Navigation.RightClicksReachEnd` | gallery.js:90-99 | k right clicks from a valid index reach index+k, clamped at the last slide |
| `Navigation.LeftClicksReachStart` | gallery.js:76-85 | k left clicks from a valid index reach index-k, clamped at 0 |
| `Navigation.LeftThenRight` | gallery.js:76-99 | A left move that is not refused, followed by a right click, restores the index |
| `Navigation.RightThenLeft` | gallery.js:76-99 | A right move that is not refused, followed by a left click, restores the index |
| `Decimal.NatToString` | gallery.js:82 | The printed form of a non-negative integer is non-empty and all digits. It starts with `0` only for 0 itself |
| `Decimal.ValueOfNatToString` | gallery.js:82 | The printed digits read back as the printed number |
| `Decimal.NatToStringOfValue` | gallery.js:82 | Every digit string without a leading zero is the printed form of its value |
| `Decimal.IntToStringRoundTrip` | gallery.js:82 | The string form of an integer parses back to it and is canonical: an optional minus, then no leading zero |
| `Decimal.ParseIntRoundTrip` | gallery.js:82 | Every canonical integer string is the string form of its parsed value |
| `Decimal.IntToStringInjective` | gallery.js:61 | Different integers print differently |

## Left out

- DOM lookup with `document.querySelector`/`querySelectorAll` (gallery.js:46-50): the slide count is a constructor parameter. Missing elements are not modelled.
- `addEventListener`, the `bind` calls, `EventEmitter` inheritance and `console.log` (gallery.js:3-4, 15, 27-28, 35, 65-66, 83, 97): host plumbing with no logic. The click wiring appears only as `HandleClick`.
- `_removeListeners` and `destroy` (gallery.js:69-71, 104-106): both bodies are empty, so there is no behaviour to state.
- Construction without an options object: app.js:11 does this, and `obj.ease` at gallery.js:42 would then throw a TypeError. The constructor takes an `Options` value, where an absent key is `Undefined`, so an absent object cannot be expressed.
- `threshold` and any other unknown option keys: gallery.js ignores them, and so does `Options`.
- `JsValues.JsValue`: numbers are unbounded integers plus `NaN`. `Num(n)` also accepts integers that no IEEE-754 double can represent (some above 2^53). Fractional numbers, `Infinity`, objects, arrays and symbols as option values are not modelled.
- `Decimal.IntToString`: prints every decimal digit of the exact integer. This matches JavaScript only for |n| <= 2^53. Above that, JavaScript prints the shortest digits that round-trip the double, for example `"1152921504606847000"` for 2^60, where the model prints `"1152921504606846976"`. From 1e21 on, JavaScript also switches to exponential notation.
- `GalleryWidget.TransitionRoundTrip`: states the round trip only for integral durations. A string duration such as `"300"` is concatenated unchanged, and the parser cannot tell it from a number.
- The visual effect of the styles (CSS transition timing, layout): the fields `transition` and `transform` hold the string assigned to `style.transition` and `style.transform`. A browser ignores an assignment whose value is not valid CSS (for example `{duration: -5}`, `{duration: true}` or `{ease: 'bogus'}`) and re-serializes accepted values; neither the rejection nor the re-serialization is modelled, nor how a browser renders the styles.
