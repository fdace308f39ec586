# Medusa gauge model in Dafny

This project models the non-drawing core of the Medusa gauge library
(`js/medusa.js`).

- **Colours.** The `Color` value type keeps every channel clamped: r, g, b in
  [0, 255] and alpha in [0, 1]. The module has its brightness test, its
  contrast colour and its `asHEX` projection.
- **Gradient stops.** `Stop` is one keyframe of a gradient. `Section` is a
  value range of the scale.
- **Gradient lookup.** `GradientLookup` resolves a query in [0, 1] to a colour.
  It makes one ordered scan with an early `break` to bracket the query between
  two stops, then blends each channel linearly.
- **Gauge model.** `GaugeModel` is the observable state of one gauge.
  - It keeps a list of listeners.
  - Every validated setter stores its (clamped or defaulted) argument and
    announces the change with a typed update event (RECALC, REDRAW, RESIZE,
    LED, LCD, VISIBILITY, INTERACTIVITY, FINISHED, SECTION).
  - The section, area, tick-mark-section, tick-label-section, marker and
    custom-tick-label lists have add, remove and clear operations.

## Modules

| file | module | what it holds |
|---|---|---|
| `js_core.dfy` | `JsCore` | JavaScript number idioms: `clamp`; `x \|\| d` for numbers, strings and objects; `parseInt` of a number; a division that may not be finite; `Number.MAX_VALUE` |
| `color.dfy` | `ColorSpace` | `Color`, its setters, the colour table, the brightness test and `asHEX` |
| `gradient.dfy` | `Gradient` | `Stop`, `GradientLookup`, the specification function `ColorAt` and the imperative `GetColorAt` proved against it |
| `lists.dfy` | `Lists` | the first-match search and `splice(i, 1)` used by the `remove*` operations and `removeOnUpdateEvent` |
| `events.dfy` | `Events` | `EventType`, `UpdateEvent`, and the calls that delivering events to a listener list makes |
| `enums.dfy` | `Styles` | the frozen option tables, as datatypes |
| `section.dfy` | `Sections` | the `Section` class |
| `gauge_model.dfy` | `Gauge` | the `GaugeModel` class |

How the model represents things:

- Numbers are `real`. The factor `0.00392` is kept exactly.
- `parseInt` of a number truncates toward zero.
- An argument that may be `undefined` is an `Option`.
- A setter that throws returns the `JsError` it would raise. Where the source
  assigns before it throws, the model makes that assignment too.
- Listeners are opaque identities. The model keeps a ghost log of every event
  fired and every round of listener calls made. The twostate predicate
  `Emitted(es)` says that exactly the events `es` were fired, in order, to the
  listeners registered at the time.
- With each event the log also records a `Snapshot`: the value, minValue,
  maxValue and range that a listener reads while it handles the event. This
  is how the model states which events fire before a clamp and which after.
- The gauge's plain boolean properties are one map from `Flag` to `bool`.
- The plain colour properties are one map from `Paint` to `Color`.
- The four section lists, the six tick-mark factors and the three tick-mark
  types are maps too. `Valid()` says these maps are total.

## Model

| member | source | states |
|---|---|---|
| JsCore.Clamp | js/medusa.js:1805-1809 | `clamp(min, max, value)` lies in [min, max] whenever min <= max, and returns a value already in range unchanged |
| JsCore.ClampInt | js/medusa.js:154-156 | the ternary clamp of a truncated channel lies in [lo, hi] and leaves a value already in range unchanged |
| JsCore.Or | js/medusa.js:335-337 | `x \|\| d` on a number: a given non-zero number is kept; `undefined` and 0 both give the default |
| JsCore.OrText | js/medusa.js:343-345 | `s \|\| d` on a string: a given non-empty string is kept; `undefined` and "" give the default |
| JsCore.OrElse | js/medusa.js:346-350 | `x \|\| d` on an object: a given value is kept; `undefined` gives the default |
| JsCore.ParseInt | js/medusa.js:149-151 | `parseInt` of a number truncates toward zero: it is within 1 of the argument, on the side of 0 |
| JsCore.TruncMatchesFloorUnderClamp | js/medusa.js:149-156 | once the result is clamped below at 0, truncating and flooring give the same channel |
| JsCore.Divide | js/medusa.js:372 | JavaScript division: finite exactly when the divisor is non-zero, with quotient * divisor == dividend; NaN exactly for 0 / 0 |
| ColorSpace.ClampArg | js/medusa.js:1805-1809 | `clamp` of `undefined` returns `undefined`, because every comparison with it is false; any other value is clamped |
| ColorSpace.NewColor | js/medusa.js:23-28 | the constructor gives a valid colour; each channel is its clamped argument, or 0 when missing; alpha is the clamped argument when that is positive, and 1 otherwise, so an alpha of 0 or below comes out as 1 |
| ColorSpace.WithRed | js/medusa.js:31 | the red setter clamps red into [0, 255], keeps an in-range red as given, changes no other channel and keeps a valid colour valid |
| ColorSpace.WithGreen | js/medusa.js:34 | the same for green |
| ColorSpace.WithBlue | js/medusa.js:37 | the same for blue |
| ColorSpace.WithAlpha | js/medusa.js:40 | the same for alpha in [0, 1]; unlike the constructor it keeps an alpha of 0 |
| ColorSpace.TransparentIsOpaqueWhite | js/medusa.js:262 | `Colors.TRANSPARENT` asks for alpha 0 and, through `\|\| 1`, equals opaque white |
| ColorSpace.DistanceSq | js/medusa.js:48-53 | the squared RGB distance is non-negative and 0 between colours with equal channels |
| ColorSpace.IsDark | js/medusa.js:55-59 | dark means strictly closer to black than to white; comparing squared distances decides the same, and `DarkIffLowChannelSum` gives the closed form |
| ColorSpace.IsBright | js/medusa.js:54 | bright is exactly not dark, so a colour as far from black as from white is bright |
| ColorSpace.Contrast | js/medusa.js:46 | the contrast colour is black or white; it is valid and opaque |
| ColorSpace.DarkIffLowChannelSum | js/medusa.js:55-59 | a colour is dark (strictly closer to black than to white) exactly when r + g + b < 382.5; ties are bright |
| ColorSpace.ContrastIsOpposite | js/medusa.js:46-59 | the contrast colour of a dark colour is bright and the contrast colour of a bright colour is dark, in both directions |
| ColorSpace.HexValue | js/medusa.js:44 | reading back a lower-case hexadecimal digit inverts writing it |
| ColorSpace.ToHexString | js/medusa.js:44 | `n.toString(16)` is non-empty, ends in the digit of n mod 16, and starts with '0' exactly when n is 0 (no leading zeros); `ShiftDigit` gives the rest of the digits |
| ColorSpace.Hex2 | js/medusa.js:44 | a byte's hexadecimal form, zero-padded, has two digits |
| ColorSpace.AsHex | js/medusa.js:44 | `asHEX` of a colour with whole channels is '#' followed by the zero-padded two-digit forms of r, g and b |
| ColorSpace.ShiftDigit | js/medusa.js:44 | appending one base-16 digit to a number appends its character to `toString(16)` |
| ColorSpace.AppendByte | js/medusa.js:44 | appending one base-256 digit appends its two-character form |
| ColorSpace.DigitsOfOneByte | js/medusa.js:44 | `(0x100 + r).toString(16)` is '1' followed by r's two digits |
| ColorSpace.DigitsOfTwoBytes | js/medusa.js:44 | the same for the leading 1, r and g |
| ColorSpace.DigitsOfBytes | js/medusa.js:44 | the same for the leading 1, r, g and b |
| ColorSpace.PackedLayout | js/medusa.js:44 | `0x1000000 + b + 0x100 * g + 0x10000 * r` is the base-256 number with digits 1, r, g, b |
| ColorSpace.HexOfPacked | js/medusa.js:44 | that number in hexadecimal is '1' followed by the six channel digits, so `substr(1)` drops just the leading 1 |
| ColorSpace.AsHexRoundTrip | js/medusa.js:44 | `asHEX` loses nothing: it has 7 characters, starts with '#', and the three digit pairs read back as r, g and b |
| Gradient.NewStop | js/medusa.js:63-66 | the offset is clamped into [0, 1]; an offset in range is kept, one above 1 becomes 1, and one that is missing or below 0 becomes 0; the colour is kept |
| Gradient.NewGradientLookup | js/medusa.js:112-114 | missing stops become the empty list; given stops are kept in the given order, unsorted |
| Gradient.FirstAbove | js/medusa.js:127-136 | the first index at or after i whose offset exceeds p: every stop before it is at or below p |
| Gradient.LastBelow | js/medusa.js:127-131 | the last index before k whose offset is below p, or -1; every stop after it up to k is at or above p |
| Gradient.UpperIndex | js/medusa.js:126-135 | the upper bound is the first stop, in the given order, whose offset exceeds the position; or the last stop when no offset does |
| Gradient.LowerIndex | js/medusa.js:125-131 | the lower bound is at or before the upper bound: the last stop there whose offset is below the position, or the first stop when none is |
| Gradient.InterpolateColor | js/medusa.js:141-160 | the result is always a valid colour; with equal offsets the division gives NaN (query at the offset) or ±Infinity (query off it), so the channels reach `new Color` as NaN (from `0 * Infinity` or `parseInt` of an infinity) or as an infinity, and either way it comes out opaque black |
| Gradient.BlendPosition | js/medusa.js:142 | the query's relative position between the two bounds' offsets; `Fraction` proves it lies in [0, 1] inside a proper bracket |
| Gradient.Channel | js/medusa.js:144-151 | one RGB channel: both channels scaled by 0.00392, blended, rescaled by 255 and truncated by `parseInt`; `ChannelBetween` bounds it |
| Gradient.Blend | js/medusa.js:144-159 | each RGB channel through `Channel` and alpha blended linearly, then built by `Mixed`; `BlendStaysBetween` keeps it between the two colours |
| Gradient.Mixed | js/medusa.js:154-159 | the ternary clamps, then `new Color`; `MixedChannels` states the channels that come out |
| Gradient.MixedChannels | js/medusa.js:154-159 | `new Color` of the clamped channels gives each RGB channel its clamped value; alpha is its clamped value, except that an alpha of 0 becomes 1 |
| Gradient.FirstAboveAt | js/medusa.js:132-135 | a stop above p, with none above p before it, is where the upward search stops |
| Gradient.LowerSoFarStep | js/medusa.js:129-131 | each step of the scan moves the lower bound to the stop it looks at exactly when that stop lies below the position |
| Gradient.ScanStopsAt | js/medusa.js:132-135 | when the scan breaks at stop i, i is the upper index and the lower bound held is the one at the lower index |
| Gradient.ScanRunsOut | js/medusa.js:126-136 | when no stop lies above the position, the upper bound stays the last stop and the lower bound held is the one at the lower index |
| Gradient.ColorAtBounds | js/medusa.js:137 | with two or more stops, the colour is the interpolation between the stops at the lower and upper index of the clamped query |
| Gradient.ColorAt | js/medusa.js:118-140 | the reference definition of `getColorAt`: the query clamped into [0, 1]; one stop gives its colour; otherwise the interpolation between the stops at `LowerIndex` and `UpperIndex`. `GetColorAt` is proved equal to it |
| Gradient.GetColorAt | js/medusa.js:118-140 | the scan with `break` returns exactly `ColorAt` of the stops and the query |
| Gradient.ColorAtClampsQuery | js/medusa.js:119 | every query at or below 0 gives the colour at 0, and every query at or above 1 gives the colour at 1 |
| Gradient.SingleStopColor | js/medusa.js:121-123 | with exactly one stop, its colour comes back unchanged for every query |
| Gradient.ColorAtIsValid | js/medusa.js:118-160 | with two or more stops the result has RGB in [0, 255] and alpha in [0, 1], whatever the stops hold |
| Gradient.BelowFirstStopIsBlack | js/medusa.js:125-142 | a clamped query below the first stop's offset brackets the first stop with itself and gives opaque black |
| Gradient.AboveAllStopsIsBlack | js/medusa.js:126-142 | a clamped query above every stop's offset brackets the last stop with itself and gives opaque black |
| Gradient.SortedBracketEnclosesPosition | js/medusa.js:125-136 | for strictly increasing offsets and a position inside their span, the bounds are two distinct stops, in order, that enclose the position |
| Gradient.BlendBetween | js/medusa.js:147-152 | blending linearly a fraction t in [0, 1] of the way from a to b stays between a and b |
| Gradient.ChannelBetween | js/medusa.js:144-151 | a blended, truncated channel of two channels in [0, 255] lies in [0, 254], between the two scaled by 0.00392 * 255 = 0.9996 and less 1 for the truncation |
| Gradient.Fraction | js/medusa.js:142 | the relative position of a query between two distinct enclosing offsets lies in [0, 1] |
| Gradient.ChannelComesThrough | js/medusa.js:149-156 | such a channel passes the [0, 255] clamp unchanged and lies within the two channels' band: above 0.9996 * min - 1 and at most 0.9996 * max (between them up to the 0.9996 scaling and the truncation) |
| Gradient.AlphaComesThrough | js/medusa.js:152-157 | a blended alpha, clamped and passed through `\|\| 1`, lies between the two alphas or is 1 |
| Gradient.RedWithin | js/medusa.js:144-154 | the red channel of a blend of two valid colours lies within their reds' band: above 0.9996 * min - 1 and at most 0.9996 * max, so two reds of 255 can give 254 |
| Gradient.GreenWithin | js/medusa.js:145-155 | the same band, for green |
| Gradient.BlueWithin | js/medusa.js:146-156 | the same band, for blue |
| Gradient.BlendedAlphaWithin | js/medusa.js:147-157 | the blended alpha lies exactly between the two alphas (no scaling), or is 1 |
| Gradient.MixedStaysBetween | js/medusa.js:154-159 | clamped channels that each lie within the two colours' bands make a colour within them: each RGB channel above 0.9996 * min - 1 and at most 0.9996 * max, alpha between the alphas or 1 |
| Gradient.BlendStaysBetween | js/medusa.js:144-159 | the blend of two valid colours at a relative position in [0, 1] lies within them channel by channel: between them up to the 0.9996 scaling and the truncation for RGB, between the alphas or 1 for alpha |
| Gradient.InterpolationStaysBetween | js/medusa.js:141-160 | between two valid stops with distinct offsets that enclose the position, every RGB channel lies between the stops' channels (up to the 0.9996 scaling and truncation), and alpha lies between their alphas or is 1 |
| Gradient.SortedColorAtStaysBetween | js/medusa.js:118-160 | for sorted, valid stops and a query inside their span, `getColorAt` lies within the two bracketing stops' colours: each RGB channel between them up to the 0.9996 scaling and the truncation, alpha between their alphas or 1 |
| Gradient.BlackToWhiteHalfway | js/medusa.js:118-160 | black at 0 to white at 1, queried at 0.5, gives (127, 127, 127, 1) |
| Gradient.ExactStopOffsetBlendsNeighbours | js/medusa.js:127-137 | a query exactly at an inner stop's offset skips that stop: red/green/blue stops at 0/0.5/1, queried at 0.5, give (127, 0, 127, 1) |
| Gradient.ExactStopBracket | js/medusa.js:127-136 | for that query the bounds are the first and the last stop |
| Gradient.RedBlueHalfway | js/medusa.js:141-159 | red at 0 to blue at 1, interpolated at 0.5, gives (127, 0, 127, 1) |
| Gradient.WhiteStopsGive254 | js/medusa.js:144-151 | even at a stop's own offset a channel of 255 comes back as 254, because 0.00392 is slightly less than 1 / 255 |
| Lists.FirstIndexOf | js/medusa.js:463 | `indexOf`: -1 exactly when the element is absent; otherwise the index of an equal element with none before it |
| Lists.IndexOf | js/medusa.js:567-570 | the search loop with `break` returns exactly `FirstIndexOf` |
| Lists.RemoveFirst | js/medusa.js:571-573 | `splice(index, 1)` of the first match, or the list unchanged; `RemoveAbsent` and `RemovePresent` state what it does |
| Lists.RemoveAbsent | js/medusa.js:571-573 | removing an absent element leaves the list unchanged |
| Lists.RemovePresent | js/medusa.js:571-573 | removing a present element takes out one occurrence, the first; the elements before and after it stay in order, and the multiset loses exactly that element |
| Lists.RemoveFromFront | js/medusa.js:462-465 | removing x from a list that starts with x gives back the rest |
| Lists.AppendThenRemove | js/medusa.js:461-465 | appending then removing x restores the list when x was new; when x was already there, the earlier copy goes and the appended one stays |
| Events.EventNamesDistinct | js/medusa.js:308-318 | no two event types share a name |
| Events.NewUpdateEvent | js/medusa.js:163-167 | an event with a type records that type; without one, the default `this.EventType.REDRAW` reads a property of `undefined` and throws a TypeError |
| Events.Deliver | js/medusa.js:466-469 | firing one event calls every listener once, in list order, duplicates included |
| Events.BroadcastAppend | js/medusa.js:466-469 | firing the events a and then the events b makes the same calls as firing a + b |
| Events.BroadcastLength | js/medusa.js:466-469 | firing k events to n listeners makes n * k calls |
| Events.FlattenAppend | js/medusa.js:466-469 | the calls of two logs put together are the calls of the first, then those of the second |
| Events.LoggedCalls | js/medusa.js:466-469 | logging the rounds of firing some events extends the flat record of calls by exactly the broadcast of those events |
| Events.FlattenRounds | js/medusa.js:466-469 | the rounds of calls the model logs, concatenated, are the calls of the recursive definition |
| Events.RoundsAppend | js/medusa.js:466-469 | the logged rounds compose as the event sequences do |
| Events.LogTwo | js/medusa.js:466-469 | two stretches of firing, one after the other, log the same as firing both event sequences at once |
| Styles.NeedleSizeFactor | js/medusa.js:188-192 | every needle size factor lies in (0, 0.1) |
| Styles.BottomCenterIsBottomLeft | js/medusa.js:237-247 | `Pos.BOTTOM_CENTER` is 'bottomLeft', the same as BOTTOM_LEFT, and no position is named 'bottomCenter' |
| Styles.FormatPatternsDistinct | js/medusa.js:248-254 | the number formats' patterns are pairwise distinct, and AUTO is the STANDARD pattern '0' |
| Sections.Section.constructor | js/medusa.js:87-94 | every property defaults through `\|\|`: start and stop to 0, text and image to "", colour to 'rgb(200, 100, 0)' |
| Sections.Section.SetStart | js/medusa.js:97 | the start is stored as given, with no check against the stop |
| Sections.Section.SetStop | js/medusa.js:100 | the stop is stored as given |
| Sections.Section.SetColor | js/medusa.js:103 | the colour is stored as given |
| Sections.Section.SetImage | js/medusa.js:106 | the image is stored as given |
| Sections.Section.Contains | js/medusa.js:108 | the closed interval test; `ContainsEndpoints` and `ContainsBetween` state its shape |
| Sections.ContainsEndpoints | js/medusa.js:108 | `contains` is a closed interval: both ends of a non-empty section belong to it, and a section whose start exceeds its stop contains nothing |
| Sections.ContainsBetween | js/medusa.js:108 | anything between two members of a section is a member |
| Sections.DefaultSectionHoldsOnlyZero | js/medusa.js:87-108 | a section built without parameters is [0, 0] and contains 0 and nothing else |
| Gauge.FlagEvent | js/medusa.js:731-1317 | the event each plain boolean setter fires: VISIBILITY for min/maxMeasuredValueVisible, oldValueVisible, valueVisible, knobVisible, thresholdVisible, markersVisible, ledVisible, lcdVisible and lcdCrystalEnabled; LED for ledOn; INTERACTIVITY for interactive; nothing for animated, barEffectEnabled, the three check flags and keepAspect; REDRAW for every other flag |
| Gauge.PaintEvent | js/medusa.js:714-1068 | the knob colour fires RESIZE and every other plain colour REDRAW |
| Gauge.PaintDefault | js/medusa.js:353-413 | the table default of each colour property |
| Gauge.InitialFlags | js/medusa.js:356-451 | the constructor's flags; `InitialFlagsDefaults` states the `\|\| true` and `\|\| false` defaults |
| Gauge.InitialPaints | js/medusa.js:353-413 | the constructor's colours; `InitialPaintsDefaults` states them |
| Gauge.InitialFactors | js/medusa.js:382-389 | the constructor's tick-mark factors; `InitialFactorsDefaults` states them |
| Gauge.InitialFlagsDefaults | js/medusa.js:356-451 | every flag except `sectionsAlwaysVisible` is initialised; the `\|\| true` flags (valueVisible, knobVisible, tickLabelsVisible, the three tick-mark visibilities, keepAspect) are true even when false is given; the others take the parameter, or false when it is missing |
| Gauge.InitialPaintsDefaults | js/medusa.js:353-413 | every colour property is initialised: a given colour is kept, and a missing one takes its table default, which is a valid colour |
| Gauge.InitialFactorsDefaults | js/medusa.js:382-389 | every tick-mark factor is initialised: from its parameter when that is given and not 0, from the table otherwise; the table defaults lie in (0, 1) |
| Gauge.InitialTickMarkTypesDefaults | js/medusa.js:390-392 | every tick level has a mark type, LINE when none is given |
| Gauge.InitialMapsTotal | js/medusa.js:346-392 | the initial colour, section-list, factor and tick-mark-type maps have every key |
| Gauge.ValueSetterEvents | js/medusa.js:479-497 | the events of one `value` call; `ValueSetterEventsShape` states their shape |
| Gauge.ValueSetterEventsShape | js/medusa.js:479-497 | the `value` setter fires one or two events: FINISHED always, and last; REDRAW exactly when it is not animated and the value changed; FINISHED alone when animated |
| Gauge.MinValueSetterEvents | js/medusa.js:507-520 | the events of one `minValue` call, in the order its branches fire them; `MinValueSetterEventsShape` states their shape |
| Gauge.MinValueSetterEventsShape | js/medusa.js:507-520 | the `minValue` setter fires RECALC first, and a second RECALC exactly when the maximum is raised; the value setter's FINISHED exactly when the value is reset to 0, and REDRAW exactly when that reset is not animated and changes the value; RESIZE exactly when the threshold is re-clamped, and then last |
| Gauge.MinValueSetterEventsSplit | js/medusa.js:507-520 | those events are the setter's first half followed by its second half |
| Gauge.GaugeModel.GetFlag | js/medusa.js:1169 | a flag's getter is `undefined` for `onlyFirstAndLastTickLabelVisible`, whose getter has no `return`, and for a flag never initialised; otherwise it is the stored flag |
| Gauge.GaugeModel.IsOn | js/medusa.js:479 | what `if (this._flag)` sees: a flag never initialised is falsy |
| Gauge.GaugeModel.EmittedBroadcast | js/medusa.js:466-469 | any run of setters under the same listeners adds to the flat record of calls exactly the broadcast of the events it fired: one call per listener and event |
| Gauge.GaugeModel.constructor | js/medusa.js:334-455 | every field defaults through `\|\|` as in the source: value falls back to minValue, threshold and minMeasuredValue to maxValue, maxMeasuredValue to minValue; range == maxValue - minValue; angleStep == angleRange / range, which may not be finite; autoScale is true; a missing LCD font stays undefined; the original bounds are -MAX_VALUE, MAX_VALUE and MAX_VALUE; no listener, no event, no snapshot and no animation yet |
| Gauge.GaugeModel.SetOnUpdateEvent | js/medusa.js:461 | registering appends the listener, duplicates allowed |
| Gauge.GaugeModel.RemoveOnUpdateEvent | js/medusa.js:462-465 | unregistering removes only the first identical registration, and is a no-op when there is none |
| Gauge.GaugeModel.FireUpdateEvent | js/medusa.js:466-469 | firing logs the event with a snapshot of value, minValue, maxValue and range as the listeners see them, and calls every listener registered when the call starts, once each, in insertion order |
| Gauge.GaugeModel.SetValue | js/medusa.js:475-498 | oldValue becomes the previous value and value the argument. Not animated: currentValue becomes the argument unclamped. Animated: an animation starts from the previous value towards the argument clamped into [minValue, maxValue], and currentValue is untouched. The events are `ValueSetterEvents` |
| Gauge.GaugeModel.SetMaxValue | js/medusa.js:523-529 | maxValue is stored without a check against minValue; range is recomputed; RECALC fires while the value is still unclamped (its snapshot holds the old value, the new maximum and m - minValue); then value is clamped into [minValue, maxValue], so it lies in range whenever minValue <= maxValue |
| Gauge.GaugeModel.SetMinValue | js/medusa.js:507-520 | maxValue is raised to m when m exceeds it; minValue is m clamped into [-MAX_VALUE, maxValue], so minValue == m for any finite m; range == maxValue - minValue; the first minimum is recorded; value is reset to 0 through the value setter when startFromZero holds and the minimum is negative; the threshold is re-clamped when it lies above the original threshold; finally value lies in [minValue, maxValue]; the events are `MinValueSetterEvents`; the first RECALC sees the old value, minValue == m and range == maxValue - m, which may be negative, and the raising RECALC sees minValue == maxValue == m |
| Gauge.GaugeModel.StoreMinValue | js/medusa.js:508-512 | the first half of the setter: minValue == m, RECALC with the unclamped minimum and range in its snapshot, and the maximum raised to m (with its own RECALC, seeing range 0) when m exceeds it |
| Gauge.GaugeModel.BoundMinValue | js/medusa.js:513-519 | the second half: clamp and record the minimum, then settle the value and the threshold |
| Gauge.GaugeModel.ClampMinValue | js/medusa.js:513-515 | the minimum is clamped into [-MAX_VALUE, maxValue], range is recomputed, and the original minimum is recorded once |
| Gauge.GaugeModel.SettleValue | js/medusa.js:516-519 | reset the value below zero, re-clamp the threshold, then clamp the value into range; the events are the two steps' events in order |
| Gauge.GaugeModel.ResetValueBelowZero | js/medusa.js:516 | when startFromZero holds and minValue < 0, the value setter runs with 0; otherwise nothing changes and nothing fires |
| Gauge.GaugeModel.ReclampThreshold | js/medusa.js:517 | when the original threshold is below the threshold, the threshold setter runs (re-clamping and firing RESIZE); otherwise nothing changes |
| Gauge.GaugeModel.SetThreshold | js/medusa.js:532-535 | the threshold setter ignores its argument: it clamps the current threshold into [minValue, maxValue] and fires RESIZE |
| Gauge.GaugeModel.SetRange | js/medusa.js:807-810 | range is stored, angleStep becomes angleRange / range, and nothing fires |
| Gauge.GaugeModel.SetStartAngle | js/medusa.js:813-816 | the start angle is clamped into [0, 360]; RECALC |
| Gauge.GaugeModel.SetAngleRange | js/medusa.js:819-823 | the angle range is clamped into [0, 360], angleStep is recomputed; RECALC |
| Gauge.GaugeModel.SetAngleStep | js/medusa.js:826 | the angle step is stored as given; no event |
| Gauge.GaugeModel.SetMinMeasuredValue | js/medusa.js:720 | stored as given; no event |
| Gauge.GaugeModel.SetMaxMeasuredValue | js/medusa.js:723 | stored as given; no event |
| Gauge.GaugeModel.ResetMeasuredValues | js/medusa.js:725-728 | both measured extremes become the current value; no event |
| Gauge.GaugeModel.SetTitle | js/medusa.js:538-541 | the title is stored; VISIBILITY, not REDRAW |
| Gauge.GaugeModel.SetSubTitle | js/medusa.js:544-547 | the subtitle is stored; VISIBILITY |
| Gauge.GaugeModel.SetUnit | js/medusa.js:550-553 | the unit is stored; VISIBILITY |
| Gauge.GaugeModel.SetButtonTooltipText | js/medusa.js:1311-1314 | the tooltip text is stored; REDRAW |
| Gauge.GaugeModel.SetSections | js/medusa.js:556-559 | one of the four section lists is replaced and no other changes; SECTION |
| Gauge.GaugeModel.AddSection | js/medusa.js:560-564 | `undefined` is ignored without an event; otherwise the section is appended to its list, the other lists are unchanged, and SECTION fires once |
| Gauge.GaugeModel.RemoveSection | js/medusa.js:565-575 | `undefined` is ignored without an event; otherwise only the first identical section is removed (nothing when absent), the other lists are unchanged, and SECTION fires even when none was found |
| Gauge.GaugeModel.ClearSections | js/medusa.js:576-579 | the pop loop empties one list and leaves the others; SECTION |
| Gauge.GaugeModel.AddMarker | js/medusa.js:664-668 | `undefined` is ignored without an event; otherwise the marker is appended; SECTION |
| Gauge.GaugeModel.RemoveMarker | js/medusa.js:669-679 | `undefined` is ignored; otherwise only the first identical marker goes; SECTION even when none was found |
| Gauge.GaugeModel.ClearMarkers | js/medusa.js:680-683 | `clearMarker` reads `this._markes.length` on `undefined` and throws a TypeError before changing anything |
| Gauge.GaugeModel.SetMarkers | js/medusa.js:1273-1276 | assigning `markers` runs the later of the two definitions, which replaces the custom tick labels; REDRAW |
| Gauge.GaugeModel.AddCustomTickLabel | js/medusa.js:1277-1281 | `undefined` is ignored; otherwise the label is appended; REDRAW |
| Gauge.GaugeModel.RemoveCustomTickLabel | js/medusa.js:1282-1292 | `undefined` is ignored; otherwise only the first equal label goes; REDRAW even when none was found |
| Gauge.GaugeModel.ClearCustomTickLabels | js/medusa.js:1293-1296 | the pop loop empties the labels; SECTION, unlike its siblings |
| Gauge.GaugeModel.SetFlag | js/medusa.js:731-1317 | a boolean property is stored as given and no other flag changes; the event is `FlagEvent`: VISIBILITY only for min/maxMeasuredValueVisible, oldValueVisible, valueVisible, knobVisible, thresholdVisible, markersVisible, lcdVisible, lcdCrystalEnabled and ledVisible; LED for ledOn; INTERACTIVITY for interactive; nothing for animated, barEffectEnabled, checkSectionsForValue, checkAreasForValue, checkThreshold and keepAspect; REDRAW for the rest, including sectionsVisible, areasVisible and tickLabelsVisible |
| Gauge.GaugeModel.SetPaint | js/medusa.js:714-1068 | a colour property is stored as given and no other colour changes; the knob colour fires RESIZE, every other colour REDRAW |
| Gauge.GaugeModel.SetForegroundBaseColor | js/medusa.js:686-698 | exactly the ten text and tick colours take the colour, every other colour is unchanged, and a single REDRAW fires |
| Gauge.GaugeModel.SetNeedleBorderColor | js/medusa.js:993-996 | `undefined` selects TRANSPARENT; REDRAW |
| Gauge.GaugeModel.SetBarBorderColor | js/medusa.js:1005-1008 | `undefined` selects TRANSPARENT; REDRAW |
| Gauge.GaugeModel.SetLedColor | js/medusa.js:1029-1032 | the setter tests the undeclared `colors` and throws a ReferenceError before changing anything |
| Gauge.GaugeModel.SetStartFromZero | js/medusa.js:701-705 | the flag is stored, then calling the number `this._value` throws a TypeError, so no event fires |
| Gauge.GaugeModel.SetReturnToZero | js/medusa.js:708-711 | for minValue <= 0 reading the undeclared `istrue` throws a ReferenceError; above 0 the flag becomes false and REDRAW fires |
| Gauge.GaugeModel.SetAutoScale | js/medusa.js:829-838 | the undeclared `AUTO_SCALE` is read first and throws a ReferenceError |
| Gauge.GaugeModel.SetLedBlinking | js/medusa.js:1236-1244 | the flag is stored, then both branches reach an undeclared name and throw a ReferenceError |
| Gauge.GaugeModel.SetLcdFont | js/medusa.js:1023-1026 | a given font is stored, and REDRAW fires; `undefined` defaults through the undeclared `LcdFont` and throws a ReferenceError, changing nothing |
| Gauge.GaugeModel.SetTickMarkFactor | js/medusa.js:886-931 | the major width and medium length factors are clamped into [0, 1] and fire REDRAW; the four that call the undeclared `Helper.clamp` throw a ReferenceError and change nothing |
| Gauge.GaugeModel.SetBorderWidth | js/medusa.js:767-770 | clamped into [0, 50]; REDRAW |
| Gauge.GaugeModel.SetAnimationDuration | js/medusa.js:804 | clamped into [10, 10000]; no event |
| Gauge.GaugeModel.SetDecimals | js/medusa.js:952-955 | clamped into [0, 6]; REDRAW |
| Gauge.GaugeModel.SetTickLabelDecimals | js/medusa.js:958-961 | clamped into [0, 6]; REDRAW |
| Gauge.GaugeModel.SetCustomTickLabelFontSize | js/medusa.js:1299-1302 | clamped into [0, 72]; REDRAW |
| Gauge.GaugeModel.SetMajorTickSpace | js/medusa.js:1200-1203 | stored as given; RECALC |
| Gauge.GaugeModel.SetMinorTickSpace | js/medusa.js:1206-1209 | stored as given; RECALC |
| Gauge.GaugeModel.SetKnobType | js/medusa.js:784-787 | `undefined` selects STANDARD; RESIZE |
| Gauge.GaugeModel.SetKnobPosition | js/medusa.js:789-792 | stored as given; RESIZE |
| Gauge.GaugeModel.SetScaleDirection | js/medusa.js:850-853 | `undefined` selects CLOCKWISE; RECALC |
| Gauge.GaugeModel.SetTickLabelLocation | js/medusa.js:856-859 | `undefined` selects INSIDE; REDRAW |
| Gauge.GaugeModel.SetTickLabelOrientation | js/medusa.js:862-865 | `undefined` selects HORIZONTAL; REDRAW |
| Gauge.GaugeModel.SetTickMarkType | js/medusa.js:934-949 | the major, medium or minor mark type; `undefined` selects LINE; the other levels are unchanged; REDRAW |
| Gauge.GaugeModel.SetNeedleType | js/medusa.js:964-967 | `undefined` selects STANDARD; RESIZE |
| Gauge.GaugeModel.SetNeedleShape | js/medusa.js:970-973 | `undefined` selects ANGLED; REDRAW |
| Gauge.GaugeModel.SetNeedleSize | js/medusa.js:976-979 | `undefined` selects STANDARD; RESIZE |
| Gauge.GaugeModel.SetNeedleBehavior | js/medusa.js:982-984 | `undefined` selects STANDARD; no event |
| Gauge.GaugeModel.SetLcdDesign | js/medusa.js:1017-1020 | `undefined` selects STANDARD; LCD |
| Gauge.GaugeModel.SetLedType | js/medusa.js:1035-1038 | `undefined` selects STANDARD; REDRAW |
| Gauge.GaugeModel.SetOrientation | js/medusa.js:1247-1250 | stored as given; RESIZE |
| Gauge.GaugeModel.SetGradientLookup | js/medusa.js:1259-1262 | stored as given; REDRAW |

## Where the code and the design description differ

The model follows the code in each of these cases:

- The `value` setter does not clamp `currentValue` when the gauge is not
  animated. A value of 150 on a [0, 100] scale leaves `currentValue` at 150.
- The `minValue` and `maxValue` setters do not recompute `angleStep`. They
  clamp `value` but not `currentValue`.
- The `maxValue` setter does not keep `minValue <= maxValue`.
- The `threshold` setter ignores its argument.
- The constructor does not clamp the threshold.
- A single stop whose offset is a number returns its own colour. The
  `undefined`-offset branch cannot be reached with stops built by `Stop`.

## Left out

- The `DashboardGauge` and `SimpleGauge` skins (js/medusa.js:1322-1803). They
  are canvas drawing, DOM creation, window handling and font fitting.
- The `Tweenable` animation, which is an external library driven by the clock.
  - The model records each started animation (from, clamped target, duration).
  - It does not model the later frames: each frame updates `currentValue` and
    fires REDRAW.
- `Math.radians`, `Math.degrees` and the square root in `distance`. These are
  floating point. The brightness test is stated on squared distances, which
  decide the same comparisons.
- Floating-point rounding in general.
  - Numbers are exact reals. NaN, the infinities and non-number arguments
    reach the setters only where the model says so: the `Quotient` of the
    angle step, and NaN as opaque black in `InterpolateColor`.
  - `Number.MAX_VALUE` is written out exactly, but nothing overflows.
- `parseInt` of numbers small enough to print in exponent notation. The model
  truncates them toward zero.
- `asRGB` and `asRGBA`. They depend on JavaScript's number-to-string
  conversion.
- ColorSpace.AsHex: stated only for colours with whole-number channels, which
  are the colours the library itself builds. For a fractional channel,
  `toString(16)` would print hexadecimal fraction digits.
- `Stop`'s default colour `new Color().rgba(...)`. It throws a TypeError, so
  `NewStop` always takes a colour.
- Gradient.GetColorAt: requires at least one stop. With none, the source
  throws a TypeError in `interpolateColor`. Its single-stop branch with an
  `undefined` offset is not reachable here, because a `Stop` always holds a
  number.
- The frozen tables (js/medusa.js:175-318). They are datatypes and constants.
  - Every `LcdDesigns` entry except BEIGE is a comma expression in
    parentheses, so it evaluates to its last colour; BEIGE is a real
    `LcdDesign` object. An LCD design is known here only by its key.
  - The table objects themselves are not modelled.
- The nine prebuilt event objects and the event's `source` field. An event is
  known by its type.
- What listeners do when they are called, including a listener that
  subscribes, unsubscribes or assigns properties while an event is being
  fired. Listeners are identities.
- Getters, which are plain field reads of the class. `GetFlag` models the flag
  getters, because one of them returns nothing.
- The stored `this._param` object and the `parameters || {}` fallback. A
  missing parameter object is the `Params` with every property absent.
- Gauge.GaugeModel.SetFlag, Gauge.GaugeModel.SetPaint and
  Gauge.GaugeModel.SetTickMarkType: each stands for a family of setters, one
  per property. The row cites the range that holds the family.
- The `set markers` at js/medusa.js:660. The later definition at 1273
  replaces it, so assigning `markers` runs `SetMarkers`.
- The threshold re-clamp in the `minValue` setter (js/medusa.js:517) is
  modelled. For any finite threshold it never fires from a freshly built
  gauge, because `originalThreshold` stays `Number.MAX_VALUE`. Thresholds
  above `Number.MAX_VALUE`, such as `Infinity`, are not modelled.
- Gauge.GaugeModel.SetPaint, Gauge.GaugeModel.SetKnobPosition and
  Gauge.GaugeModel.SetOrientation: these store-as-given setters take a defined
  value. In the source, assigning `undefined` stores `undefined`; the model
  cannot express that, and nothing in the core reads these fields back.
- Gauge.GaugeModel.constructor, Gauge.GaugeModel.SetSections,
  Gauge.GaugeModel.AddSection, Gauge.GaugeModel.RemoveSection,
  Gauge.GaugeModel.ClearSections, Gauge.GaugeModel.SetMarkers,
  Gauge.GaugeModel.AddMarker, Gauge.GaugeModel.RemoveMarker,
  Gauge.GaugeModel.AddCustomTickLabel, Gauge.GaugeModel.RemoveCustomTickLabel
  and Gauge.GaugeModel.ClearCustomTickLabels: the lists are values here, not
  shared arrays.
  - The source keeps the caller's own array (js/medusa.js:346-350, 557, 1274)
    and updates it in place: `push` at 562, `splice` at 572, the `pop` loop
    at 577.
  - The getters at 555 and 1272 hand out that same array.
  - So in the source an array a caller passed in, or got from a getter,
    changes along with the gauge, and a caller's change to it changes the
    gauge. The model does not capture this aliasing: each list field is a
    sequence that the gauge alone replaces.
