/** `GaugeModel`: the observable state of a gauge. Every property setter
    stores its (possibly validated) argument and then announces the change
    to the registered listeners with a typed update event; the skins redraw
    in response. */
module Gauge {
  import opened JsCore
  import opened ColorSpace
  import opened Gradient
  import opened Lists
  import opened Events
  import opened Styles
  import Sections

  // ---- property groups ----

  /** The boolean properties whose setter stores the argument as given. */
  datatype Flag =
    | MinMeasuredValueVisible | MaxMeasuredValueVisible | OldValueVisible | ValueVisible
    | KnobVisible | ThresholdVisible | MarkersVisible | LcdVisible | LcdCrystalEnabled | LedVisible
    | ShadowsEnabled | InnerShadowEnabled | SectionsVisible | SectionsAlwaysVisible
    | SectionTextVisible | SectionIconsVisible | HighlightSections | AreasVisible
    | AreaTextVisible | AreaIconsVisible | HighlightAreas | TickMarkSectionsVisible
    | TickLabelSectionsVisible | TickLabelsVisible | OnlyFirstAndLastTickLabelVisible
    | MajorTickMarksVisible | MediumTickMarksVisible | MinorTickMarksVisible | TickMarkRingVisible
    | GradientBarEnabled | CustomTickLabelsEnabled | LedOn | Interactive
    | Animated | BarEffectEnabled | CheckSectionsForValue | CheckAreasForValue | CheckThreshold
    | KeepAspect

  /** The event a flag's setter fires, if any. */
  function FlagEvent(f: Flag): Option<EventType> {
    match f
    case MinMeasuredValueVisible | MaxMeasuredValueVisible | OldValueVisible | ValueVisible
      | KnobVisible | ThresholdVisible | MarkersVisible | LcdVisible | LcdCrystalEnabled | LedVisible
      => Some(Visibility)
    case LedOn => Some(Led)
    case Interactive => Some(Interactivity)
    case Animated | BarEffectEnabled | CheckSectionsForValue | CheckAreasForValue | CheckThreshold
      | KeepAspect => None
    case _ => Some(Redraw)
  }

  /** The flags the constructor defaults with `|| true`: whatever the
      parameter, `false || true` and `true || true` are both true. */
  predicate AlwaysTrue(f: Flag) {
    f == ValueVisible || f == KnobVisible || f == TickLabelsVisible || f == MajorTickMarksVisible ||
    f == MediumTickMarksVisible || f == MinorTickMarksVisible || f == KeepAspect
  }

  /** The colour properties whose setter stores the argument as given. */
  datatype Paint =
    | ZeroColor | BackgroundPaint | BorderPaint | ForegroundPaint | KnobColor
    | TickLabelColor | TickMarkColor | MajorTickMarkColor | MediumTickMarkColor | MinorTickMarkColor
    | NeedleColor | BarColor | BarBackgroundColor
    | TitleColor | SubTitleColor | UnitColor | ValueColor | ThresholdColor

  /** Only the knob colour changes the layout; every other colour just
      needs a redraw. */
  function PaintEvent(p: Paint): EventType {
    if p == KnobColor then Resize else Redraw
  }

  function PaintDefault(p: Paint): Color {
    match p
    case BackgroundPaint | BorderPaint | ForegroundPaint => Transparent
    case KnobColor => Rgb(204.0, 204.0, 204.0)
    case NeedleColor => Rgb(200.0, 0.0, 0.0)
    case BarColor => BrightColor
    case ThresholdColor => Crimson
    case _ => DarkColor
  }

  /** The ten colours `foregroundBaseColor` sets at once. */
  const ForegroundPaints: set<Paint> := {
    TitleColor, SubTitleColor, UnitColor, ValueColor, TickLabelColor, ZeroColor,
    TickMarkColor, MajorTickMarkColor, MediumTickMarkColor, MinorTickMarkColor }

  /** The four lists of `Section`s. */
  datatype SectionKind = SectionList | AreaList | TickMarkSectionList | TickLabelSectionList

  datatype TickLevel = Major | Medium | Minor

  datatype TickDimension = Length | Width

  /** The six tick mark size factors. */
  datatype TickFactor = TickFactor(level: TickLevel, dimension: TickDimension)

  function TickFactorDefault(k: TickFactor): real {
    match k
    case TickFactor(Major, Length) => 0.42
    case TickFactor(Major, Width) => 0.275
    case TickFactor(Medium, Length) => 0.41
    case TickFactor(Medium, Width) => 0.175
    case TickFactor(Minor, Length) => 0.40
    case TickFactor(Minor, Width) => 0.1125
  }

  /** Four of the six factor setters call `Helper.clamp`, and there is no
      `Helper`. */
  predicate FactorSetterThrows(k: TickFactor) {
    k != TickFactor(Major, Width) && k != TickFactor(Medium, Length)
  }

  /** The numeric constructor parameters. */
  datatype NumberParam =
    | MinValueParam | MaxValueParam | ValueParam | ThresholdParam
    | MinMeasuredValueParam | MaxMeasuredValueParam | BorderWidthParam | AnimationDurationParam
    | StartAngleParam | AngleRangeParam | FactorParam(factor: TickFactor)
    | DecimalsParam | TickLabelDecimalsParam | MajorTickSpaceParam | MinorTickSpaceParam
    | CustomTickLabelFontSizeParam

  /** The constructor's `parameters` object. A property that is not given
      is absent from the maps or None. */
  datatype Params = Params(
    numbers: map<NumberParam, real>,
    flags: map<Flag, bool>,
    paints: map<Paint, Color>,
    title: Option<string>, subTitle: Option<string>, unit: Option<string>,
    buttonTooltipText: Option<string>,
    sections: Option<seq<Sections.Section>>, areas: Option<seq<Sections.Section>>,
    tickMarkSections: Option<seq<Sections.Section>>, tickLabelSections: Option<seq<Sections.Section>>,
    markers: Option<seq<object>>, customTickLabels: Option<seq<string>>,
    startFromZero: Option<bool>, returnToZero: Option<bool>, ledBlinking: Option<bool>,
    needleBorderColor: Option<Color>, barBorderColor: Option<Color>, ledColor: Option<Color>,
    knobType: Option<KnobType>, knobPosition: Option<Pos>, scaleDirection: Option<ScaleDirection>,
    tickLabelLocation: Option<TickLabelLocation>, tickLabelOrientation: Option<TickLabelOrientation>,
    tickMarkTypes: map<TickLevel, TickMarkType>, numberFormat: Option<NumberFormat>,
    needleType: Option<NeedleType>, needleShape: Option<NeedleShape>, needleSize: Option<NeedleSize>,
    needleBehavior: Option<NeedleBehavior>, lcdDesign: Option<LcdDesign>, lcdFont: Option<LcdFont>,
    ledType: Option<LedType>, orientation: Option<Orientation>,
    gradientLookup: Option<GradientLookup>)

  function Num(p: Params, k: NumberParam): Option<real> {
    if k in p.numbers then Some(p.numbers[k]) else None
  }

  /** The initial flags. `sectionsAlwaysVisible` is not initialised at all
      and so starts out undefined. */
  function InitialFlags(p: Params): map<Flag, bool> {
    map f: Flag | f != SectionsAlwaysVisible ::
      if AlwaysTrue(f) then true else f in p.flags && p.flags[f]
  }

  function InitialPaints(p: Params): map<Paint, Color> {
    map q: Paint :: if q in p.paints then p.paints[q] else PaintDefault(q)
  }

  const AllTickFactors: set<TickFactor> := {
    TickFactor(Major, Length), TickFactor(Major, Width), TickFactor(Medium, Length),
    TickFactor(Medium, Width), TickFactor(Minor, Length), TickFactor(Minor, Width) }

  function InitialFactors(p: Params): map<TickFactor, real> {
    map k | k in AllTickFactors :: Or(Num(p, FactorParam(k)), TickFactorDefault(k))
  }

  function InitialSectionLists(p: Params): map<SectionKind, seq<Sections.Section>> {
    map[SectionList := OrElse(p.sections, []), AreaList := OrElse(p.areas, []),
        TickMarkSectionList := OrElse(p.tickMarkSections, []),
        TickLabelSectionList := OrElse(p.tickLabelSections, [])]
  }

  function InitialTickMarkTypes(p: Params): map<TickLevel, TickMarkType> {
    map l | l in {Major, Medium, Minor} :: if l in p.tickMarkTypes then p.tickMarkTypes[l] else Line
  }

  /** Every flag but `sectionsAlwaysVisible` is initialised. Through
      `|| true` the always-true flags ignore their parameter, even an
      explicit false; the others take the parameter, or false when it is
      missing. */
  lemma {:induction false} InitialFlagsDefaults(p: Params, f: Flag)
    ensures f in InitialFlags(p) <==> f != SectionsAlwaysVisible
    ensures AlwaysTrue(f) ==> InitialFlags(p)[f]
    ensures !AlwaysTrue(f) && f != SectionsAlwaysVisible ==>
      InitialFlags(p)[f] == (f in p.flags && p.flags[f])
  {
  }

  /** Every colour is initialised: a given colour is kept, a missing one
      takes the table default, which is a valid colour. */
  lemma {:induction false} InitialPaintsDefaults(p: Params, q: Paint)
    ensures q in InitialPaints(p)
    ensures q in p.paints ==> InitialPaints(p)[q] == p.paints[q]
    ensures q !in p.paints ==> InitialPaints(p)[q] == PaintDefault(q) && Valid(InitialPaints(p)[q])
  {
  }

  /** Every tick factor is initialised, from its parameter when that is
      given and not 0, from the table otherwise; the table defaults lie in
      (0, 1). */
  lemma {:induction false} InitialFactorsDefaults(p: Params, k: TickFactor)
    ensures k in InitialFactors(p)
    ensures InitialFactors(p)[k] == Or(Num(p, FactorParam(k)), TickFactorDefault(k))
    ensures Num(p, FactorParam(k)).None? ==> 0.0 < InitialFactors(p)[k] < 1.0
  {
    match k
    case TickFactor(Major, Length) =>
    case TickFactor(Major, Width) =>
    case TickFactor(Medium, Length) =>
    case TickFactor(Medium, Width) =>
    case TickFactor(Minor, Length) =>
    case TickFactor(Minor, Width) =>
  }

  /** Every tick level has a mark type; LINE when none is given. */
  lemma {:induction false} InitialTickMarkTypesDefaults(p: Params, l: TickLevel)
    ensures l in InitialTickMarkTypes(p)
    ensures InitialTickMarkTypes(p)[l] == if l in p.tickMarkTypes then p.tickMarkTypes[l] else Line
  {
  }

  /** The maps that stand for fixed sets of fields have every key. */
  ghost predicate MapsTotal(paints: map<Paint, Color>, sectionLists: map<SectionKind, seq<Sections.Section>>,
                            factors: map<TickFactor, real>, tickMarkTypes: map<TickLevel, TickMarkType>)
  {
    (forall q: Paint :: q in paints) &&
    (forall k: SectionKind :: k in sectionLists) &&
    (forall k: TickFactor :: k in factors) &&
    (forall l: TickLevel :: l in tickMarkTypes)
  }

  lemma InitialMapsTotal(p: Params)
    ensures MapsTotal(InitialPaints(p), InitialSectionLists(p), InitialFactors(p), InitialTickMarkTypes(p))
  {
    forall k: SectionKind ensures k in InitialSectionLists(p) {
      match k
      case SectionList =>
      case AreaList =>
      case TickMarkSectionList =>
      case TickLabelSectionList =>
    }
    forall q: Paint ensures q in InitialPaints(p) {
      InitialPaintsDefaults(p, q);
    }
    forall k: TickFactor ensures k in InitialFactors(p) {
      InitialFactorsDefaults(p, k);
    }
    forall l: TickLevel ensures l in InitialTickMarkTypes(p) {
      InitialTickMarkTypesDefaults(p, l);
    }
  }

  /** One started `Tweenable` animation of the current value. */
  datatype Tween = Tween(from: real, to: real, duration: real)

  /** What a listener reads of the value and the bounds while it handles
      an event. */
  datatype Snapshot = Snapshot(value: real, minValue: real, maxValue: real, range: real)

  /** `after` is `before` followed by n more entries. */
  predicate Extends<T(==)>(before: seq<T>, after: seq<T>, n: nat) {
    |after| == |before| + n && after[..|before|] == before
  }

  /** Two extensions in a row are one. */
  lemma ExtendsTwice<T>(s0: seq<T>, s1: seq<T>, s2: seq<T>, a: nat, b: nat)
    requires Extends(s0, s1, a) && Extends(s1, s2, b)
    ensures Extends(s0, s2, a + b)
    ensures forall i :: 0 <= i < |s1| ==> s2[i] == s1[i]
  {
    assert s2[..|s0|] == s2[..|s1|][..|s0|];
  }

  /** The events one call of the `value` setter fires: REDRAW exactly when
      it is not animated and the value changed, and FINISHED always, last. */
  function ValueSetterEvents(animated: bool, changed: bool): seq<EventType> {
    if !animated && changed then [Redraw, Finished] else [Finished]
  }

  lemma ValueSetterEventsShape(animated: bool, changed: bool)
    ensures var es := ValueSetterEvents(animated, changed);
      1 <= |es| <= 2 && es[|es| - 1] == Finished &&
      (Redraw in es <==> !animated && changed) &&
      (animated ==> es == [Finished])
  {
  }

  /** The events one call of the `minValue` setter fires, in order: RECALC;
      RECALC again when the maximum is raised to the new minimum; the value
      setter's events when the value is reset to 0; RESIZE when the
      threshold is re-clamped. */
  function MinValueSetterEvents(raised: bool, zeroed: bool, animated: bool, changed: bool, reclamp: bool)
    : seq<EventType>
  {
    [Recalc] + (if raised then [Recalc] else []) + (if zeroed then ValueSetterEvents(animated, changed) else []) +
    (if reclamp then [Resize] else [])
  }

  /** RECALC comes first, and it is announced once or twice: twice exactly
      when the maximum was raised. RESIZE is announced exactly when the
      threshold was re-clamped, and then last; FINISHED exactly when the
      value was reset. */
  lemma {:induction false} MinValueSetterEventsShape(raised: bool, zeroed: bool, animated: bool, changed: bool,
                                                     reclamp: bool)
    ensures var es := MinValueSetterEvents(raised, zeroed, animated, changed, reclamp);
      es[0] == Recalc &&
      (raised <==> |es| > 1 && es[1] == Recalc) &&
      (reclamp <==> Resize in es) &&
      (reclamp ==> es[|es| - 1] == Resize) &&
      (zeroed <==> Finished in es) &&
      (Redraw in es <==> zeroed && !animated && changed)
  {
    var es := MinValueSetterEvents(raised, zeroed, animated, changed, reclamp);
    var v := if zeroed then ValueSetterEvents(animated, changed) else [];
    ValueSetterEventsShape(animated, changed);
    assert es == [Recalc] + (if raised then [Recalc] else []) + v + (if reclamp then [Resize] else []);
    assert Resize !in v && Recalc !in v;
  }

  /** The same events, grouped as the setter produces them: its first
      half, then the rest. */
  lemma MinValueSetterEventsSplit(raised: bool, zeroed: bool, animated: bool, changed: bool, reclamp: bool)
    ensures MinValueSetterEvents(raised, zeroed, animated, changed, reclamp) ==
      ([Recalc] + if raised then [Recalc] else []) +
      ((if zeroed then ValueSetterEvents(animated, changed) else []) + (if reclamp then [Resize] else []))
  {
    AppendAssoc([Recalc] + if raised then [Recalc] else [], if zeroed then ValueSetterEvents(animated, changed) else [],
                if reclamp then [Resize] else []);
  }

  function Fired(e: Option<EventType>): seq<EventType> {
    if e.Some? then [e.value] else []
  }

  // ---- the model ----

  class GaugeModel {
    var value: real
    var oldValue: real
    var currentValue: real
    var formerValue: real
    var minValue: real
    var maxValue: real
    var range: real
    var threshold: real
    var minMeasuredValue: real
    var maxMeasuredValue: real
    var title: string
    var subTitle: string
    var unit: string
    var sectionLists: map<SectionKind, seq<Sections.Section>>
    var markers: seq<object>
    var customTickLabels: seq<string>
    var startFromZero: bool
    var returnToZero: bool
    var autoScale: bool
    var ledBlinking: bool
    var flags: map<Flag, bool>
    var paints: map<Paint, Color>
    var needleBorderColor: Color
    var barBorderColor: Color
    var ledColor: Color
    var borderWidth: real
    var knobType: KnobType
    var knobPosition: Pos
    var animationDuration: real
    var startAngle: real
    var angleRange: real
    var angleStep: Quotient
    var scaleDirection: ScaleDirection
    var tickLabelLocation: TickLabelLocation
    var tickLabelOrientation: TickLabelOrientation
    var factors: map<TickFactor, real>
    var tickMarkTypes: map<TickLevel, TickMarkType>
    var numberFormat: NumberFormat
    var decimals: real
    var tickLabelDecimals: real
    var needleType: NeedleType
    var needleShape: NeedleShape
    var needleSize: NeedleSize
    var needleBehavior: NeedleBehavior
    var lcdDesign: LcdDesign
    var lcdFont: Option<LcdFont>
    var ledType: LedType
    var majorTickSpace: real
    var minorTickSpace: real
    var orientation: Orientation
    var gradientLookup: Option<GradientLookup>
    var customTickLabelFontSize: real
    var buttonTooltipText: string
    var originalMinValue: real
    var originalMaxValue: real
    var originalThreshold: real

    /** `eventListenerList`. */
    var listeners: seq<ListenerId>

    /** Every event fired so far, every listener call made so far, and
        every animation started so far. */
    ghost var events: seq<EventType>
    ghost var calls: seq<seq<Call>>
    ghost var tweens: seq<Tween>

    /** What each fired event's listeners could read, one entry per event. */
    ghost var snapshots: seq<Snapshot>

    /** The maps stand for fixed sets of fields, so they are total. */
    ghost predicate Valid()
      reads this
    {
      MapsTotal(paints, sectionLists, factors, tickMarkTypes)
    }

    /** Between the two states the events `es` were fired, in order, to the
        current listeners, each with the state it was fired in. */
    twostate predicate Emitted(es: seq<EventType>)
      reads this`events, this`calls, this`snapshots, this`listeners
    {
      events == old(events) + es && calls == old(calls) + Rounds(listeners, es) &&
      Extends(old(snapshots), snapshots, |es|)
    }

    /** Whatever a run of setters fired, with the same listeners registered
        throughout, the flat record of listener calls grew by exactly the
        broadcast of those events: one call per listener and event. */
    twostate lemma EmittedBroadcast(es: seq<EventType>)
      requires Emitted(es)
      ensures Flatten(calls) == Flatten(old(calls)) + Broadcast(listeners, es)
      ensures |Flatten(calls)| == |Flatten(old(calls))| + |listeners| * |es|
    {
      LoggedCalls(old(calls), listeners, es);
      BroadcastLength(listeners, es);
    }

    /** A flag's getter: undefined until set for `sectionsAlwaysVisible`,
        and always undefined for `onlyFirstAndLastTickLabelVisible`, whose
        getter has no `return`. */
    function GetFlag(f: Flag): (r: Option<bool>)
      reads this`flags
      ensures f == OnlyFirstAndLastTickLabelVisible ==> r.None?
      ensures f != OnlyFirstAndLastTickLabelVisible ==> (r.Some? <==> f in flags)
      ensures r.Some? ==> r.value == flags[f]
    {
      if f == OnlyFirstAndLastTickLabelVisible || f !in flags then None else Some(flags[f])
    }

    /** What an `if (this._flag)` test sees: undefined is falsy. */
    predicate IsOn(f: Flag)
      reads this`flags
    {
      f in flags && flags[f]
    }

    /** `new GaugeModel(parameters)`: every property defaults through `||`,
        so a 0, an empty string or false given explicitly takes the default
        too. The fields are stated in groups. */
    constructor(p: Params)
      ensures Valid()
      // The fields in two groups; each line of the left tuple is set to the
      // matching line of the right one.
      ensures ((minValue, maxValue, range),
               (value, oldValue, currentValue, formerValue),
               (threshold, minMeasuredValue, maxMeasuredValue),
               (originalMinValue, originalMaxValue, originalThreshold),
               (title, subTitle, unit, buttonTooltipText),
               (sectionLists, markers, customTickLabels),
               (flags, paints, factors, tickMarkTypes)) ==
              ((Or(Num(p, MinValueParam), 0.0), Or(Num(p, MaxValueParam), 100.0), maxValue - minValue),
               (Or(Num(p, ValueParam), minValue), value, value, value),
               (Or(Num(p, ThresholdParam), maxValue), Or(Num(p, MinMeasuredValueParam), maxValue),
                Or(Num(p, MaxMeasuredValueParam), minValue)),
               (-MaxValue, MaxValue, MaxValue),
               (OrText(p.title, ""), OrText(p.subTitle, ""), OrText(p.unit, ""), OrText(p.buttonTooltipText, "")),
               (InitialSectionLists(p), OrElse(p.markers, []), OrElse(p.customTickLabels, [])),
               (InitialFlags(p), InitialPaints(p), InitialFactors(p), InitialTickMarkTypes(p)))
      ensures ((startFromZero, returnToZero, ledBlinking, autoScale),
               (needleBorderColor, barBorderColor, ledColor),
               (borderWidth, animationDuration, startAngle, angleRange, angleStep),
               (decimals, tickLabelDecimals, majorTickSpace, minorTickSpace, customTickLabelFontSize),
               (knobType, knobPosition, scaleDirection, tickLabelLocation, tickLabelOrientation),
               (numberFormat, needleType, needleShape, needleSize, needleBehavior),
               (lcdDesign, lcdFont, ledType, orientation, gradientLookup),
               (listeners, events, calls, tweens, snapshots)) ==
              ((OrElse(p.startFromZero, false), OrElse(p.returnToZero, false), OrElse(p.ledBlinking, false), true),
               (OrElse(p.needleBorderColor, Transparent), OrElse(p.barBorderColor, Transparent), OrElse(p.ledColor, Red)),
               (Or(Num(p, BorderWidthParam), 1.0), Or(Num(p, AnimationDurationParam), 800.0),
                Or(Num(p, StartAngleParam), 320.0), Or(Num(p, AngleRangeParam), 280.0), Divide(angleRange, range)),
               (Or(Num(p, DecimalsParam), 1.0), Or(Num(p, TickLabelDecimalsParam), 0.0),
                Or(Num(p, MajorTickSpaceParam), 10.0), Or(Num(p, MinorTickSpaceParam), 1.0),
                Or(Num(p, CustomTickLabelFontSizeParam), 18.0)),
               (OrElse(p.knobType, StandardKnob), OrElse(p.knobPosition, Center), OrElse(p.scaleDirection, Clockwise),
                OrElse(p.tickLabelLocation, Inside), OrElse(p.tickLabelOrientation, HorizontalLabel)),
               (OrElse(p.numberFormat, AutoFormat), OrElse(p.needleType, StandardNeedle), OrElse(p.needleShape, Angled),
                OrElse(p.needleSize, StandardSize), OrElse(p.needleBehavior, StandardBehavior)),
               (OrElse(p.lcdDesign, StandardLcdDesign), p.lcdFont, OrElse(p.ledType, StandardLed),
                OrElse(p.orientation, Horizontal), p.gradientLookup),
               ([], [], [], [], []))
    {
      hide Or, OrElse, OrText, Num, Divide, MapsTotal,
        InitialFlags, InitialPaints, InitialFactors, InitialTickMarkTypes, InitialSectionLists;
      minValue := Or(Num(p, MinValueParam), 0.0);
      maxValue := Or(Num(p, MaxValueParam), 100.0);
      var v := Or(Num(p, ValueParam), Or(Num(p, MinValueParam), 0.0));
      value := v;
      oldValue := v;
      currentValue := v;
      formerValue := v;
      threshold := Or(Num(p, ThresholdParam), Or(Num(p, MaxValueParam), 100.0));
      var r := Or(Num(p, MaxValueParam), 100.0) - Or(Num(p, MinValueParam), 0.0);
      range := r;
      title := OrText(p.title, "");
      subTitle := OrText(p.subTitle, "");
      unit := OrText(p.unit, "");
      sectionLists := InitialSectionLists(p);
      markers := OrElse(p.markers, []);
      startFromZero := OrElse(p.startFromZero, false);
      returnToZero := OrElse(p.returnToZero, false);
      minMeasuredValue := Or(Num(p, MinMeasuredValueParam), Or(Num(p, MaxValueParam), 100.0));
      maxMeasuredValue := Or(Num(p, MaxMeasuredValueParam), Or(Num(p, MinValueParam), 0.0));
      flags := InitialFlags(p);
      paints := InitialPaints(p);
      borderWidth := Or(Num(p, BorderWidthParam), 1.0);
      knobType := OrElse(p.knobType, StandardKnob);
      knobPosition := OrElse(p.knobPosition, Center);
      animationDuration := Or(Num(p, AnimationDurationParam), 800.0);
      startAngle := Or(Num(p, StartAngleParam), 320.0);
      var ar := Or(Num(p, AngleRangeParam), 280.0);
      angleRange := ar;
      angleStep := Divide(ar, r);
      autoScale := true;
      scaleDirection := OrElse(p.scaleDirection, Clockwise);
      tickLabelLocation := OrElse(p.tickLabelLocation, Inside);
      // The constructor defaults to `Orientation.HORIZONTAL`, which is the
      // same string as `TickLabelOrientation.HORIZONTAL`.
      tickLabelOrientation := OrElse(p.tickLabelOrientation, HorizontalLabel);
      factors := InitialFactors(p);
      tickMarkTypes := InitialTickMarkTypes(p);
      numberFormat := OrElse(p.numberFormat, AutoFormat);
      decimals := Or(Num(p, DecimalsParam), 1.0);
      tickLabelDecimals := Or(Num(p, TickLabelDecimalsParam), 0.0);
      needleType := OrElse(p.needleType, StandardNeedle);
      needleShape := OrElse(p.needleShape, Angled);
      needleSize := OrElse(p.needleSize, StandardSize);
      needleBehavior := OrElse(p.needleBehavior, StandardBehavior);
      needleBorderColor := OrElse(p.needleBorderColor, Transparent);
      barBorderColor := OrElse(p.barBorderColor, Transparent);
      lcdDesign := OrElse(p.lcdDesign, StandardLcdDesign);
      // `LcdFonts.DIGITALBOLD` does not exist, so a missing font stays undefined.
      lcdFont := p.lcdFont;
      ledColor := OrElse(p.ledColor, Red);
      ledType := OrElse(p.ledType, StandardLed);
      majorTickSpace := Or(Num(p, MajorTickSpaceParam), 10.0);
      minorTickSpace := Or(Num(p, MinorTickSpaceParam), 1.0);
      ledBlinking := OrElse(p.ledBlinking, false);
      orientation := OrElse(p.orientation, Horizontal);
      gradientLookup := p.gradientLookup;
      customTickLabels := OrElse(p.customTickLabels, []);
      customTickLabelFontSize := Or(Num(p, CustomTickLabelFontSizeParam), 18.0);
      buttonTooltipText := OrText(p.buttonTooltipText, "");
      originalMinValue := -MaxValue;
      originalMaxValue := MaxValue;
      originalThreshold := MaxValue;
      listeners := [];
      events := [];
      calls := [];
      tweens := [];
      snapshots := [];
      new;
      InitialMapsTotal(p);
    }

    // ---- event handling ----

    method SetOnUpdateEvent(listener: ListenerId)
      modifies this`listeners
      ensures listeners == old(listeners) + [listener]
    {
      listeners := listeners + [listener];
    }

    /** Takes out the first registration of the listener, if any. */
    method RemoveOnUpdateEvent(listener: ListenerId)
      modifies this`listeners
      ensures listeners == RemoveFirst(old(listeners), listener)
    {
      var i := IndexOf(listeners, listener);
      if i > -1 {
        listeners := listeners[..i] + listeners[i + 1..];
      }
    }

    /** Calls every listener registered when the call starts, in order. */
    method FireUpdateEvent(e: EventType)
      modifies this`events, this`calls, this`snapshots
      ensures Emitted([e])
      ensures snapshots == old(snapshots) + [Snapshot(value, minValue, maxValue, range)]
    {
      events := events + [e];
      snapshots := snapshots + [Snapshot(value, minValue, maxValue, range)];
      var length := |listeners|;
      ghost var round := [];
      for i := 0 to length
        invariant round == Deliver(listeners[..i], e)
      {
        assert listeners[..i + 1][..i] == listeners[..i];
        round := round + [Call(listeners[i], e)];
      }
      assert listeners[..length] == listeners;
      calls := calls + [round];
    }

    // ---- value and bounds ----

    /** The `value` setter. Animated, it starts an animation towards the
        value clamped into range and only announces FINISHED; otherwise the
        current value jumps to the argument, unclamped. */
    method SetValue(v: real)
      modifies this`oldValue, this`value, this`currentValue, this`tweens, this`events, this`calls, this`snapshots
      ensures oldValue == old(value) && value == v
      ensures IsOn(Animated) ==>
        currentValue == old(currentValue) &&
        tweens == old(tweens) + [Tween(old(value), Clamp(minValue, maxValue, v), animationDuration)]
      ensures !IsOn(Animated) ==> currentValue == v && tweens == old(tweens)
      ensures Emitted(ValueSetterEvents(IsOn(Animated), v != old(value)))
    {
      oldValue := value;
      value := v;
      if IsOn(Animated) {
        var targetValue := if value < minValue then minValue else if value > maxValue then maxValue else value;
        tweens := tweens + [Tween(oldValue, targetValue, animationDuration)];
      } else {
        currentValue := v;
        if value != oldValue {
          FireUpdateEvent(Redraw);
        }
      }
      FireUpdateEvent(Finished);
      if !IsOn(Animated) && v != old(value) {
        RoundsAppend(listeners, [Redraw], [Finished]);
      }
    }

    /** The `maxValue` setter: no check against the minimum; RECALC is
        announced before the value is clamped into the new range. */
    method SetMaxValue(m: real)
      modifies this`maxValue, this`range, this`value, this`events, this`calls, this`snapshots
      ensures maxValue == m && range == m - minValue
      ensures value == Clamp(minValue, m, old(value))
      ensures minValue <= maxValue ==> minValue <= value <= maxValue
      ensures Emitted([Recalc])
      // RECALC is announced while the value is still unclamped.
      ensures snapshots[|old(snapshots)|] == Snapshot(old(value), minValue, m, m - minValue)
    {
      maxValue := m;
      range := maxValue - minValue;
      FireUpdateEvent(Recalc);
      value := Clamp(minValue, maxValue, value);
    }

    /** The `minValue` setter. It raises the maximum when the new minimum
        exceeds it, clamps the minimum into [-MAX_VALUE, maxValue], records
        the first minimum ever set, resets the value to 0 when the scale
        starts from zero and now reaches below it, re-clamps the threshold
        when it lies above the original threshold, and finally clamps the
        value into the new range. */
    method SetMinValue(m: real)
      modifies this`minValue, this`maxValue, this`range, this`value, this`oldValue, this`currentValue,
        this`tweens, this`originalMinValue, this`threshold, this`events, this`calls, this`snapshots
      ensures (maxValue, minValue, range, originalMinValue, threshold) ==
        (if m > old(maxValue) then m else old(maxValue),
         Clamp(-MaxValue, maxValue, m),
         maxValue - minValue,
         if old(originalMinValue) == -MaxValue then minValue else old(originalMinValue),
         if originalThreshold < old(threshold) then Clamp(minValue, maxValue, old(threshold)) else old(threshold))
      ensures var raised := if m > old(maxValue) then m else old(value);
        var zeroed := startFromZero && minValue < 0.0;
        (value, oldValue, currentValue, tweens) ==
        (Clamp(minValue, maxValue, if zeroed then 0.0 else raised),
         if zeroed then raised else old(oldValue),
         if zeroed && !IsOn(Animated) then 0.0 else old(currentValue),
         if zeroed && IsOn(Animated)
         then old(tweens) + [Tween(raised, Clamp(minValue, maxValue, 0.0), animationDuration)]
         else old(tweens))
      ensures -MaxValue <= m ==> minValue == m
      ensures -MaxValue <= maxValue ==> minValue <= value <= maxValue
      ensures var raised := if m > old(maxValue) then m else old(value);
        Emitted(MinValueSetterEvents(m > old(maxValue), startFromZero && minValue < 0.0, IsOn(Animated),
                                     0.0 != raised, originalThreshold < old(threshold)))
      // The first RECALC is announced before any clamping.
      ensures snapshots[|old(snapshots)|] == Snapshot(old(value), m, old(maxValue), old(maxValue) - m)
      ensures m > old(maxValue) ==> snapshots[|old(snapshots)| + 1] == Snapshot(old(value), m, m, 0.0)
    {
      StoreMinValue(m);
      ghost var stored := [Recalc] + if m > old(maxValue) then [Recalc] else [];
      ghost var events1, calls1, snapshots1, storedValue := events, calls, snapshots, value;
      BoundMinValue(m);
      ghost var settled :=
        (if startFromZero && minValue < 0.0 then ValueSetterEvents(IsOn(Animated), 0.0 != storedValue) else []) +
        (if originalThreshold < old(threshold) then [Resize] else []);
      LogTwo(old(events), old(calls), listeners, stored, settled, events1, calls1, events, calls);
      ExtendsTwice(old(snapshots), snapshots1, snapshots, |stored|, |settled|);
      MinValueSetterEventsSplit(m > old(maxValue), startFromZero && minValue < 0.0, IsOn(Animated), 0.0 != storedValue,
                                originalThreshold < old(threshold));
    }

    /** The second half of the `minValue` setter, once the maximum is in
        place: clamp and record the minimum, then settle the value and the
        threshold. */
    method BoundMinValue(m: real)
      modifies this`minValue, this`range, this`originalMinValue, this`oldValue, this`value, this`currentValue,
        this`tweens, this`threshold, this`events, this`calls, this`snapshots
      ensures (minValue, range, originalMinValue) ==
        (Clamp(-MaxValue, maxValue, m), maxValue - minValue,
         if old(originalMinValue) == -MaxValue then minValue else old(originalMinValue))
      ensures var zeroed := startFromZero && minValue < 0.0;
        (value, oldValue, currentValue, tweens) ==
        (Clamp(minValue, maxValue, if zeroed then 0.0 else old(value)),
         if zeroed then old(value) else old(oldValue),
         if zeroed && !IsOn(Animated) then 0.0 else old(currentValue),
         if zeroed && IsOn(Animated)
         then old(tweens) + [Tween(old(value), Clamp(minValue, maxValue, 0.0), animationDuration)]
         else old(tweens))
      ensures threshold ==
        (if originalThreshold < old(threshold) then Clamp(minValue, maxValue, old(threshold)) else old(threshold))
      ensures Emitted((if startFromZero && minValue < 0.0 then ValueSetterEvents(IsOn(Animated), 0.0 != old(value)) else []) +
                      (if originalThreshold < old(threshold) then [Resize] else []))
    {
      ClampMinValue(m);
      SettleValue();
    }

    /** The last steps of the `minValue` setter, once the bounds are in
        place: reset the value, re-clamp the threshold, clamp the value. */
    method SettleValue()
      modifies this`oldValue, this`value, this`currentValue, this`tweens, this`threshold, this`events, this`calls, this`snapshots
      ensures var zeroed := startFromZero && minValue < 0.0;
        (value, oldValue, currentValue, tweens) ==
        (Clamp(minValue, maxValue, if zeroed then 0.0 else old(value)),
         if zeroed then old(value) else old(oldValue),
         if zeroed && !IsOn(Animated) then 0.0 else old(currentValue),
         if zeroed && IsOn(Animated)
         then old(tweens) + [Tween(old(value), Clamp(minValue, maxValue, 0.0), animationDuration)]
         else old(tweens))
      ensures threshold ==
        (if originalThreshold < old(threshold) then Clamp(minValue, maxValue, old(threshold)) else old(threshold))
      ensures Emitted((if startFromZero && minValue < 0.0 then ValueSetterEvents(IsOn(Animated), 0.0 != old(value)) else []) +
                      (if originalThreshold < old(threshold) then [Resize] else []))
    {
      ghost var zeroing := if startFromZero && minValue < 0.0 then ValueSetterEvents(IsOn(Animated), 0.0 != value) else [];
      ghost var reclamping := if originalThreshold < threshold then [Resize] else [];
      ResetValueBelowZero();
      ghost var events1, calls1, snapshots1 := events, calls, snapshots;
      ReclampThreshold();
      LogTwo(old(events), old(calls), listeners, zeroing, reclamping, events1, calls1, events, calls);
      ExtendsTwice(old(snapshots), snapshots1, snapshots, |zeroing|, |reclamping|);
      value := Clamp(minValue, maxValue, value);
    }

    /** The first half of the `minValue` setter: store the argument, announce
        RECALC, and raise the maximum to it when it lies above. */
    method StoreMinValue(m: real)
      modifies this`minValue, this`maxValue, this`range, this`value, this`events, this`calls, this`snapshots
      ensures minValue == m
      ensures maxValue == (if m > old(maxValue) then m else old(maxValue))
      ensures range == maxValue - m
      ensures value == (if m > old(maxValue) then m else old(value))
      ensures Emitted([Recalc] + if m > old(maxValue) then [Recalc] else [])
      // The first RECALC sees the unclamped minimum and its range, which
      // may be negative; the raising one sees the two bounds equal.
      ensures snapshots[|old(snapshots)|] == Snapshot(old(value), m, old(maxValue), old(maxValue) - m)
      ensures m > old(maxValue) ==> snapshots[|old(snapshots)| + 1] == Snapshot(old(value), m, m, 0.0)
    {
      minValue := m;
      range := maxValue - minValue;
      FireUpdateEvent(Recalc);
      if m > maxValue {
        SetMaxValue(m);
        RoundsAppend(listeners, [Recalc], [Recalc]);
      } else {
        assert [Recalc] + [] == [Recalc];
      }
    }

    /** Clamps the stored minimum into [-MAX_VALUE, maxValue] and records it
        as the original minimum when none was recorded yet. */
    method ClampMinValue(m: real)
      modifies this`minValue, this`range, this`originalMinValue
      ensures minValue == Clamp(-MaxValue, maxValue, m) && range == maxValue - minValue
      ensures originalMinValue == (if old(originalMinValue) == -MaxValue then minValue else old(originalMinValue))
    {
      minValue := Clamp(-MaxValue, maxValue, m);
      range := maxValue - minValue;
      if originalMinValue == -MaxValue {
        originalMinValue := minValue;
      }
    }

    /** Sets the value to 0 through the `value` setter when the scale starts
        from zero and the minimum lies below it. */
    method ResetValueBelowZero()
      modifies this`oldValue, this`value, this`currentValue, this`tweens, this`events, this`calls, this`snapshots
      ensures var zeroed := startFromZero && minValue < 0.0;
        oldValue == (if zeroed then old(value) else old(oldValue)) &&
        value == (if zeroed then 0.0 else old(value)) &&
        currentValue == (if zeroed && !IsOn(Animated) then 0.0 else old(currentValue)) &&
        tweens == (if zeroed && IsOn(Animated)
                   then old(tweens) + [Tween(old(value), Clamp(minValue, maxValue, 0.0), animationDuration)]
                   else old(tweens))
      ensures Emitted(if startFromZero && minValue < 0.0 then ValueSetterEvents(IsOn(Animated), 0.0 != old(value)) else [])
    {
      if startFromZero && minValue < 0.0 {
        SetValue(0.0);
      } else {
        assert Rounds(listeners, []) == [];
      }
    }

    /** Re-clamps the threshold, through its setter, when it lies above the
        original threshold. */
    method ReclampThreshold()
      modifies this`threshold, this`events, this`calls, this`snapshots
      ensures threshold == (if originalThreshold < old(threshold) then Clamp(minValue, maxValue, old(threshold)) else old(threshold))
      ensures Emitted(if originalThreshold < old(threshold) then [Resize] else [])
    {
      if originalThreshold < threshold {
        SetThreshold(Clamp(minValue, maxValue, originalThreshold));
      } else {
        assert Rounds(listeners, []) == [];
      }
    }

    /** The `threshold` setter ignores its argument: it clamps the current
        threshold into [minValue, maxValue] and announces RESIZE. */
    method SetThreshold(t: real)
      modifies this`threshold, this`events, this`calls, this`snapshots
      ensures threshold == Clamp(minValue, maxValue, old(threshold))
      ensures Emitted([Resize])
    {
      threshold := Clamp(minValue, maxValue, threshold);
      FireUpdateEvent(Resize);
    }

    /** The `range` setter recomputes the angle step, announcing nothing. */
    method SetRange(r: real)
      modifies this`range, this`angleStep
      ensures range == r && angleStep == Divide(angleRange, r)
    {
      range := r;
      angleStep := Divide(angleRange, range);
    }

    method SetStartAngle(angle: real)
      modifies this`startAngle, this`events, this`calls, this`snapshots
      ensures startAngle == Clamp(0.0, 360.0, angle) && 0.0 <= startAngle <= 360.0
      ensures Emitted([Recalc])
    {
      startAngle := Clamp(0.0, 360.0, angle);
      FireUpdateEvent(Recalc);
    }

    method SetAngleRange(r: real)
      modifies this`angleRange, this`angleStep, this`events, this`calls, this`snapshots
      ensures angleRange == Clamp(0.0, 360.0, r) && 0.0 <= angleRange <= 360.0
      ensures angleStep == Divide(angleRange, range)
      ensures Emitted([Recalc])
    {
      angleRange := Clamp(0.0, 360.0, r);
      angleStep := Divide(angleRange, range);
      FireUpdateEvent(Recalc);
    }

    method SetAngleStep(step: real)
      modifies this`angleStep
      ensures angleStep == Finite(step)
    {
      angleStep := Finite(step);
    }

    method SetMinMeasuredValue(v: real)
      modifies this`minMeasuredValue
      ensures minMeasuredValue == v
    {
      minMeasuredValue := v;
    }

    method SetMaxMeasuredValue(v: real)
      modifies this`maxMeasuredValue
      ensures maxMeasuredValue == v
    {
      maxMeasuredValue := v;
    }

    /** Both measured extremes collapse onto the current value; no event. */
    method ResetMeasuredValues()
      modifies this`minMeasuredValue, this`maxMeasuredValue
      ensures minMeasuredValue == value && maxMeasuredValue == value
    {
      minMeasuredValue := value;
      maxMeasuredValue := value;
    }

    // ---- texts ----

    method SetTitle(t: string)
      modifies this`title, this`events, this`calls, this`snapshots
      ensures title == t && Emitted([Visibility])
    {
      title := t;
      FireUpdateEvent(Visibility);
    }

    method SetSubTitle(t: string)
      modifies this`subTitle, this`events, this`calls, this`snapshots
      ensures subTitle == t && Emitted([Visibility])
    {
      subTitle := t;
      FireUpdateEvent(Visibility);
    }

    method SetUnit(u: string)
      modifies this`unit, this`events, this`calls, this`snapshots
      ensures unit == u && Emitted([Visibility])
    {
      unit := u;
      FireUpdateEvent(Visibility);
    }

    method SetButtonTooltipText(t: string)
      modifies this`buttonTooltipText, this`events, this`calls, this`snapshots
      ensures buttonTooltipText == t && Emitted([Redraw])
    {
      buttonTooltipText := t;
      FireUpdateEvent(Redraw);
    }

    // ---- section lists, markers, custom tick labels ----

    method SetSections(kind: SectionKind, list: seq<Sections.Section>)
      modifies this`sectionLists, this`events, this`calls, this`snapshots
      ensures sectionLists == old(sectionLists)[kind := list]
      ensures Emitted([Section])
    {
      sectionLists := sectionLists[kind := list];
      FireUpdateEvent(Section);
    }

    /** `addSection` and its siblings: undefined is ignored without an event. */
    method AddSection(kind: SectionKind, s: Sections.Section?)
      requires Valid()
      modifies this`sectionLists, this`events, this`calls, this`snapshots
      ensures Valid()
      ensures s == null ==> sectionLists == old(sectionLists) && Emitted([])
      ensures s != null ==>
        sectionLists == old(sectionLists)[kind := old(sectionLists)[kind] + [s]] && Emitted([Section])
    {
      if s == null {
        return;
      }
      sectionLists := sectionLists[kind := sectionLists[kind] + [s]];
      FireUpdateEvent(Section);
    }

    /** `removeSection` and its siblings: the first identical section goes,
        and SECTION is announced whether or not one was found. */
    method RemoveSection(kind: SectionKind, s: Sections.Section?)
      requires Valid()
      modifies this`sectionLists, this`events, this`calls, this`snapshots
      ensures Valid()
      ensures s == null ==> sectionLists == old(sectionLists) && Emitted([])
      ensures s != null ==>
        sectionLists == old(sectionLists)[kind := RemoveFirst(old(sectionLists)[kind], s)] &&
        Emitted([Section])
    {
      if s == null {
        return;
      }
      var list := sectionLists[kind];
      var index := IndexOf(list, s);
      if index > -1 {
        sectionLists := sectionLists[kind := list[..index] + list[index + 1..]];
      }
      FireUpdateEvent(Section);
    }

    /** `clearSections` and its siblings: pop until empty, then announce. */
    method ClearSections(kind: SectionKind)
      requires Valid()
      modifies this`sectionLists, this`events, this`calls, this`snapshots
      ensures Valid()
      ensures sectionLists == old(sectionLists)[kind := []]
      ensures Emitted([Section])
    {
      while |sectionLists[kind]| > 0
        invariant kind in sectionLists
        invariant sectionLists == old(sectionLists)[kind := sectionLists[kind]]
        invariant events == old(events) && calls == old(calls) && snapshots == old(snapshots)
        decreases |sectionLists[kind]|
      {
        var list := sectionLists[kind];
        sectionLists := sectionLists[kind := list[..|list| - 1]];
      }
      FireUpdateEvent(Section);
    }

    method AddMarker(marker: object?)
      modifies this`markers, this`events, this`calls, this`snapshots
      ensures marker == null ==> markers == old(markers) && Emitted([])
      ensures marker != null ==> markers == old(markers) + [marker] && Emitted([Section])
    {
      if marker == null {
        return;
      }
      markers := markers + [marker];
      FireUpdateEvent(Section);
    }

    method RemoveMarker(marker: object?)
      modifies this`markers, this`events, this`calls, this`snapshots
      ensures marker == null ==> markers == old(markers) && Emitted([])
      ensures marker != null ==> markers == RemoveFirst(old(markers), marker) && Emitted([Section])
    {
      if marker == null {
        return;
      }
      var index := IndexOf(markers, marker);
      if index > -1 {
        markers := markers[..index] + markers[index + 1..];
      }
      FireUpdateEvent(Section);
    }

    /** `clearMarker` reads `this._markes`, which is undefined, so reading its
        length throws a TypeError before anything changes. */
    method ClearMarkers() returns (error: JsError)
      ensures error == TypeError
    {
      error := TypeError;
    }

    /** Assigning `markers` runs the later of the two `set markers`
        definitions, which replaces the custom tick labels. */
    method SetMarkers(labels: seq<string>)
      modifies this`customTickLabels, this`events, this`calls, this`snapshots
      ensures customTickLabels == labels && Emitted([Redraw])
    {
      customTickLabels := labels;
      FireUpdateEvent(Redraw);
    }

    method AddCustomTickLabel(tickLabel: Option<string>)
      modifies this`customTickLabels, this`events, this`calls, this`snapshots
      ensures tickLabel.None? ==> customTickLabels == old(customTickLabels) && Emitted([])
      ensures tickLabel.Some? ==> customTickLabels == old(customTickLabels) + [tickLabel.value] && Emitted([Redraw])
    {
      if tickLabel.None? {
        return;
      }
      customTickLabels := customTickLabels + [tickLabel.value];
      FireUpdateEvent(Redraw);
    }

    method RemoveCustomTickLabel(tickLabel: Option<string>)
      modifies this`customTickLabels, this`events, this`calls, this`snapshots
      ensures tickLabel.None? ==> customTickLabels == old(customTickLabels) && Emitted([])
      ensures tickLabel.Some? ==>
        customTickLabels == RemoveFirst(old(customTickLabels), tickLabel.value) && Emitted([Redraw])
    {
      if tickLabel.None? {
        return;
      }
      var index := IndexOf(customTickLabels, tickLabel.value);
      if index > -1 {
        customTickLabels := customTickLabels[..index] + customTickLabels[index + 1..];
      }
      FireUpdateEvent(Redraw);
    }

    /** Unlike its add and remove siblings this one announces SECTION. */
    method ClearCustomTickLabels()
      modifies this`customTickLabels, this`events, this`calls, this`snapshots
      ensures customTickLabels == [] && Emitted([Section])
    {
      while |customTickLabels| > 0
        invariant events == old(events) && calls == old(calls) && snapshots == old(snapshots)
        decreases |customTickLabels|
      {
        customTickLabels := customTickLabels[..|customTickLabels| - 1];
      }
      FireUpdateEvent(Section);
    }

    // ---- plain flags and colours ----

    method SetFlag(f: Flag, on: bool)
      modifies this`flags, this`events, this`calls, this`snapshots
      ensures flags == old(flags)[f := on]
      ensures Emitted(Fired(FlagEvent(f)))
    {
      flags := flags[f := on];
      if FlagEvent(f).Some? {
        FireUpdateEvent(FlagEvent(f).value);
      } else {
        assert events == old(events) + [] && calls == old(calls) + Rounds(listeners, []);
      }
    }

    method SetPaint(q: Paint, c: Color)
      requires Valid()
      modifies this`paints, this`events, this`calls, this`snapshots
      ensures Valid()
      ensures paints == old(paints)[q := c]
      ensures Emitted([PaintEvent(q)])
    {
      paints := paints[q := c];
      FireUpdateEvent(PaintEvent(q));
    }

    /** Ten colours at once, one REDRAW. */
    method SetForegroundBaseColor(c: Color)
      requires Valid()
      modifies this`paints, this`events, this`calls, this`snapshots
      ensures Valid()
      ensures forall q :: paints[q] == if q in ForegroundPaints then c else old(paints)[q]
      ensures Emitted([Redraw])
    {
      paints := paints[TitleColor := c][SubTitleColor := c][UnitColor := c][ValueColor := c]
                      [TickLabelColor := c][ZeroColor := c][TickMarkColor := c]
                      [MajorTickMarkColor := c][MediumTickMarkColor := c][MinorTickMarkColor := c];
      FireUpdateEvent(Redraw);
    }

    method SetNeedleBorderColor(c: Option<Color>)
      modifies this`needleBorderColor, this`events, this`calls, this`snapshots
      ensures needleBorderColor == OrElse(c, Transparent) && Emitted([Redraw])
    {
      needleBorderColor := if c.None? then Transparent else c.value;
      FireUpdateEvent(Redraw);
    }

    method SetBarBorderColor(c: Option<Color>)
      modifies this`barBorderColor, this`events, this`calls, this`snapshots
      ensures barBorderColor == OrElse(c, Transparent) && Emitted([Redraw])
    {
      barBorderColor := if c.None? then Transparent else c.value;
      FireUpdateEvent(Redraw);
    }

    /** The `ledColor` setter tests an undeclared `colors`: ReferenceError. */
    method SetLedColor(c: Option<Color>) returns (error: JsError)
      ensures error == ReferenceError
    {
      error := ReferenceError;
    }

    // ---- throwing setters ----

    /** Stores the flag, then calls the number `this._value`: TypeError. */
    method SetStartFromZero(on: bool) returns (error: JsError)
      modifies this`startFromZero
      ensures startFromZero == on && error == TypeError
    {
      startFromZero := on;
      error := TypeError;
    }

    /** For a minimum at or below 0 the setter reads the undeclared `istrue`
        and throws; above 0 it stores false and announces REDRAW. */
    method SetReturnToZero(on: bool) returns (error: Option<JsError>)
      modifies this`returnToZero, this`events, this`calls, this`snapshots
      ensures minValue <= 0.0 ==> error == Some(ReferenceError) && returnToZero == old(returnToZero) && Emitted([])
      ensures minValue > 0.0 ==> error.None? && !returnToZero && Emitted([Redraw])
    {
      if minValue <= 0.0 {
        return Some(ReferenceError);
      }
      returnToZero := false;
      FireUpdateEvent(Redraw);
      error := None;
    }

    /** Reads the undeclared `AUTO_SCALE` before anything else. */
    method SetAutoScale(on: bool) returns (error: JsError)
      ensures error == ReferenceError
    {
      error := ReferenceError;
    }

    /** Stores the flag, then calls an undeclared function either way. */
    method SetLedBlinking(on: bool) returns (error: JsError)
      modifies this`ledBlinking
      ensures ledBlinking == on && error == ReferenceError
    {
      ledBlinking := on;
      error := ReferenceError;
    }

    /** Defaults through the undeclared `LcdFont` for undefined, which throws. */
    method SetLcdFont(font: Option<LcdFont>) returns (error: Option<JsError>)
      modifies this`lcdFont, this`events, this`calls, this`snapshots
      ensures font.None? ==> error == Some(ReferenceError) && lcdFont == old(lcdFont) && Emitted([])
      ensures font.Some? ==> error.None? && lcdFont == font && Emitted([Redraw])
    {
      if font.None? {
        return Some(ReferenceError);
      }
      lcdFont := font;
      FireUpdateEvent(Redraw);
      error := None;
    }

    /** Two factor setters clamp into [0, 1]; the other four throw. */
    method SetTickMarkFactor(k: TickFactor, factor: real) returns (error: Option<JsError>)
      requires Valid()
      modifies this`factors, this`events, this`calls, this`snapshots
      ensures Valid()
      ensures FactorSetterThrows(k) ==> error == Some(ReferenceError) && factors == old(factors) && Emitted([])
      ensures !FactorSetterThrows(k) ==>
        error.None? && factors == old(factors)[k := Clamp(0.0, 1.0, factor)] &&
        0.0 <= factors[k] <= 1.0 && Emitted([Redraw])
    {
      if FactorSetterThrows(k) {
        return Some(ReferenceError);
      }
      factors := factors[k := Clamp(0.0, 1.0, factor)];
      FireUpdateEvent(Redraw);
      error := None;
    }

    // ---- clamped numbers ----

    method SetBorderWidth(width: real)
      modifies this`borderWidth, this`events, this`calls, this`snapshots
      ensures borderWidth == Clamp(0.0, 50.0, width) && 0.0 <= borderWidth <= 50.0
      ensures Emitted([Redraw])
    {
      borderWidth := Clamp(0.0, 50.0, width);
      FireUpdateEvent(Redraw);
    }

    /** Clamped into [10, 10000]; announces nothing. */
    method SetAnimationDuration(duration: real)
      modifies this`animationDuration
      ensures animationDuration == Clamp(10.0, 10000.0, duration) && 10.0 <= animationDuration <= 10000.0
    {
      animationDuration := Clamp(10.0, 10000.0, duration);
    }

    method SetDecimals(d: real)
      modifies this`decimals, this`events, this`calls, this`snapshots
      ensures decimals == Clamp(0.0, 6.0, d) && 0.0 <= decimals <= 6.0
      ensures Emitted([Redraw])
    {
      decimals := Clamp(0.0, 6.0, d);
      FireUpdateEvent(Redraw);
    }

    method SetTickLabelDecimals(d: real)
      modifies this`tickLabelDecimals, this`events, this`calls, this`snapshots
      ensures tickLabelDecimals == Clamp(0.0, 6.0, d) && 0.0 <= tickLabelDecimals <= 6.0
      ensures Emitted([Redraw])
    {
      tickLabelDecimals := Clamp(0.0, 6.0, d);
      FireUpdateEvent(Redraw);
    }

    method SetCustomTickLabelFontSize(size: real)
      modifies this`customTickLabelFontSize, this`events, this`calls, this`snapshots
      ensures customTickLabelFontSize == Clamp(0.0, 72.0, size) && 0.0 <= customTickLabelFontSize <= 72.0
      ensures Emitted([Redraw])
    {
      customTickLabelFontSize := Clamp(0.0, 72.0, size);
      FireUpdateEvent(Redraw);
    }

    method SetMajorTickSpace(space: real)
      modifies this`majorTickSpace, this`events, this`calls, this`snapshots
      ensures majorTickSpace == space && Emitted([Recalc])
    {
      majorTickSpace := space;
      FireUpdateEvent(Recalc);
    }

    method SetMinorTickSpace(space: real)
      modifies this`minorTickSpace, this`events, this`calls, this`snapshots
      ensures minorTickSpace == space && Emitted([Recalc])
    {
      minorTickSpace := space;
      FireUpdateEvent(Recalc);
    }

    // ---- styles: undefined selects the default ----

    method SetKnobType(t: Option<KnobType>)
      modifies this`knobType, this`events, this`calls, this`snapshots
      ensures knobType == OrElse(t, StandardKnob) && Emitted([Resize])
    {
      knobType := if t.None? then StandardKnob else t.value;
      FireUpdateEvent(Resize);
    }

    method SetKnobPosition(position: Pos)
      modifies this`knobPosition, this`events, this`calls, this`snapshots
      ensures knobPosition == position && Emitted([Resize])
    {
      knobPosition := position;
      FireUpdateEvent(Resize);
    }

    method SetScaleDirection(direction: Option<ScaleDirection>)
      modifies this`scaleDirection, this`events, this`calls, this`snapshots
      ensures scaleDirection == OrElse(direction, Clockwise) && Emitted([Recalc])
    {
      scaleDirection := if direction.None? then Clockwise else direction.value;
      FireUpdateEvent(Recalc);
    }

    method SetTickLabelLocation(location: Option<TickLabelLocation>)
      modifies this`tickLabelLocation, this`events, this`calls, this`snapshots
      ensures tickLabelLocation == OrElse(location, Inside) && Emitted([Redraw])
    {
      tickLabelLocation := if location.None? then Inside else location.value;
      FireUpdateEvent(Redraw);
    }

    method SetTickLabelOrientation(o: Option<TickLabelOrientation>)
      modifies this`tickLabelOrientation, this`events, this`calls, this`snapshots
      ensures tickLabelOrientation == OrElse(o, HorizontalLabel) && Emitted([Redraw])
    {
      tickLabelOrientation := if o.None? then HorizontalLabel else o.value;
      FireUpdateEvent(Redraw);
    }

    method SetTickMarkType(level: TickLevel, t: Option<TickMarkType>)
      requires Valid()
      modifies this`tickMarkTypes, this`events, this`calls, this`snapshots
      ensures Valid()
      ensures tickMarkTypes == old(tickMarkTypes)[level := OrElse(t, Line)] && Emitted([Redraw])
    {
      tickMarkTypes := tickMarkTypes[level := if t.None? then Line else t.value];
      FireUpdateEvent(Redraw);
    }

    method SetNeedleType(t: Option<NeedleType>)
      modifies this`needleType, this`events, this`calls, this`snapshots
      ensures needleType == OrElse(t, StandardNeedle) && Emitted([Resize])
    {
      needleType := if t.None? then StandardNeedle else t.value;
      FireUpdateEvent(Resize);
    }

    method SetNeedleShape(shape: Option<NeedleShape>)
      modifies this`needleShape, this`events, this`calls, this`snapshots
      ensures needleShape == OrElse(shape, Angled) && Emitted([Redraw])
    {
      needleShape := if shape.None? then Angled else shape.value;
      FireUpdateEvent(Redraw);
    }

    method SetNeedleSize(size: Option<NeedleSize>)
      modifies this`needleSize, this`events, this`calls, this`snapshots
      ensures needleSize == OrElse(size, StandardSize) && Emitted([Resize])
    {
      needleSize := if size.None? then StandardSize else size.value;
      FireUpdateEvent(Resize);
    }

    /** Announces nothing. */
    method SetNeedleBehavior(behavior: Option<NeedleBehavior>)
      modifies this`needleBehavior
      ensures needleBehavior == OrElse(behavior, StandardBehavior)
    {
      needleBehavior := if behavior.None? then StandardBehavior else behavior.value;
    }

    method SetLcdDesign(design: Option<LcdDesign>)
      modifies this`lcdDesign, this`events, this`calls, this`snapshots
      ensures lcdDesign == OrElse(design, StandardLcdDesign) && Emitted([Lcd])
    {
      lcdDesign := if design.None? then StandardLcdDesign else design.value;
      FireUpdateEvent(Lcd);
    }

    method SetLedType(t: Option<LedType>)
      modifies this`ledType, this`events, this`calls, this`snapshots
      ensures ledType == OrElse(t, StandardLed) && Emitted([Redraw])
    {
      ledType := if t.None? then StandardLed else t.value;
      FireUpdateEvent(Redraw);
    }

    method SetOrientation(o: Orientation)
      modifies this`orientation, this`events, this`calls, this`snapshots
      ensures orientation == o && Emitted([Resize])
    {
      orientation := o;
      FireUpdateEvent(Resize);
    }

    method SetGradientLookup(g: Option<GradientLookup>)
      modifies this`gradientLookup, this`events, this`calls, this`snapshots
      ensures gradientLookup == g && Emitted([Redraw])
    {
      gradientLookup := g;
      FireUpdateEvent(Redraw);
    }
  }
}
