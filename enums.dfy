/** The frozen option tables the gauge model stores: needle, knob, LED,
    scale, tick mark and layout styles. Each constructor stands for the
    string (or, for `NeedleSize`, the record) the table maps it to. */
module Styles {

  datatype NeedleType = BigNeedle | FatNeedle | StandardNeedle | ScientificNeedle | AvionicNeedle | VariometerNeedle

  datatype NeedleShape = Angled | Round | FlatShape

  /** `NeedleSize` entries are records with a width factor. */
  datatype NeedleSize = Thin | StandardSize | Thick

  function NeedleSizeFactor(s: NeedleSize): (f: real)
    ensures 0.0 < f < 0.1
  {
    match s
    case Thin => 0.015
    case StandardSize => 0.025
    case Thick => 0.05
  }

  datatype NeedleBehavior = StandardBehavior | Optimized

  datatype KnobType = StandardKnob | PlainKnob | MetalKnob | FlatKnob

  datatype LedType = StandardLed | FlatLed

  datatype ScaleDirection = Clockwise | CounterClockwise | LeftToRight | RightToLeft | BottomToTop | TopToBottom

  datatype TickMarkType = Line | Dot | Trapezoid | Triangle | Box | TickLabel | Pill

  /** `TickLabelOrientation.HORIZONTAL` and `Orientation.HORIZONTAL` are the
      same string, 'horizontal'. */
  datatype TickLabelOrientation = HorizontalLabel | Orthogonal | Tangent

  datatype TickLabelLocation = Inside | Outside

  datatype Orientation = Horizontal | Vertical

  /** `Pos` has nine keys but eight values: BOTTOM_CENTER maps to
      'bottomLeft', the same string as BOTTOM_LEFT. */
  datatype Pos = TopLeft | TopCenter | TopRight | CenterLeft | Center | CenterRight | BottomLeft | BottomRight

  const BottomCenter: Pos := BottomLeft

  function PosName(p: Pos): string {
    match p
    case TopLeft => "topLeft"
    case TopCenter => "topCenter"
    case TopRight => "topRight"
    case CenterLeft => "centerLeft"
    case Center => "center"
    case CenterRight => "centerRight"
    case BottomLeft => "bottomLeft"
    case BottomRight => "bottomRight"
  }

  /** Asking for BOTTOM_CENTER yields BOTTOM_LEFT: the two are
      indistinguishable, and no value names the bottom centre. */
  lemma BottomCenterIsBottomLeft()
    ensures BottomCenter == BottomLeft && PosName(BottomCenter) == "bottomLeft"
    ensures forall p: Pos :: PosName(p) != "bottomCenter"
  {
  }

  /** `NumberFormat`: AUTO and STANDARD are the same pattern, '0'. */
  datatype NumberFormat = StandardFormat | Fractional | Scientific | Percentage

  const AutoFormat: NumberFormat := StandardFormat

  function FormatPattern(f: NumberFormat): string {
    match f
    case StandardFormat => "0"
    case Fractional => "0.0#"
    case Scientific => "0.##E0"
    case Percentage => "##0.0%"
  }

  /** The pattern determines the format: patterns are pairwise distinct. */
  lemma FormatPatternsDistinct(a: NumberFormat, b: NumberFormat)
    ensures FormatPattern(a) == FormatPattern(b) ==> a == b
    ensures FormatPattern(AutoFormat) == "0"
  {
  }

  /** `LcdFonts` keys. The table has no DIGITALBOLD key (it is spelled
      DIGITAL_BOLD), which matters for the constructor default. */
  datatype LcdFont = StandardFont | LcdStyleFont | Digital | DigitalBold | Elektra

  /** An LCD design, known by its `LcdDesigns` key. */
  type LcdDesign = string

  const StandardLcdDesign: LcdDesign := "STANDARD"
}
