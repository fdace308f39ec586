/** `Section`: a value range of the scale with a label, a colour name and an
    icon, drawn by the skins and tested with `contains`. */
module Sections {
  import opened JsCore

  /** The constructor's `parameters` object; a missing property is None. */
  datatype SectionParams = SectionParams(
    start: Option<real>, stop: Option<real>,
    text: Option<string>, color: Option<string>, image: Option<string>)

  const NoSectionParams := SectionParams(None, None, None, None, None)

  const DefaultSectionColor: string := "rgb(200, 100, 0)"

  class Section {
    var start: real
    var stop: real
    var text: string
    var color: string
    var image: string

    /** `new Section(parameters)`: every property defaults through `||`, so
        a start or stop of 0 and an empty text, colour or image all take the
        default too. */
    constructor(p: SectionParams)
      ensures start == Or(p.start, 0.0) && stop == Or(p.stop, 0.0)
      ensures text == OrText(p.text, "") && color == OrText(p.color, DefaultSectionColor)
      ensures image == OrText(p.image, "")
    {
      start := Or(p.start, 0.0);
      stop := Or(p.stop, 0.0);
      text := OrText(p.text, "");
      color := OrText(p.color, DefaultSectionColor);
      image := OrText(p.image, "");
    }

    /** `contains(value)`: closed interval test, both ends included. */
    predicate Contains(value: real)
      reads this
    {
      start <= value && value <= stop
    }

    // The setters store their argument as given: no check that start <= stop.

    method SetStart(s: real)
      modifies this`start
      ensures start == s
    {
      start := s;
    }

    method SetStop(s: real)
      modifies this`stop
      ensures stop == s
    {
      stop := s;
    }

    method SetColor(c: string)
      modifies this`color
      ensures color == c
    {
      color := c;
    }

    method SetImage(i: string)
      modifies this`image
      ensures image == i
    {
      image := i;
    }
  }

  /** Both ends of a non-empty section belong to it; a section whose start
      lies after its stop contains nothing. */
  lemma ContainsEndpoints(s: Section, value: real)
    ensures s.start <= s.stop ==> s.Contains(s.start) && s.Contains(s.stop)
    ensures s.start > s.stop ==> !s.Contains(value)
  {
  }

  /** Membership is convex: anything between two members is a member. */
  lemma ContainsBetween(s: Section, a: real, b: real, value: real)
    requires s.Contains(a) && s.Contains(b) && a <= value <= b
    ensures s.Contains(value)
  {
  }

  /** The default section is the degenerate range [0, 0]: it holds 0 and
      nothing else. */
  lemma DefaultSectionHoldsOnlyZero(s: Section, value: real)
    requires s.start == Or(NoSectionParams.start, 0.0) && s.stop == Or(NoSectionParams.stop, 0.0)
    ensures s.Contains(value) <==> value == 0.0
  {
  }
}
