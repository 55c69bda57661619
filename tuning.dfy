/**
 The tuning reading shown next to a detected note: the detune in cents (an
 integer, the floor of the cents computation in pitchtrack.js) is classified as flat,
 sharp or in tune. pitchtrack.js first picks flat or sharp by the sign and then
 overrides both with "in tune" inside the ±10 cent band.
 */
module Tuning {

  /** Half-width, in cents, of the band that counts as in tune (exclusive). */
  const InTuneBand: int := 10

  datatype Warning = Flat | Sharp | InTune {
    /** The text the display shows. */
    function Text(): string {
      match this
      case Flat => "FLAT"
      case Sharp => "SHARP"
      case InTune => "IN TUNE"
    }

    /** The style class the display element gets: the text in lower case, with the space hyphenated. */
    function ClassName(): (c: string)
      ensures |c| == |Text()|
      ensures forall i :: 0 <= i < |c| ==> c[i] == StyleChar(Text()[i])
    {
      match this
      case Flat => "flat"
      case Sharp => "sharp"
      case InTune => "in-tune"
    }
  }

  /** How a character of the display text appears in the style class: capitals lowered, spaces made hyphens. */
  function StyleChar(ch: char): char {
    if ch == ' ' then '-'
    else if 'A' <= ch <= 'Z' then (ch as int - 'A' as int + 'a' as int) as char
    else ch
  }

  /**
   The warning for a detune: strictly inside (-10, 10) is in tune, whatever
   the sign; otherwise a negative detune is flat and everything else, 10 and
   above, is sharp.
   */
  function DetuneWarning(detune: int): (w: Warning)
    ensures w == InTune <==> -InTuneBand < detune < InTuneBand
    ensures w == Flat <==> detune <= -InTuneBand
    ensures w == Sharp <==> detune >= InTuneBand
  {
    var bySign := if detune < 0 then Flat else Sharp;
    if detune > -InTuneBand && detune < InTuneBand then InTune else bySign
  }

  /** The bands are symmetric: negating the detune swaps flat and sharp and keeps in tune. */
  lemma WarningIsSymmetric(detune: int)
    ensures DetuneWarning(-detune) == match DetuneWarning(detune)
      case Flat => Sharp
      case Sharp => Flat
      case InTune => InTune
  {
  }
}
