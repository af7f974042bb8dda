/** The size helpers of the icon set (ui/src/icons/nexture-icons.tsx): a
    named or numeric icon size becomes pixels, and the pixel size picks the
    stroke width. Stroke widths are kept in hundredths of a pixel. */
module NextureIcons {
  import opened Common

  /** `'large' | 'medium' | 'small' | 'tiny' | number`; whole pixels only. */
  datatype IconSize = Large | Medium | Small | Tiny | Pixels(n: int)

  /** `sizeHelper`: a number passes through; `large` is 24, `small` and
      `tiny` are 16, and `medium` or no size is 20. */
  function SizeHelper(size: Option<IconSize>): (px: int)
    ensures size.Some? && size.value.Pixels? ==> px == size.value.n
    ensures size == Some(Large) ==> px == 24
    ensures size == Some(Small) || size == Some(Tiny) ==> px == 16
    ensures size == Some(Medium) || size.None? ==> px == 20
  {
    match size
    case Some(Pixels(n)) => n
    case Some(Large) => 24
    case Some(Small) => 16
    case Some(Tiny) => 16
    case _ => 20
  }

  /** `strokeSizeHelper`, in hundredths: 1.15 for exactly 32, 1.5 from 20
      up, 1.75 below. */
  function StrokeHundredths(size: int): (w: nat)
    ensures w == 115 <==> size == 32
    ensures w == 150 <==> size >= 20 && size != 32
    ensures w == 175 <==> size < 20
  {
    if size == 32 then 115
    else if size >= 20 then 150
    else 175
  }

  /** Named sizes (and no size) get 1.5 or 1.75, never 1.15; 1.75 exactly
      for the small ones. Only an explicit size of 32 gets 1.15. */
  lemma NamedStroke(size: Option<IconSize>)
    ensures size.None? || !size.value.Pixels? ==>
      var w := StrokeHundredths(SizeHelper(size));
      (w == 150 || w == 175) && (w == 175 <==> size == Some(Small) || size == Some(Tiny))
    ensures StrokeHundredths(SizeHelper(size)) == 115 <==> size == Some(Pixels(32))
  {
  }

  /** Apart from 32, a larger icon never gets a thicker stroke; 32 is a
      special case thinner than both its neighbours. */
  lemma StrokeMonotoneBesides32(a: int, b: int)
    requires a <= b && a != 32 && b != 32
    ensures StrokeHundredths(b) <= StrokeHundredths(a)
    ensures StrokeHundredths(32) < StrokeHundredths(31) && StrokeHundredths(32) < StrokeHundredths(33)
  {
  }
}
