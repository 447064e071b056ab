/** A value that may be absent: a JavaScript `null` or `undefined`. */
module Optional {
  datatype Option<+T> = None | Some(value: T)
}

/**
 * The narrative record the editor works on: a generated creative brief with a
 * title, a tagline and an image plan, plus the list position it was clicked at
 * and the product name stamped on it after generation.
 */
module Narratives {
  import opened Optional

  /** Vertical alignment: 'top' | 'middle' | 'bottom'. */
  datatype VAlign = Top | Middle | Bottom

  /** Horizontal alignment: 'left' | 'right' | 'center'. */
  datatype HAlign = Left | Right | Center

  /** Font names are opaque to this model. */
  type Font = string

  /** The text parts of a narrative (its title and its tagline). */
  datatype TextSpec = TextSpec(text: string, vertical_align: VAlign, horizontal_align: HAlign, font: Font)

  /** Where the product or the logo goes in the image. */
  datatype Placement = Placement(vertical_align: VAlign, horizontal_align: HAlign)

  datatype ImageSpec = ImageSpec(description: string, background: string, product: Placement, logo: Placement)

  datatype Narrative = Narrative(
    title: TextSpec,
    tagline: TextSpec,
    image: ImageSpec,
    index: int,
    productName: string)

  /** Narratives are persisted as four slots, narrative_0 .. narrative_3. */
  const SLOT_COUNT: nat := 4

  /** A list whose every entry is present. */
  function Present(list: seq<Narrative>): seq<Option<Narrative>>
  {
    seq(|list|, k requires 0 <= k < |list| => Some(list[k]))
  }

  /**
   * Entries 0, 1, 2, 3 of a JavaScript array, in that order; an index past the
   * end reads as `undefined`.
   */
  function FourSlots(list: seq<Option<Narrative>>): seq<Option<Narrative>>
  {
    seq(SLOT_COUNT, k requires 0 <= k < SLOT_COUNT => if k < |list| then list[k] else None)
  }
}
