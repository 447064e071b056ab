/**
 * The narrative edit form: one handler per form control, each building a new
 * narrative with a single nested field replaced, and the save action that
 * writes the edited narrative into its slot and emits the four stored slots.
 */
module NarrativeForm {
  import opened Optional
  import opened Narratives

  /** Text specs that agree on everything but their text. */
  predicate SameStyle(a: TextSpec, b: TextSpec) {
    a.vertical_align == b.vertical_align && a.horizontal_align == b.horizontal_align && a.font == b.font
  }

  /** Narratives that agree on every field but `title`. */
  predicate SameExceptTitle(a: Narrative, b: Narrative) {
    a.tagline == b.tagline && a.image == b.image && a.index == b.index && a.productName == b.productName
  }

  /** Narratives that agree on every field but `tagline`. */
  predicate SameExceptTagline(a: Narrative, b: Narrative) {
    a.title == b.title && a.image == b.image && a.index == b.index && a.productName == b.productName
  }

  /** Narratives that agree on every field but `image`. */
  predicate SameExceptImage(a: Narrative, b: Narrative) {
    a.title == b.title && a.tagline == b.tagline && a.index == b.index && a.productName == b.productName
  }

  /** Image plans that agree on every field but the product placement. */
  predicate SameExceptProduct(a: ImageSpec, b: ImageSpec) {
    a.description == b.description && a.background == b.background && a.logo == b.logo
  }

  /** Image plans that agree on every field but the logo placement. */
  predicate SameExceptLogo(a: ImageSpec, b: ImageSpec) {
    a.description == b.description && a.background == b.background && a.product == b.product
  }

  // ----- Title controls

  function SetTitleText(n: Narrative, text: string): (r: Narrative)
    ensures r.title.text == text && SameStyle(r.title, n.title)
    ensures SameExceptTitle(r, n)
  {
    n.(title := n.title.(text := text))
  }

  function SetTitleVAlign(n: Narrative, v: VAlign): (r: Narrative)
    ensures r.title.vertical_align == v
    ensures r.title.text == n.title.text && r.title.horizontal_align == n.title.horizontal_align && r.title.font == n.title.font
    ensures SameExceptTitle(r, n)
  {
    n.(title := n.title.(vertical_align := v))
  }

  function SetTitleHAlign(n: Narrative, h: HAlign): (r: Narrative)
    ensures r.title.horizontal_align == h
    ensures r.title.text == n.title.text && r.title.vertical_align == n.title.vertical_align && r.title.font == n.title.font
    ensures SameExceptTitle(r, n)
  {
    n.(title := n.title.(horizontal_align := h))
  }

  function SetTitleFont(n: Narrative, f: Font): (r: Narrative)
    ensures r.title.font == f
    ensures r.title.text == n.title.text && r.title.vertical_align == n.title.vertical_align && r.title.horizontal_align == n.title.horizontal_align
    ensures SameExceptTitle(r, n)
  {
    n.(title := n.title.(font := f))
  }

  // ----- Tagline controls

  /**
   * The tagline's text control writes into `title`: the title becomes a copy
   * of the tagline carrying the typed text, and the tagline stays as it was.
   */
  function SetTaglineText(n: Narrative, text: string): (r: Narrative)
    ensures r.title.text == text && SameStyle(r.title, n.tagline)
    ensures r.tagline == n.tagline
    ensures SameExceptTitle(r, n)
  {
    n.(title := n.tagline.(text := text))
  }

  function SetTaglineVAlign(n: Narrative, v: VAlign): (r: Narrative)
    ensures r.tagline.vertical_align == v
    ensures r.tagline.text == n.tagline.text && r.tagline.horizontal_align == n.tagline.horizontal_align && r.tagline.font == n.tagline.font
    ensures SameExceptTagline(r, n)
  {
    n.(tagline := n.tagline.(vertical_align := v))
  }

  function SetTaglineHAlign(n: Narrative, h: HAlign): (r: Narrative)
    ensures r.tagline.horizontal_align == h
    ensures r.tagline.text == n.tagline.text && r.tagline.vertical_align == n.tagline.vertical_align && r.tagline.font == n.tagline.font
    ensures SameExceptTagline(r, n)
  {
    n.(tagline := n.tagline.(horizontal_align := h))
  }

  function SetTaglineFont(n: Narrative, f: Font): (r: Narrative)
    ensures r.tagline.font == f
    ensures r.tagline.text == n.tagline.text && r.tagline.vertical_align == n.tagline.vertical_align && r.tagline.horizontal_align == n.tagline.horizontal_align
    ensures SameExceptTagline(r, n)
  {
    n.(tagline := n.tagline.(font := f))
  }

  // ----- Product and logo placement controls

  function SetProductVAlign(n: Narrative, v: VAlign): (r: Narrative)
    ensures r.image.product.vertical_align == v && r.image.product.horizontal_align == n.image.product.horizontal_align
    ensures SameExceptProduct(r.image, n.image) && SameExceptImage(r, n)
  {
    n.(image := n.image.(product := n.image.product.(vertical_align := v)))
  }

  function SetProductHAlign(n: Narrative, h: HAlign): (r: Narrative)
    ensures r.image.product.horizontal_align == h && r.image.product.vertical_align == n.image.product.vertical_align
    ensures SameExceptProduct(r.image, n.image) && SameExceptImage(r, n)
  {
    n.(image := n.image.(product := n.image.product.(horizontal_align := h)))
  }

  function SetLogoVAlign(n: Narrative, v: VAlign): (r: Narrative)
    ensures r.image.logo.vertical_align == v && r.image.logo.horizontal_align == n.image.logo.horizontal_align
    ensures SameExceptLogo(r.image, n.image) && SameExceptImage(r, n)
  {
    n.(image := n.image.(logo := n.image.logo.(vertical_align := v)))
  }

  function SetLogoHAlign(n: Narrative, h: HAlign): (r: Narrative)
    ensures r.image.logo.horizontal_align == h && r.image.logo.vertical_align == n.image.logo.vertical_align
    ensures SameExceptLogo(r.image, n.image) && SameExceptImage(r, n)
  {
    n.(image := n.image.(logo := n.image.logo.(horizontal_align := h)))
  }

  // ----- The form as a whole

  /** Every action the form offers. Description and background have no control. */
  datatype FormEdit =
    | TitleText(text: string)
    | TitleVAlign(v: VAlign)
    | TitleHAlign(h: HAlign)
    | TitleFont(f: Font)
    | TaglineText(text: string)
    | TaglineVAlign(v: VAlign)
    | TaglineHAlign(h: HAlign)
    | TaglineFont(f: Font)
    | ProductVAlign(v: VAlign)
    | ProductHAlign(h: HAlign)
    | LogoVAlign(v: VAlign)
    | LogoHAlign(h: HAlign)

  /** The narrative the form holds after one edit. */
  function ApplyEdit(n: Narrative, e: FormEdit): (r: Narrative)
    // no control reaches the image description, the background, the list
    // position or the product name
    ensures r.image.description == n.image.description && r.image.background == n.image.background
    ensures r.index == n.index && r.productName == n.productName
    // every edit touches exactly one of title, tagline and image
    ensures SameExceptTitle(r, n) || SameExceptTagline(r, n) || SameExceptImage(r, n)
  {
    match e
    case TitleText(t) => SetTitleText(n, t)
    case TitleVAlign(v) => SetTitleVAlign(n, v)
    case TitleHAlign(h) => SetTitleHAlign(n, h)
    case TitleFont(f) => SetTitleFont(n, f)
    case TaglineText(t) => SetTaglineText(n, t)
    case TaglineVAlign(v) => SetTaglineVAlign(n, v)
    case TaglineHAlign(h) => SetTaglineHAlign(n, h)
    case TaglineFont(f) => SetTaglineFont(n, f)
    case ProductVAlign(v) => SetProductVAlign(n, v)
    case ProductHAlign(h) => SetProductHAlign(n, h)
    case LogoVAlign(v) => SetLogoVAlign(n, v)
    case LogoHAlign(h) => SetLogoHAlign(n, h)
  }

  /** The narrative after a series of edits, in the order they were made. */
  function ApplyEdits(n: Narrative, edits: seq<FormEdit>): (r: Narrative)
    ensures r.image.description == n.image.description && r.image.background == n.image.background
    ensures r.index == n.index && r.productName == n.productName
    decreases |edits|
  {
    if edits == [] then n else ApplyEdits(ApplyEdit(n, edits[0]), edits[1..])
  }

  /** The edit of the same control that puts back the value `n` had. */
  function Undo(n: Narrative, e: FormEdit): (u: FormEdit)
  {
    match e
    case TitleText(_) => TitleText(n.title.text)
    case TitleVAlign(_) => TitleVAlign(n.title.vertical_align)
    case TitleHAlign(_) => TitleHAlign(n.title.horizontal_align)
    case TitleFont(_) => TitleFont(n.title.font)
    case TaglineText(_) => TaglineText(n.tagline.text)
    case TaglineVAlign(_) => TaglineVAlign(n.tagline.vertical_align)
    case TaglineHAlign(_) => TaglineHAlign(n.tagline.horizontal_align)
    case TaglineFont(_) => TaglineFont(n.tagline.font)
    case ProductVAlign(_) => ProductVAlign(n.image.product.vertical_align)
    case ProductHAlign(_) => ProductHAlign(n.image.product.horizontal_align)
    case LogoVAlign(_) => LogoVAlign(n.image.logo.vertical_align)
    case LogoHAlign(_) => LogoHAlign(n.image.logo.horizontal_align)
  }

  /** Applying the same edit twice is applying it once. */
  lemma EditIsIdempotent(n: Narrative, e: FormEdit)
    ensures ApplyEdit(ApplyEdit(n, e), e) == ApplyEdit(n, e)
  {
  }

  /** Setting a control back to its old value restores the narrative, except for the tagline text. */
  lemma UndoRestores(n: Narrative, e: FormEdit)
    requires !e.TaglineText?
    ensures ApplyEdit(ApplyEdit(n, e), Undo(n, e)) == n
  {
  }

  /** The form control an edit comes from. */
  function Control(e: FormEdit): nat
  {
    match e
    case TitleText(_) => 0
    case TitleVAlign(_) => 1
    case TitleHAlign(_) => 2
    case TitleFont(_) => 3
    case TaglineText(_) => 4
    case TaglineVAlign(_) => 5
    case TaglineHAlign(_) => 6
    case TaglineFont(_) => 7
    case ProductVAlign(_) => 8
    case ProductHAlign(_) => 9
    case LogoVAlign(_) => 10
    case LogoHAlign(_) => 11
  }

  /**
   * Edits from two different controls commute, except for the tagline text box:
   * it copies the whole tagline into the title, so its order against every
   * title and tagline control matters.
   */
  lemma EditsCommute(n: Narrative, e1: FormEdit, e2: FormEdit)
    requires Control(e1) != Control(e2) && !e1.TaglineText? && !e2.TaglineText?
    ensures ApplyEdit(ApplyEdit(n, e1), e2) == ApplyEdit(ApplyEdit(n, e2), e1)
  {
  }

  /** Order matters around the tagline text box: a tagline font set after it does not reach the title. */
  lemma TaglineTextOrderMatters(n: Narrative, text: string, f: Font)
    requires f != n.tagline.font
    ensures ApplyEdit(ApplyEdit(n, TaglineText(text)), TaglineFont(f))
         != ApplyEdit(ApplyEdit(n, TaglineFont(f)), TaglineText(text))
  {
    assert ApplyEdit(ApplyEdit(n, TaglineText(text)), TaglineFont(f)).title.font == n.tagline.font;
  }

  /**
   * Typing into the tagline box never changes the tagline, and keeps the title
   * only when the title already equals the tagline with the typed text.
   */
  lemma TaglineTextReplacesTitle(n: Narrative, text: string)
    ensures ApplyEdit(n, TaglineText(text)).tagline == n.tagline
    ensures ApplyEdit(n, TaglineText(text)) == n <==> n.title == n.tagline.(text := text)
  {
  }

  // ----- Save

  /**
   * `[...generated]` after `updated[index] = selected`, read with JavaScript
   * array semantics: an index at or past the end grows the array with
   * `undefined` holes, and a negative index writes a non-index property,
   * leaving the entries as they were.
   */
  function UpdatedList(generated: seq<Narrative>, selected: Narrative): (r: seq<Option<Narrative>>)
    ensures |r| == if selected.index >= |generated| then selected.index + 1 else |generated|
    ensures forall k :: 0 <= k < |r| ==>
      r[k] == if k == selected.index then Some(selected) else if k < |generated| then Some(generated[k]) else None
  {
    var index := selected.index;
    if index < 0 then Present(generated)
    else if index < |generated| then Present(generated)[index := Some(selected)]
    else Present(generated) + seq(index - |generated|, _ => None) + [Some(selected)]
  }

  /**
   * What the save button persists: nothing when the narrative carries index
   * -1; otherwise entries 0..3 of the updated list, in order.
   */
  function SavedSlots(generated: seq<Narrative>, selected: Narrative): (r: Option<seq<Option<Narrative>>>)
    ensures r.None? <==> selected.index == -1
    ensures r.Some? ==> |r.value| == SLOT_COUNT
    ensures r.Some? ==> forall k :: 0 <= k < SLOT_COUNT ==>
      r.value[k] == if k == selected.index then Some(selected) else if k < |generated| then Some(generated[k]) else None
  {
    if selected.index == -1 then None else Some(FourSlots(UpdatedList(generated, selected)))
  }

  /**
   * The save handler: copy the generated list into a fresh array, assign the
   * edited narrative at its index, and emit slots 0..3. The input list is a
   * value and cannot change.
   */
  method SaveNarrative(generated: seq<Narrative>, selected: Narrative) returns (payload: Option<seq<Option<Narrative>>>)
    ensures payload == SavedSlots(generated, selected)
  {
    var index := selected.index;
    if index == -1 {
      return None;
    }
    var length := if index >= |generated| then index + 1 else |generated|;
    var updated := new Option<Narrative>[length](_ => None);
    var i := 0;
    while i < |generated|
      invariant 0 <= i <= |generated|
      invariant forall k :: 0 <= k < i ==> updated[k] == Some(generated[k])
      invariant forall k :: i <= k < length ==> updated[k] == None
    {
      updated[i] := Some(generated[i]);
      i := i + 1;
    }
    if index >= 0 {
      updated[index] := Some(selected);
    }
    assert updated[..] == UpdatedList(generated, selected);
    payload := Some(FourSlots(updated[..]));
  }
}
