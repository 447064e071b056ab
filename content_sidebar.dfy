/**
 * The content panel: loading the four stored narrative slots, generating a
 * fresh set of narratives (stamping the product name on each), selecting one
 * by clicking it, and offering the refine action.
 */
module ContentPanel {
  import opened Optional
  import opened Narratives
  import NarrativeForm

  /** The stored narrative row: four independently nullable serialized slots. */
  datatype StoredNarratives = StoredNarratives(
    narrative_0: Option<string>,
    narrative_1: Option<string>,
    narrative_2: Option<string>,
    narrative_3: Option<string>)

  function StoredSlot(data: StoredNarratives, k: nat): Option<string>
    requires k < SLOT_COUNT
  {
    if k == 0 then data.narrative_0
    else if k == 1 then data.narrative_1
    else if k == 2 then data.narrative_2
    else data.narrative_3
  }

  /**
   * JSON.parse on a stored slot. The encoding itself is left abstract in
   * `parse`; the one rule modelled is that a null slot is parsed as the empty
   * text, which is never valid JSON.
   */
  function DecodeSlot(slot: Option<string>, parse: string -> Option<Narrative>): (r: Option<Narrative>)
    ensures slot.None? ==> r.None?
    ensures slot.Some? && slot.value != "" ==> r == parse(slot.value)
    ensures r.Some? ==> slot.Some? && slot.value != ""
  {
    var text := if slot.None? then "" else slot.value;
    if text == "" then None else parse(text)
  }

  /**
   * The loading effect: the four slots decoded in order 0..3. Any slot that
   * fails (a null slot in particular) aborts the whole list.
   */
  function DecodeSlots(data: StoredNarratives, parse: string -> Option<Narrative>): (r: Option<seq<Narrative>>)
    ensures r.Some? <==> forall k :: 0 <= k < SLOT_COUNT ==> DecodeSlot(StoredSlot(data, k), parse).Some?
    ensures r.Some? ==> |r.value| == SLOT_COUNT
    ensures r.Some? ==> forall k :: 0 <= k < SLOT_COUNT ==> DecodeSlot(StoredSlot(data, k), parse) == Some(r.value[k])
    ensures (exists k :: 0 <= k < SLOT_COUNT && StoredSlot(data, k).None?) ==> r.None?
  {
    var d0 := DecodeSlot(data.narrative_0, parse);
    var d1 := DecodeSlot(data.narrative_1, parse);
    var d2 := DecodeSlot(data.narrative_2, parse);
    var d3 := DecodeSlot(data.narrative_3, parse);
    assert StoredSlot(data, 0) == data.narrative_0 && StoredSlot(data, 1) == data.narrative_1;
    assert StoredSlot(data, 2) == data.narrative_2 && StoredSlot(data, 3) == data.narrative_3;
    if d0.Some? && d1.Some? && d2.Some? && d3.Some? then
      Some([d0.value, d1.value, d2.value, d3.value])
    else
      None
  }

  /** Every narrative with `productName` set; nothing else about them changes. */
  function Stamped(list: seq<Narrative>, productName: string): (r: seq<Narrative>)
    ensures |r| == |list|
    ensures forall k :: 0 <= k < |list| ==> r[k].productName == productName
    ensures forall k :: 0 <= k < |list| ==>
      r[k].title == list[k].title && r[k].tagline == list[k].tagline &&
      r[k].image == list[k].image && r[k].index == list[k].index
    decreases |list|
  {
    if list == [] then [] else [list[0].(productName := productName)] + Stamped(list[1..], productName)
  }

  /** Stamping the same name twice is stamping it once. */
  lemma StampIsIdempotent(list: seq<Narrative>, productName: string)
    ensures Stamped(Stamped(list, productName), productName) == Stamped(list, productName)
  {
  }

  /** The product-name loop: writes `productName` into each narrative in place. */
  method StampProductName(narratives: array<Narrative>, productName: string)
    modifies narratives
    ensures narratives[..] == Stamped(old(narratives[..]), productName)
  {
    ghost var original := narratives[..];
    for i := 0 to narratives.Length
      invariant forall k :: 0 <= k < i ==> narratives[k] == original[k].(productName := productName)
      invariant forall k :: i <= k < narratives.Length ==> narratives[k] == original[k]
    {
      narratives[i] := narratives[i].(productName := productName);
    }
    var stamped := Stamped(original, productName);
    forall k | 0 <= k < narratives.Length
      ensures narratives[k] == stamped[k]
    {
    }
  }

  /**
   * The stored row the four emitted slots turn into, given the encoder the
   * save uses. Only a payload with all four slots present is stored: an
   * undefined slot drops its key from the request body, and the update route
   * (which wants a string for every slot) rejects it.
   */
  function Store(slots: seq<Option<Narrative>>, encode: Narrative -> string): (data: StoredNarratives)
    requires |slots| == SLOT_COUNT
    requires forall k :: 0 <= k < SLOT_COUNT ==> slots[k].Some?
  {
    StoredNarratives(Some(encode(slots[0].value)), Some(encode(slots[1].value)),
                     Some(encode(slots[2].value)), Some(encode(slots[3].value)))
  }

  /**
   * Saving an edited narrative and loading the slots back gives the list with
   * the clicked slot replaced, as long as all four slots exist and the
   * encoding round-trips.
   */
  lemma {:induction false} SaveThenLoad(generated: seq<Narrative>, selected: Narrative,
                                        encode: Narrative -> string, parse: string -> Option<Narrative>)
    requires 0 <= selected.index < SLOT_COUNT <= |generated|
    requires forall n :: encode(n) != "" && parse(encode(n)) == Some(n)
    ensures NarrativeForm.SavedSlots(generated, selected).Some?
    ensures DecodeSlots(Store(NarrativeForm.SavedSlots(generated, selected).value, encode), parse)
         == Some(generated[..SLOT_COUNT][selected.index := selected])
  {
    var slots := NarrativeForm.SavedSlots(generated, selected).value;
    var data := Store(slots, encode);
    var expected := generated[..SLOT_COUNT][selected.index := selected];
    forall k | 0 <= k < SLOT_COUNT
      ensures DecodeSlot(StoredSlot(data, k), parse) == Some(expected[k])
    {
      assert slots[k] == Some(expected[k]);
      assert StoredSlot(data, k) == Some(encode(expected[k]));
    }
    var r := DecodeSlots(data, parse);
    assert r.Some?;
    assert |r.value| == |expected|;
    forall k | 0 <= k < SLOT_COUNT
      ensures r.value[k] == expected[k]
    {
      assert DecodeSlot(StoredSlot(data, k), parse) == Some(r.value[k]);
    }
    assert r.value == expected;
  }

  /** A narrative tagged at its click position keeps that slot through any form edits. */
  lemma EditsKeepClickedSlot(generated: seq<Narrative>, i: nat, edits: seq<NarrativeForm.FormEdit>)
    requires i < |generated|
    ensures var edited := NarrativeForm.ApplyEdits(generated[i].(index := i), edits);
      var saved := NarrativeForm.SavedSlots(generated, edited);
      saved.Some? && (i < SLOT_COUNT ==> saved.value[i] == Some(edited))
  {
  }

  /** The content panel's state (the list and selection are shared with the edit form). */
  class ContentSession {
    var generated: seq<Narrative>
    var selected: Option<Narrative>
    /** Whether the edit form is open. */
    var editOpen: bool
    var loading: bool
    /** The last generation error, opaque. */
    var error: Option<string>

    constructor ()
      ensures generated == [] && selected == None && !editOpen && !loading && error == None
    {
      generated := [];
      selected := None;
      editOpen := false;
      loading := false;
      error := None;
    }

    /**
     * The stored row arrived (or not yet). Decoding it replaces the list; a
     * failed decode throws, and the list is left as it was.
     */
    method LoadStored(data: Option<StoredNarratives>, parse: string -> Option<Narrative>) returns (failed: bool)
      modifies this`generated
      ensures failed <==> data.Some? && DecodeSlots(data.value, parse).None?
      ensures data.Some? && !failed ==> generated == DecodeSlots(data.value, parse).value && |generated| == SLOT_COUNT
      ensures data.None? || failed ==> generated == old(generated)
    {
      failed := false;
      if data.Some? {
        var decoded := DecodeSlots(data.value, parse);
        if decoded.None? {
          return true;
        }
        generated := decoded.value;
      }
    }

    /**
     * The refine gate: the button shows inside the non-empty list, with a
     * narrative selected and more than one object on the canvas (the object
     * count is None when there is no canvas yet).
     */
    predicate RefineOffered(canvasObjects: Option<nat>)
      reads this
    {
      |generated| > 0 && selected.Some? && canvasObjects.Some? && canvasObjects.value > 1
    }

    /** Generation starts: loading on, the list emptied, selection and error cleared. */
    method BeginGeneration()
      modifies this`generated, this`selected, this`loading, this`error
      ensures loading && generated == [] && selected == None && error == None
      ensures forall c :: !RefineOffered(c)
    {
      loading := true;
      generated := [];
      selected := None;
      error := None;
    }

    /**
     * The generator answered with `narratives`: stamp the product name on each
     * in place, show them, and emit slots 0..3 for storage.
     */
    method CompleteGeneration(narratives: array<Narrative>, productName: string) returns (payload: seq<Option<Narrative>>)
      modifies this`generated, this`loading, narratives
      ensures narratives[..] == Stamped(old(narratives[..]), productName)
      ensures generated == narratives[..] && !loading
      ensures forall k :: 0 <= k < |generated| ==> generated[k].productName == productName
      // the emitted slots are narratives 0..3 in order, undefined past the end
      ensures |payload| == SLOT_COUNT
      ensures forall k :: 0 <= k < SLOT_COUNT ==> payload[k] == if k < |generated| then Some(generated[k]) else None
    {
      StampProductName(narratives, productName);
      generated := narratives[..];
      payload := FourSlots(Present(generated));
      loading := false;
    }

    /** The generator request failed: loading off and the error recorded. */
    method FailGeneration(err: string)
      modifies this`loading, this`error
      ensures !loading && error == Some(err)
    {
      loading := false;
      error := Some(err);
    }

    /**
     * The narrative at position `i` is clicked: it is tagged with `i` (the
     * list entry is the same object, so it is tagged too), selected, and the
     * edit form opens.
     */
    method SelectNarrative(i: nat)
      requires i < |generated|
      modifies this`generated, this`selected, this`editOpen
      ensures |generated| == |old(generated)|
      ensures generated[i] == old(generated)[i].(index := i)
      ensures forall k :: 0 <= k < |generated| && k != i ==> generated[k] == old(generated)[k]
      ensures selected == Some(generated[i]) && editOpen
      // after a click, refine hinges on the canvas alone
      ensures forall c :: RefineOffered(c) <==> c.Some? && c.value > 1
    {
      generated := generated[i := generated[i].(index := i)];
      selected := Some(generated[i]);
      editOpen := true;
    }
  }
}
