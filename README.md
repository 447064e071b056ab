# Editor state logic of the poster editor

This project models the client-side editor state of a browser-based poster and ad
editor. It covers four components:

- **Active tool** (`editor.tsx`). The editor keeps an active sidebar tool, an AI-edit-mode
  flag and the canvas's freehand drawing mode. A tool request runs a sequence of
  conditional setters, and the last setter wins. In AI mode only `ai` and `select` are
  taken. Re-clicking the active tool falls back to `select`. Leaving `draw` turns
  drawing off. Clearing the canvas selection drops a selection-dependent tool.
- **Narrative edit form** (`edit-narrative.tsx`). A narrative is a creative brief: a
  title and a tagline (each with text, vertical and horizontal alignment and a font),
  an image plan (description, background, product and logo placement), its list
  position `index` and a `productName`. Each form control builds a new narrative with
  one nested field replaced. The tagline's text box writes into `title`, as the source
  does: the title becomes a copy of the tagline with the typed text. Saving copies the
  generated list, writes the edited narrative at its `index` with JavaScript array
  semantics, and emits slots 0..3.
- **Content panel** (`content-sidebar.tsx`). It decodes the four stored, nullable
  slots; a null slot is parsed as `""`, which fails, so the whole load fails. Starting
  a generation resets loading, the list, the selection and the error. A successful
  generation stamps the product name onto every narrative in place and emits the four
  slots. Clicking a narrative tags it with its list position and selects it. The
  refine button needs a selection and more than one canvas object.
- **AI status log** (`ai-sidebar.tsx`). Update events are prepended to a log and a
  parallel list of show-more flags. The flag list starts as `[false]` and is meant to stay
  one longer than the log (see Left out). A toggle flips one flag. A status over 300 characters shows its
  first 300 characters while collapsed.

Modules: `Optional` and `Narratives` (`narrative.dfy`), `EditorTools` (`editor.dfy`),
`NarrativeForm` (`edit_narrative.dfy`), `ContentPanel` (`content_sidebar.dfy`) and
`AiStatus` (`ai_sidebar.dfy`). State that the components update in place is a
class: `EditorSession`, `ContentSession` and `StatusLog`. The record updates are
functions. The save handler and the product-name loop are methods with loops over
arrays.

The tagline text box writes the title, not the tagline; the model reproduces this.
`TaglineTextReplacesTitle` and `TaglineTextOrderMatters` state its consequences.

## Model

| member | source | states |
|---|---|---|
| `EditorTools.NextTool` | src/features/editor/components/editor.tsx:87-109 | Re-requesting the active tool gives `select`. Outside AI mode a different tool is taken as asked, and the result is `select` exactly when select was asked for or re-clicked. In AI mode the tool moves only to `ai` or `select`, and any other new request leaves it unchanged. |
| `EditorTools.NextDrawingMode` | src/features/editor/components/editor.tsx:94-100 | Requesting draw turns drawing on. Any request made while draw is active turns it off. Other requests leave it alone. AI mode or a missing canvas never touches it. |
| `EditorTools.DrawingFollowsDrawTool` | src/features/editor/components/editor.tsx:94-106 | Outside AI mode, "drawing is on exactly while draw is active" is preserved by every request. |
| `EditorTools.ReclickDrawEndsDrawing` | src/features/editor/components/editor.tsx:94-104 | Re-clicking draw ends with tool `select` and drawing off. |
| `EditorTools.AiModeBreaksDrawingConsistency` | src/features/editor/components/editor.tsx:89-93 | A session that was consistent, with draw active and drawing on, switches to AI mode and asks for select. It ends with select active and drawing still on, so "drawing exactly while draw is active" no longer holds. This is why `ChangeActiveTool` keeps that invariant only outside AI mode. |
| `EditorTools.ClickTwiceReturnsToSelect` | src/features/editor/components/editor.tsx:102-106 | Outside AI mode, clicking the same new tool twice returns to `select`. |
| `EditorTools.EditorSession.constructor` | src/features/editor/components/editor.tsx:50-82 | Starts on `select`, not in AI mode, not drawing, with a canvas of 832×1152 and all five refinement-loop switches on. |
| `EditorTools.EditorSession.AttachCanvas` | src/features/editor/components/editor.tsx:114-123 | After the canvas is created, drawing calls take effect. A fresh canvas is not drawing. |
| `EditorTools.EditorSession.SetAiEditMode` | src/features/editor/components/editor.tsx:50 | Sets the AI-edit-mode flag. |
| `EditorTools.EditorSession.ChangeActiveTool` | src/features/editor/components/editor.tsx:87-109 | The conditional setters, last write wins, compared against the tool active when the request was made. The new tool and drawing mode equal `NextTool` and `NextDrawingMode`. Outside AI mode, drawing consistency is kept. |
| `EditorTools.EditorSession.ClearSelection` | src/features/editor/components/editor.tsx:73-77 | The tool resets to `select` exactly when it is selection-dependent. Otherwise it is unchanged. |
| `EditorTools.EditorSession.CloseSidebar` | src/features/editor/components/ai-sidebar.tsx:26-28 | Closing a sidebar always ends on `select`, in both modes. Drawing turns off only if draw was active outside AI mode. |
| `NarrativeForm.SetTitleText` | src/features/editor/components/edit-narrative.tsx:126-133 | Title text set. The title's style and every other field are unchanged. |
| `NarrativeForm.SetTitleVAlign` | src/features/editor/components/edit-narrative.tsx:144-151 | Title vertical alignment set. Nothing else changes. |
| `NarrativeForm.SetTitleHAlign` | src/features/editor/components/edit-narrative.tsx:173-180 | Title horizontal alignment set. Nothing else changes. |
| `NarrativeForm.SetTitleFont` | src/features/editor/components/edit-narrative.tsx:202-209 | Title font set. Nothing else changes. |
| `NarrativeForm.SetTaglineText` | src/features/editor/components/edit-narrative.tsx:236-243 | The title becomes the tagline's style with the typed text. The tagline itself and all other fields are unchanged. |
| `NarrativeForm.SetTaglineVAlign` | src/features/editor/components/edit-narrative.tsx:254-261 | Tagline vertical alignment set. Nothing else changes. |
| `NarrativeForm.SetTaglineHAlign` | src/features/editor/components/edit-narrative.tsx:283-290 | Tagline horizontal alignment set. Nothing else changes. |
| `NarrativeForm.SetTaglineFont` | src/features/editor/components/edit-narrative.tsx:312-319 | Tagline font set. Nothing else changes. |
| `NarrativeForm.SetProductVAlign` | src/features/editor/components/edit-narrative.tsx:365-376 | Product vertical placement set. Description, background, logo and the rest of the narrative are unchanged. |
| `NarrativeForm.SetProductHAlign` | src/features/editor/components/edit-narrative.tsx:397-408 | Product horizontal placement set. Nothing else changes. |
| `NarrativeForm.SetLogoVAlign` | src/features/editor/components/edit-narrative.tsx:433-444 | Logo vertical placement set. Description, background, product and the rest are unchanged. |
| `NarrativeForm.SetLogoHAlign` | src/features/editor/components/edit-narrative.tsx:465-476 | Logo horizontal placement set. Nothing else changes. |
| `NarrativeForm.ApplyEdit` | src/features/editor/components/edit-narrative.tsx:343-357 | No form action changes the image description or background, which have no change handler. The index and product name never change either. Each action changes only one of title, tagline or image. |
| `NarrativeForm.ApplyEdits` | src/features/editor/components/edit-narrative.tsx:126-476 | Any series of form actions keeps the description, background, index and product name. |
| `NarrativeForm.EditIsIdempotent` | src/features/editor/components/edit-narrative.tsx:126-476 | Applying the same form action twice equals applying it once. |
| `NarrativeForm.UndoRestores` | src/features/editor/components/edit-narrative.tsx:126-476 | Setting any control other than the tagline text back to its old value restores the narrative. |
| `NarrativeForm.EditsCommute` | src/features/editor/components/edit-narrative.tsx:126-476 | Actions on two different controls commute, when neither is the tagline text box. |
| `NarrativeForm.TaglineTextOrderMatters` | src/features/editor/components/edit-narrative.tsx:236-261 | With the tagline text box, order matters: a tagline font set afterwards does not reach the title. |
| `NarrativeForm.TaglineTextReplacesTitle` | src/features/editor/components/edit-narrative.tsx:236-243 | The tagline text box never changes the tagline. It leaves the narrative unchanged exactly when the title already equals the tagline with the typed text. |
| `NarrativeForm.UpdatedList` | src/features/editor/components/edit-narrative.tsx:499-503 | The copied list with slot `index` set to the selected narrative. Every other entry is equal. An index past the end grows the list with holes. A negative index leaves the entries unchanged. |
| `NarrativeForm.SavedSlots` | src/features/editor/components/edit-narrative.tsx:499-521 | With `index == -1` nothing is persisted. Otherwise the payload is entries 0,1,2,3 of the updated list, in order. |
| `NarrativeForm.SaveNarrative` | src/features/editor/components/edit-narrative.tsx:498-521 | Copies into a fresh array and assigns in place. The payload it emits is exactly `SavedSlots`. |
| `ContentPanel.DecodeSlot` | src/features/editor/components/content-sidebar.tsx:87-90 | A null slot fails to decode, because it is parsed as `""`. A stored empty string fails too. A non-empty slot decodes with the JSON parser. |
| `ContentPanel.DecodeSlots` | src/features/editor/components/content-sidebar.tsx:84-94 | Loading succeeds exactly when all four slots decode. The result is the four narratives in slot order 0..3. Any null slot fails the whole load. |
| `ContentPanel.Stamped` | src/features/editor/components/content-sidebar.tsx:122-123 | Every narrative gets the entered product name. Title, tagline, image and index are unchanged, as is the list length. |
| `ContentPanel.StampIsIdempotent` | src/features/editor/components/content-sidebar.tsx:122-123 | Stamping twice with the same name is stamping once. |
| `ContentPanel.StampProductName` | src/features/editor/components/content-sidebar.tsx:122-123 | The in-place `for…in` loop leaves the array equal to `Stamped` of its old contents. |
| `ContentPanel.SaveThenLoad` | src/features/editor/components/content-sidebar.tsx:84-94 | Saving an edited narrative with index 0..3 over a list of at least four entries, then loading, gives the first four entries with that slot replaced. This holds for an encoding that round-trips. |
| `ContentPanel.EditsKeepClickedSlot` | src/features/editor/components/content-sidebar.tsx:327-330 | A narrative tagged at click position i keeps index i through any form edits. Saving it therefore persists something and writes slot i. |
| `ContentPanel.ContentSession.constructor` | src/features/editor/components/content-sidebar.tsx:81-82 | Starts with an empty list, no selection, the edit form closed, not loading and no error. |
| `ContentPanel.ContentSession.LoadStored` | src/features/editor/components/content-sidebar.tsx:84-94 | With data present and decodable, the list becomes the four decoded slots. A failed decode throws and leaves the list unchanged. With no data, nothing happens. |
| `ContentPanel.ContentSession.BeginGeneration` | src/features/editor/components/content-sidebar.tsx:96-100 | Sets loading on, empties the list, clears the selection and the error. Afterwards `RefineOffered`, the refine gate at content-sidebar.tsx:318 and 345-349, is false whatever the canvas holds. |
| `ContentPanel.ContentSession.CompleteGeneration` | src/features/editor/components/content-sidebar.tsx:122-132 | Every returned narrative carries the product name. The list shows them and loading ends. The four created slots are narratives 0..3 in order, undefined past the end of a shorter list. |
| `ContentPanel.ContentSession.FailGeneration` | src/features/editor/components/content-sidebar.tsx:133-137 | Loading ends and the error is recorded. |
| `ContentPanel.ContentSession.SelectNarrative` | src/features/editor/components/content-sidebar.tsx:327-330 | The clicked entry gets `index` i, and that same object is selected. The edit form opens. Other entries are unchanged. Afterwards `RefineOffered`, the refine gate at content-sidebar.tsx:318 and 345-349, holds exactly when the canvas holds more than one object. |
| `AiStatus.Shown` | src/features/editor/components/ai-sidebar.tsx:77-95 | The shown status is a prefix of the status. It is 300 characters long for a collapsed status over 300, and the whole status otherwise. |
| `AiStatus.ExpandingRevealsLongStatus` | src/features/editor/components/ai-sidebar.tsx:77-95 | Expanded, the whole status shows. Collapsing changes the display exactly for statuses over 300 characters. |
| `AiStatus.StatusLog.constructor` | src/features/editor/components/ai-sidebar.tsx:24-25 | Starts with an empty log and flags `[false]`, one longer than the log. |
| `AiStatus.StatusLog.ShownStatus` | src/features/editor/components/ai-sidebar.tsx:73-95 | Entry i shows a prefix of its status. It shows all of it when expanded or when it has at most 300 characters. It shows exactly the first 300 characters when collapsed and longer than 300. |
| `AiStatus.StatusLog.OnEvent` | src/features/editor/components/ai-sidebar.tsx:33-42 | An update is prepended to the log, and `false` to the flags. Older entries keep their order and their display. A keep-alive changes nothing. The flags are one longer than the log afterwards exactly when they were before, and the listener runs in either state. |
| `AiStatus.StatusLog.ToggleRendered` | src/features/editor/components/ai-sidebar.tsx:86-88 | The click handler as written: the flags become the list from the last render with flag i flipped. The one-longer rule holds afterwards exactly when that list is still one longer than the log, that is, when no update arrived since the render. |
| `AiStatus.StatusLog.ToggleShowMore` | src/features/editor/components/ai-sidebar.tsx:86-88 | A click with an up-to-date render flips flag i only. All other flags and the length are unchanged, and the flags stay one longer than the log. |
| `AiStatus.StaleToggleDropsFlag` | src/features/editor/components/ai-sidebar.tsx:41-42 | Two updates arrive. Then entry `first` is clicked, but its render predates `second`. The flags end as `[true, false]` beside a log of two, so the one-longer rule fails and `first`'s expanded flag sits on `second`. |

## Left out

- Network calls to the generation and refinement backend are not modelled: the narrative generation request, the initial poster request and the refinement-loop request. Their results enter as parameters: the returned narrative array, or the error. The refine button's own effects are part of this: switching to `ai` and toggling AI edit mode around the request.
- NarrativeForm.SaveNarrative: after persisting, the save handler sets AI edit mode, switches the tool to `ai`, requests an image and runs the refinement loop; none of this is modelled. The save also never writes the edited narrative back into the in-memory generated list, and neither does the model.
- The persistence hooks and server routes (narrative create, update and read) are not modelled. The lemma `SaveThenLoad` assumes the stored row holds exactly the strings that were sent. It covers only a payload with all four slots present. A payload with an undefined slot loses that key from the request body, and the update route rejects it because every slot must be a string. What happens then, nothing stored, is not modelled.
- ContentPanel.ContentSession.LoadStored: the `JSON.parse` throw is not caught inside the loading effect. React therefore unmounts the editor and shows the nearest error boundary's fallback. The model only reports `failed` and keeps the session, whose later behaviour the source does not have.
- JSON encoding and decoding are abstract (`parse`, `encode`). The only decode rule modelled is that `""` never parses. A stored text that parses to something other than a narrative is treated as a decode failure.
- The live-update transport (EventSource), its open and error handlers, and `editor.loadJson` are not modelled. Only the log and flag updates that an event triggers are modelled.
- The debounced save (500 ms) and the canvas library's construction and disposal are timing and foreign-library code. They are not modelled, beyond the `canvasReady` flag that makes the `editor?.` drawing calls no-ops before the canvas exists.
- `selectionDependentTools` is defined in a types file that is not part of this model, so it is a parameter of `ClearSelection`.
- AiStatus.Shown: counts characters as Dafny `char`s, whereas JavaScript `substring` counts UTF-16 code units. The two differ only for characters outside the Basic Multilingual Plane.
- AiStatus.StatusLog.ToggleShowMore: events and clicks are applied one at a time, each to the latest state. In the source, the click handler writes back the flag list from its last render. A click made after an update arrived, but before that update was rendered, therefore drops the update's flag. `ToggleRendered` and `StaleToggleDropsFlag` show the outcome. React's batching and render timing, which decide when this happens, are not modelled. After two such clicks the flag list can be shorter than the log. A click on an entry past its end then sets `!undefined`, which is `true`, past the end of the JavaScript array, growing it with holes. The model cannot reach this: `ToggleRendered` requires the clicked index to lie within the rendered flags.
- The show-more toggle mutates the rendered flag array in place and then copies it. The model writes the copied value as a new sequence. The aliasing between the old and new arrays is not modelled.
- After generation, `generatedContent` is the same array object that the loop stamped. The model copies its value. Likewise, a clicked narrative is one object shared by the list and the selection, and the model tags both copies.
- Narratives without an `index` or `productName` field (JavaScript `undefined`) are not modelled: both fields always hold a value.
- JSX rendering, styling, the paywall hook, the form inputs that only hold text for the generation request, and the commented-out legacy component are not modelled.
