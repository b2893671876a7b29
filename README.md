# Service dashboard core, modelled in Dafny

This project models the core of a web dashboard for a glazing and locksmith service business. The dashboard covers:

- quotes built from a service catalogue or a visual configuration wizard;
- installation line items priced by area, length, unit or a fixed total;
- work orders with photos, a checklist and a status;
- a technical inspection of the panes ("leaves") of a window or door;
- a finance summary of revenue, expenses and margins;
- a service contract whose client CPF/CNPJ is masked as it is typed;
- a currency input in Brazilian format;
- a WhatsApp share button;
- a chip selector.

Each component becomes one module:

| module | file | models |
|---|---|---|
| `InstallationItem` | installation_item.dfy | components/InstallationItemModal.tsx |
| `VisualQuoteBuilder` | visual_quote_builder.dfy | components/VisualQuoteBuilder.tsx |
| `QuoteNew` | quote_new.dfy | pages/QuoteNew.tsx (the item list and totals) |
| `TechnicalInspection` | technical_inspection.dfy | components/TechnicalInspection.tsx |
| `WorkOrderDetails` | work_order_details.dfy | pages/WorkOrderDetails.tsx |
| `Finance` | finance.dfy | pages/Finance.tsx |
| `ContractModal` | contract_modal.dfy | components/ContractModal.tsx |
| `CurrencyInput` | currency_input.dfy | components/ui/CurrencyInput.tsx |
| `WhatsAppButton` | whatsapp_button.dfy | components/WhatsAppButton.tsx |
| `ChipSelector` | chip_selector.dfy | components/ui/ChipSelector.tsx |

Four support modules carry what several components share:

- `Common` holds `Option` and `Result`.
- `Numeric` models JavaScript numbers on `real`:
  - `parseFloat` and `String(n)` are the function parameters `Parser` and `Printer`, tied by `Faithful`;
  - `Number` is `Option<real>`, where `None` is NaN;
  - `x || d` becomes `OrElse`, and `toFixed(2)` read back becomes `ToFixed2`.
- `Text` models trimming, whitespace and `replace(/\D/g, '')` as `Digits`.
- `Lists` models index filtering, value filtering and the remove-or-append toggle.

Where a component keeps state that its handlers update, the model is a class:

- each piece of React state is a field;
- each handler is a method with `modifies` and a postcondition stating the whole new state;
- the rules that specify them are functions, with lemmas proving what the component promises.

Pure helpers are functions.

A backend write (Firestore) is the boolean parameter `writeOk`. A read is an `Option` input, where `None` means the read threw.

## Model

| member | source | states |
|---|---|---|
| `Numeric.DisplayRoundTrip` | dashboard/src/components/InstallationItemModal.tsx:51-59 | a number shown with `toDisplay` reads back as itself with `toNumber`; the display is empty exactly for 0 |
| `Numeric.ToNumberEmpty` | dashboard/src/components/InstallationItemModal.tsx:51-54 | an empty or unparseable field counts as 0 |
| `Numeric.ToFixed2Close` | dashboard/src/components/VisualQuoteBuilder.tsx:157-164 | rounding to the cent moves a number by at most half a cent and keeps its sign |
| `Numeric.ToFixed2OfCents` | dashboard/src/components/VisualQuoteBuilder.tsx:157-164 | a whole number of hundredths is unchanged by rounding to the cent |
| `Numeric.ToFixed2Twice` | dashboard/src/components/VisualQuoteBuilder.tsx:167-175 | rounding to the cent twice is rounding once |
| `Text.Digits` | dashboard/src/components/ContractModal.tsx:54 | keeping only the digits yields digits only and never lengthens the text |
| `Text.DigitsAppend` | dashboard/src/components/ContractModal.tsx:54 | taking the digits distributes over concatenation |
| `Text.DigitsOfDigits` | dashboard/src/components/ContractModal.tsx:54 | a text of digits keeps all its digits |
| `Text.TrimEmptyIffBlank` | dashboard/src/components/WhatsAppButton.tsx:51 | `trim()` gives the empty text exactly when the text is all whitespace |
| `Lists.DropIndexSlices` | dashboard/src/pages/QuoteNew.tsx:152-154 | filtering out one index drops exactly that element and keeps the rest in order; an index outside the list drops nothing |
| `Lists.RemoveAllSpec` | dashboard/src/components/TechnicalInspection.tsx:68-70 | filtering out a value removes all its occurrences, keeps every other value, and changes nothing when the value is absent |
| `Lists.ToggleMembership` | dashboard/src/components/ui/ChipSelector.tsx:41-43 | after a toggle the value is present exactly when it was absent; no other value's membership changes |
| `Lists.ToggleTwice` | dashboard/src/components/ui/ChipSelector.tsx:41-43 | toggling an absent value twice restores the list |
| `ChipSelector.Normalize` | dashboard/src/components/ui/ChipSelector.tsx:29-31 | one value/label pair per option, in order: a string is both value and label, an object keeps its own |
| `ChipSelector.SelectedValues` | dashboard/src/components/ui/ChipSelector.tsx:34-36 | in multiple mode, the array or nothing; in single mode, the selected string unless it is empty |
| `ChipSelector.ClickMultiple` | dashboard/src/components/ui/ChipSelector.tsx:38-48 | in multiple mode, a click on a selected value removes it, a click on an unselected one appends it, and no other value changes state |
| `ChipSelector.ClickTwiceRestores` | dashboard/src/components/ui/ChipSelector.tsx:38-48 | in multiple mode, two clicks on an unselected value restore the selection |
| `ChipSelector.ClickSingle` | dashboard/src/components/ui/ChipSelector.tsx:45-47 | in single mode, a click selects exactly the clicked value |
| `ChipSelector.IsSelectedMeaning` | dashboard/src/components/ui/ChipSelector.tsx:50-55 | a chip is drawn selected exactly when its value is in the selection list (multiple) or equals the selected string (single) |
| `InstallationItem.MethodNamed` | dashboard/src/components/InstallationItemModal.tsx:82 | a stored item is `fixed` exactly when it names `fixed`; a missing method is `unit` |
| `InstallationItem.QuantityFloor` | dashboard/src/components/InstallationItemModal.tsx:65 | the quantity used is at least 1: 1 for an empty, zero or sub-1 entry, the entry itself above 1 |
| `InstallationItem.MethodTotals` | dashboard/src/components/InstallationItemModal.tsx:116-137 | `m2` and `linear` give a positive product exactly when their inputs are positive and 0 otherwise; `unit` and unknown methods multiply quantity by price; `fixed` keeps the typed total |
| `InstallationItem.InstallationItemModal.constructor` | dashboard/src/components/InstallationItemModal.tsx:36-48 | a new editor is an empty `unit` form, not overridden, in sync |
| `InstallationItem.InstallationItemModal.Recompute` | dashboard/src/components/InstallationItemModal.tsx:111-143 | a frozen total (manual override outside `fixed`) is untouched; otherwise the total field shows the method's formula, so the form is in sync |
| `InstallationItem.InstallationItemModal.RunEffect` | dashboard/src/components/InstallationItemModal.tsx:111-143 | the effect runs only when a dependency changed; the form is in sync after it runs and stays in sync when it does not |
| `InstallationItem.InstallationItemModal.Load` | dashboard/src/components/InstallationItemModal.tsx:79-108 | the form takes every stored field (a quantity of 0 shows as 1; a custom name outside the list is kept; the override is on for `fixed`), or is cleared |
| `InstallationItem.InstallationItemModal.Open` | dashboard/src/components/InstallationItemModal.tsx:79-143 | a stored item's width, height, price and quantity read back unchanged; a `fixed` item keeps its total |
| `InstallationItem.InstallationItemModal.SetWidthDisplay` | dashboard/src/components/InstallationItemModal.tsx:264 | the width text is stored; a frozen total does not move; once the effect reruns the total is the formula's over the old total, so in `fixed` it keeps its value; the form ends in sync |
| `InstallationItem.InstallationItemModal.SetHeightDisplay` | dashboard/src/components/InstallationItemModal.tsx:280 | the same for the height |
| `InstallationItem.InstallationItemModal.SetQuantityDisplay` | dashboard/src/components/InstallationItemModal.tsx:295 | the same for the quantity |
| `InstallationItem.InstallationItemModal.SetUnitPriceDisplay` | dashboard/src/components/InstallationItemModal.tsx:310 | the same for the unit price |
| `InstallationItem.InstallationItemModal.SelectMethod` | dashboard/src/components/InstallationItemModal.tsx:241-244 | choosing a method clears the override and the total becomes the new method's formula |
| `InstallationItem.InstallationItemModal.TypeTotal` | dashboard/src/components/InstallationItemModal.tsx:376-391 | only when the field is editable (override on or `fixed`): a typed total is kept and frozen outside `fixed` |
| `InstallationItem.InstallationItemModal.ToggleOverride` | dashboard/src/components/InstallationItemModal.tsx:355-358 | locking keeps the total; unlocking recomputes it |
| `InstallationItem.InstallationItemModal.SetServiceName` | dashboard/src/components/InstallationItemModal.tsx:215 | the selected service name is stored |
| `InstallationItem.InstallationItemModal.SetCustomServiceName` | dashboard/src/components/InstallationItemModal.tsx:227 | the custom name is stored |
| `InstallationItem.InstallationItemModal.SetGlassColor` | dashboard/src/components/InstallationItemModal.tsx:417 | the chip's string, or the first element of its array, or empty |
| `InstallationItem.InstallationItemModal.SetGlassThickness` | dashboard/src/components/InstallationItemModal.tsx:424 | the same for the thickness |
| `InstallationItem.InstallationItemModal.SetProfileColor` | dashboard/src/components/InstallationItemModal.tsx:431 | the same for the profile color |
| `InstallationItem.InstallationItemModal.Save` | dashboard/src/components/InstallationItemModal.tsx:145-191 | each refusal exactly when its check (in source order) fails, and an item exactly when every check passes; the item carries the resolved non-blank name, the numbers of the form, a quantity ≥ 1, and an area exactly for `m2` with positive sides |
| `InstallationItem.SavedAreaItemRoundTrip` | dashboard/src/components/InstallationItemModal.tsx:119-124 | a saved automatic `m2` item's total is its width × height × quantity × unit price, positive, and its area is width × height |
| `InstallationItem.SavedLinearItemRoundTrip` | dashboard/src/components/InstallationItemModal.tsx:125-129 | a saved automatic `linear` item's total is width × quantity × unit price, positive, with height 0 and no area |
| `InstallationItem.OverrideScenario` | dashboard/src/components/InstallationItemModal.tsx:111-143 | after unlocking and typing a total in `m2`, a new price leaves the total alone, and switching to `unit` reprices it as quantity × price |
| `VisualQuoteBuilder.SegmentNamed` | dashboard/src/components/VisualQuoteBuilder.tsx:137 | a missing segment is `glazier`; an unknown one is kept |
| `VisualQuoteBuilder.Qty` | dashboard/src/components/VisualQuoteBuilder.tsx:170 | the quantity is never 0 |
| `VisualQuoteBuilder.QtyMeaning` | dashboard/src/components/VisualQuoteBuilder.tsx:170 | the quantity is 1 exactly for an unparseable, 0 or 1 entry, and the parsed value otherwise |
| `VisualQuoteBuilder.RoundedArea` | dashboard/src/components/VisualQuoteBuilder.tsx:157-164 | a positive area rounded to the cent is non-negative and within half a hundredth |
| `VisualQuoteBuilder.AreaRounded` | dashboard/src/components/VisualQuoteBuilder.tsx:157-164 | the area is never negative, is height × width / 10⁶ to the cent when both are positive, and 0 otherwise |
| `VisualQuoteBuilder.AreaWholeHundredths` | dashboard/src/components/VisualQuoteBuilder.tsx:157-164 | the area is a whole number of hundredths |
| `VisualQuoteBuilder.AreaExample` | dashboard/src/components/VisualQuoteBuilder.tsx:157-164 | 2000 mm × 1500 mm is 3 m² |
| `VisualQuoteBuilder.TotalFromArea` | dashboard/src/components/VisualQuoteBuilder.tsx:167-175 | with a positive area and price, the total is area × price × quantity to the cent; otherwise the typed total, or 0 |
| `VisualQuoteBuilder.Defined` | dashboard/src/components/VisualQuoteBuilder.tsx:226-227 | `parseFloat(x) \|\| undefined` is defined exactly for a non-zero number, and is that number |
| `VisualQuoteBuilder.NonEmpty` | dashboard/src/components/VisualQuoteBuilder.tsx:232-236 | `x \|\| undefined` is defined exactly for a non-empty text, and is that text |
| `VisualQuoteBuilder.SaveNeedsSelection` | dashboard/src/components/VisualQuoteBuilder.tsx:177-222 | an item is built exactly when a category and a model are selected; it carries their ids, and its name is "Category - Model" unless a simple segment has a description |
| `VisualQuoteBuilder.SimpleSegmentPricing` | dashboard/src/components/VisualQuoteBuilder.tsx:188-191 | locksmith and handyman: a typed non-zero total is the total; the total is NaN exactly when neither price is usable; unit price × quantity gives the total and vice versa |
| `VisualQuoteBuilder.PlumberSegmentPricing` | dashboard/src/components/VisualQuoteBuilder.tsx:192-201 | plumber: price × metres × quantity, metres defaulting to the quantity; without a price, the typed total spread over metres × quantity |
| `VisualQuoteBuilder.AreaSegmentPricing` | dashboard/src/components/VisualQuoteBuilder.tsx:202-208 | glazier and others: the total is the derived total, else the typed total, else 0, never NaN; the unit price is the price per m², or the total spread over area × quantity |
| `VisualQuoteBuilder.GlazierOnlyAttributes` | dashboard/src/components/VisualQuoteBuilder.tsx:224-236 | dimensions and glass attributes are attached only for `glazier`, each exactly when its input is set, with the value typed or chosen |
| `VisualQuoteBuilder.Builder.constructor` | dashboard/src/components/VisualQuoteBuilder.tsx:137-154 | the wizard opens at step 1 with nothing selected and the empty form |
| `VisualQuoteBuilder.Builder.Reset` | dashboard/src/components/VisualQuoteBuilder.tsx:242-257 | back to step 1, nothing selected, empty form with quantity "1" |
| `VisualQuoteBuilder.Builder.ChooseCategory` | dashboard/src/components/VisualQuoteBuilder.tsx:320-329 | corrected: a category with models goes to step 2; one without goes to step 3 with the manual model and a simple segment's description names it |
| `VisualQuoteBuilder.Builder.ChooseCategoryAsWritten` | dashboard/src/components/VisualQuoteBuilder.tsx:320-326 | as written: the same steps, but the description is left as it was, since the closure sees the empty selection of step 1 |
| `VisualQuoteBuilder.Builder.UpdateDescriptionWith` | dashboard/src/components/VisualQuoteBuilder.tsx:260-264 | with a category and a model, a simple segment's description names both; otherwise the form is unchanged |
| `VisualQuoteBuilder.Builder.ChooseModel` | dashboard/src/components/VisualQuoteBuilder.tsx:346-349 | step 3 with the model chosen; a simple segment's description names the category and this model |
| `VisualQuoteBuilder.Builder.UpdateDescription` | dashboard/src/components/VisualQuoteBuilder.tsx:260-264 | a simple segment's description becomes "Category - Model"; otherwise nothing changes |
| `VisualQuoteBuilder.Builder.ChooseModelAsWritten` | dashboard/src/components/VisualQuoteBuilder.tsx:346-349 | as the component does it: the description names the model selected before the click |
| `VisualQuoteBuilder.Builder.Back` | dashboard/src/components/VisualQuoteBuilder.tsx:283-290 | step 3 returns to step 2 keeping the selection; step 2 returns to step 1 clearing it |
| `VisualQuoteBuilder.Builder.SetUnitPrice` | dashboard/src/components/VisualQuoteBuilder.tsx:405-408 | shown in step 3 of the simple form: the unit price is stored and the typed total cleared |
| `VisualQuoteBuilder.Builder.SetPricePerM2` | dashboard/src/components/VisualQuoteBuilder.tsx:467-470 | shown in step 3 for plumber and glazier: the price per metre or m² is stored and the typed total cleared |
| `VisualQuoteBuilder.Builder.SetTotalPrice` | dashboard/src/components/VisualQuoteBuilder.tsx:416-419 | shown in step 3 except for other segments: the typed total is stored and the competing price cleared |
| `VisualQuoteBuilder.Builder.SetDescription` | dashboard/src/components/VisualQuoteBuilder.tsx:380 | shown in step 3 for simple segments and plumber: the description is stored |
| `VisualQuoteBuilder.Builder.SetQuantity` | dashboard/src/components/VisualQuoteBuilder.tsx:397 | shown in step 3 except for other segments: the quantity text is stored |
| `VisualQuoteBuilder.Builder.SetLinearMeters` | dashboard/src/components/VisualQuoteBuilder.tsx:454 | shown in step 3 for plumber: the metres text is stored |
| `VisualQuoteBuilder.Builder.SetHeight` | dashboard/src/components/VisualQuoteBuilder.tsx:499 | shown in step 3 for glazier: the height text is stored |
| `VisualQuoteBuilder.Builder.SetWidth` | dashboard/src/components/VisualQuoteBuilder.tsx:506 | shown in step 3 for glazier: the width text is stored |
| `VisualQuoteBuilder.Builder.ToggleGlassColor` | dashboard/src/components/VisualQuoteBuilder.tsx:527 | shown in step 3 for glazier: clicking the chosen color clears it; any other chooses it |
| `VisualQuoteBuilder.Builder.ToggleGlassThickness` | dashboard/src/components/VisualQuoteBuilder.tsx:545 | the same for the thickness |
| `VisualQuoteBuilder.Builder.ToggleProfileColor` | dashboard/src/components/VisualQuoteBuilder.tsx:567 | the same for the profile color |
| `VisualQuoteBuilder.Builder.Save` | dashboard/src/components/VisualQuoteBuilder.tsx:177-240 | the item built from the selection and form, after which the wizard is reset; without an item nothing changes |
| `VisualQuoteBuilder.StaleDescriptionExample` | dashboard/src/components/VisualQuoteBuilder.tsx:346-349 | as written, re-picking a model saves the old model's name with the new model's id |
| `VisualQuoteBuilder.CurrentDescriptionExample` | dashboard/src/components/VisualQuoteBuilder.tsx:260-264 | corrected, the same clicks name the model chosen |
| `VisualQuoteBuilder.KeptDescriptionExample` | dashboard/src/components/VisualQuoteBuilder.tsx:320-326 | as written, choosing the manual category after typing a description saves the manual item under that description |
| `VisualQuoteBuilder.ManualDescriptionExample` | dashboard/src/components/VisualQuoteBuilder.tsx:260-264 | corrected, the same clicks name the manual category |
| `QuoteNew.SubtotalConcat` | dashboard/src/pages/QuoteNew.tsx:156 | the subtotal of two lists in sequence is the sum of their subtotals |
| `QuoteNew.SubtotalSplit` | dashboard/src/pages/QuoteNew.tsx:156 | the subtotal is the prefix's, plus item k, plus the rest's |
| `QuoteNew.SubtotalDropIndex` | dashboard/src/pages/QuoteNew.tsx:152-156 | removing an item takes exactly its total off the subtotal |
| `QuoteNew.SubtotalUpdate` | dashboard/src/pages/QuoteNew.tsx:137-156 | replacing an item changes the subtotal by the difference of the totals |
| `QuoteNew.NewItem` | dashboard/src/pages/QuoteNew.tsx:126-135 | one unit at the default price (0 without one), priced consistently |
| `QuoteNew.Updated` | dashboard/src/pages/QuoteNew.tsx:140-147 | the chosen field is set, the other kept, and the total is quantity × unit price |
| `QuoteNew.QuantityInput` | dashboard/src/pages/QuoteNew.tsx:378 | never 0: 1 for an unparseable or zero entry, the number otherwise |
| `QuoteNew.AmountInput` | dashboard/src/pages/QuoteNew.tsx:393 | 0 for an unparseable entry, the number otherwise |
| `QuoteNew.QuoteEditor.constructor` | dashboard/src/pages/QuoteNew.tsx:81-82 | a new quote has no items and no discount |
| `QuoteNew.QuoteEditor.AddService` | dashboard/src/pages/QuoteNew.tsx:126-135 | one item appended; the subtotal rises by its total; consistent pricing is kept |
| `QuoteNew.QuoteEditor.UpdateItem` | dashboard/src/pages/QuoteNew.tsx:137-150 | only the item at the index changes; the subtotal changes by the difference; consistent pricing is kept |
| `QuoteNew.QuoteEditor.RemoveItem` | dashboard/src/pages/QuoteNew.tsx:152-154 | exactly the item at the index is dropped, order kept; the subtotal falls by its total |
| `QuoteNew.QuoteEditor.EditQuantity` | dashboard/src/pages/QuoteNew.tsx:377-378 | the item's quantity becomes the read entry, never 0 |
| `QuoteNew.QuoteEditor.EditUnitPrice` | dashboard/src/pages/QuoteNew.tsx:392-393 | the item's unit price becomes the read entry |
| `QuoteNew.QuoteEditor.EditDiscount` | dashboard/src/pages/QuoteNew.tsx:430 | the total is the subtotal less the discount, not clamped |
| `TechnicalInspection.FindSpec` | dashboard/src/components/TechnicalInspection.tsx:49 | `find` yields the first leaf with the id, and nothing exactly when no leaf has it |
| `TechnicalInspection.WithStatus` | dashboard/src/components/TechnicalInspection.tsx:60-62 | ids, order, defects and photos are kept; the leaves with the id get the status; every other leaf is untouched |
| `TechnicalInspection.WithPhoto` | dashboard/src/components/TechnicalInspection.tsx:78-80 | ids, order, statuses and defects are kept; the leaves with the id get the photo; every other leaf is untouched |
| `TechnicalInspection.StatusKeepsDefectCount` | dashboard/src/components/TechnicalInspection.tsx:60-62 | a new status changes no defect count, and setting it twice is setting it once |
| `TechnicalInspection.PhotoKeepsDefectCount` | dashboard/src/components/TechnicalInspection.tsx:78-80 | a new photo changes no defect count, and uploading it twice is uploading it once |
| `TechnicalInspection.WithDefectToggled` | dashboard/src/components/TechnicalInspection.tsx:64-76 | the leaves with the id have the defect toggled; nothing else changes |
| `TechnicalInspection.ToggleDefectEffect` | dashboard/src/components/TechnicalInspection.tsx:64-76 | a present defect is removed, an absent one appended, other defects and fields untouched |
| `TechnicalInspection.ToggleDefectTwice` | dashboard/src/components/TechnicalInspection.tsx:64-76 | toggling an absent defect twice restores the leaves |
| `TechnicalInspection.CountWithBounds` | dashboard/src/components/TechnicalInspection.tsx:127-129 | the defect count is at most the leaf count, 0 exactly when no leaf has it, the leaf count exactly when all do |
| `TechnicalInspection.Summary` | dashboard/src/components/TechnicalInspection.tsx:304-320 | the defect options some leaf has, each with the number of leaves that have it, and no other entry |
| `TechnicalInspection.DefaultChecklist` | dashboard/src/components/TechnicalInspection.tsx:25-34 | one new, open entry per general task, in order, each a distinct object |
| `TechnicalInspection.ResizeKeepsAndDrops` | dashboard/src/components/TechnicalInspection.tsx:42-58 | resizing keeps an existing leaf with its id, creates fresh perfect leaves for missing ids, and numbers leaf i as i |
| `TechnicalInspection.ChecklistEntry.constructor` | dashboard/src/components/TechnicalInspection.tsx:34 | a new entry is its task, not completed |
| `TechnicalInspection.Inspection.constructor` | dashboard/src/components/TechnicalInspection.tsx:32-40 | the initial leaves and their count; the initial checklist or one open entry per general task; the entries are distinct |
| `TechnicalInspection.Inspection.SetNumberOfLeaves` | dashboard/src/components/TechnicalInspection.tsx:141 | the count is the parsed integer, or 0 |
| `TechnicalInspection.Inspection.SetLeaves` | dashboard/src/components/TechnicalInspection.tsx:42-58 | a non-positive count is refused with no change; otherwise leaves 1..n in order, each the existing leaf with that id or a fresh one |
| `TechnicalInspection.Inspection.UpdateLeafStatus` | dashboard/src/components/TechnicalInspection.tsx:60-62 | the leaves become `WithStatus` of the old ones; no defect count changes |
| `TechnicalInspection.Inspection.ToggleDefect` | dashboard/src/components/TechnicalInspection.tsx:64-76 | the leaves become `WithDefectToggled` of the old ones |
| `TechnicalInspection.Inspection.PhotoUpload` | dashboard/src/components/TechnicalInspection.tsx:78-80 | the leaves become `WithPhoto` of the old ones; no defect count changes |
| `TechnicalInspection.Inspection.ToggleGeneralChecklist` | dashboard/src/components/TechnicalInspection.tsx:82-86 | exactly the entry at the index is flipped, in place |
| `WorkOrderDetails.FeedbackLink` | dashboard/src/pages/WorkOrderDetails.tsx:148-151 | the link is the origin followed by `/feedback/` and the id |
| `WorkOrderDetails.Task.constructor` | dashboard/src/pages/WorkOrderDetails.tsx:17 | an entry holds its task and state |
| `WorkOrderDetails.WorkOrderPage.constructor` | dashboard/src/pages/WorkOrderDetails.tsx:26-30 | the page holds the loaded order and its notes, with an empty photo field; the stored checklist entries are distinct objects |
| `WorkOrderDetails.WorkOrderPage.SetNewPhotoUrl` | dashboard/src/pages/WorkOrderDetails.tsx:365 | the photo URL text is stored |
| `WorkOrderDetails.WorkOrderPage.SetNotes` | dashboard/src/pages/WorkOrderDetails.tsx:418 | the notes text is stored |
| `WorkOrderDetails.WorkOrderPage.AddPhoto` | dashboard/src/pages/WorkOrderDetails.tsx:66-84 | a non-blank URL is appended trimmed and the field cleared after a successful write; otherwise nothing changes |
| `WorkOrderDetails.WorkOrderPage.RemovePhoto` | dashboard/src/pages/WorkOrderDetails.tsx:86-103 | exactly the photo at the index is dropped after a successful write; otherwise nothing changes |
| `WorkOrderDetails.WorkOrderPage.SaveNotes` | dashboard/src/pages/WorkOrderDetails.tsx:105-123 | the order takes the typed notes after a successful write |
| `WorkOrderDetails.WorkOrderPage.ToggleChecklistAsWritten` | dashboard/src/pages/WorkOrderDetails.tsx:125-143 | as the component does it: the entry is flipped even when the write fails |
| `WorkOrderDetails.WorkOrderPage.ToggleChecklist` | dashboard/src/pages/WorkOrderDetails.tsx:125-143 | corrected: only the entry at the index is flipped, and only after a successful write |
| `WorkOrderDetails.WorkOrderPage.StatusChange` | dashboard/src/pages/WorkOrderDetails.tsx:145-182 | completing an order without a feedback link also sets the link; any other change sets only the status; nothing changes without a successful write |
| `WorkOrderDetails.FailedToggleExample` | dashboard/src/pages/WorkOrderDetails.tsx:125-143 | with a failed write, the component's entry is ticked and the corrected one's is not |
| `Finance.BucketOf` | dashboard/src/pages/Finance.tsx:88-108 | the labour, food and marketing buckets are exactly their category names |
| `Finance.Approved` | dashboard/src/pages/Finance.tsx:52-55 | exactly the approved quotes: every one it keeps is approved and from the list, and every approved quote is kept |
| `Finance.WithPaid` | dashboard/src/pages/Finance.tsx:58-63 | exactly the quotes with the given paid flag, in the same sense |
| `Finance.ApprovedAppend` | dashboard/src/pages/Finance.tsx:52-55 | the filter keeps the order: filtering two lists one after the other is filtering each |
| `Finance.WithPaidAppend` | dashboard/src/pages/Finance.tsx:58-63 | the same for the paid flag |
| `Finance.QuoteSumAppend` | dashboard/src/pages/Finance.tsx:57 | quote totals add over concatenation |
| `Finance.PaidSplit` | dashboard/src/pages/Finance.tsx:57-63 | the unpaid and paid totals add up to the whole |
| `Finance.RevenueOf` | dashboard/src/pages/Finance.tsx:52-63 | to-receive plus received equals revenue |
| `Finance.ApprovedOnly` | dashboard/src/pages/Finance.tsx:52-55 | a quote that is not approved changes none of the revenue figures |
| `Finance.ExpensePaidSplit` | dashboard/src/pages/Finance.tsx:81-85 | payable plus paid equals all expenses |
| `Finance.BucketsPartition` | dashboard/src/pages/Finance.tsx:88-108 | the six category buckets add up to all expenses |
| `Finance.AggregateExpenses` | dashboard/src/pages/Finance.tsx:66-112 | each accumulator is the sum over its paid flag or its category; a failed read leaves all at 0 |
| `Finance.MarginsOf` | dashboard/src/pages/Finance.tsx:115-118 | net profit is revenue less paid costs less marketing; both margins are 0 without revenue and the percentages of revenue otherwise |
| `Finance.PaidMarketingCountedTwice` | dashboard/src/pages/Finance.tsx:81-118 | a paid marketing expense lowers net profit by twice its amount |
| `Finance.LoadFinanceData` | dashboard/src/pages/Finance.tsx:49-140 | no figures exactly when the quote read fails; otherwise the revenue, each expense total as its sum over the expenses, and the margins |
| `ContractModal.InsertAt` | dashboard/src/components/ContractModal.tsx:56-68 | one character is placed at the position and the prefix is kept |
| `ContractModal.FirstRun` | dashboard/src/components/ContractModal.tsx:56-68 | the leftmost run of digits of the asked length at or after the start, and none exactly when there is no such run |
| `ContractModal.FormatKeepsDigits` | dashboard/src/components/ContractModal.tsx:53-70 | the mask keeps exactly the digits typed, in order |
| `ContractModal.FormatIdempotent` | dashboard/src/components/ContractModal.tsx:53-70 | masking a masked number changes nothing |
| `ContractModal.FormatAddsOnlySeparators` | dashboard/src/components/ContractModal.tsx:56-68 | the mask adds only '.', '/' and '-'; a CPF gets no '/' |
| `ContractModal.CpfShape` | dashboard/src/components/ContractModal.tsx:56-61 | eleven digits are masked as ddd.ddd.ddd-dd |
| `ContractModal.CnpjSeparators` | dashboard/src/components/ContractModal.tsx:62-66 | from nine digits on, '.' follows the 2nd and 5th digit and '/' the 8th |
| `ContractModal.CnpjShape` | dashboard/src/components/ContractModal.tsx:62-68 | fourteen digits are masked as dd.ddd.ddd/dddd-dd |
| `ContractModal.SlashMeansCnpj` | dashboard/src/components/ContractModal.tsx:55-68 | the mask has a '/' exactly when there are more than 11 digits |
| `ContractModal.Validate` | dashboard/src/components/ContractModal.tsx:102-122 | each refusal exactly when its check (in source order) fails; an accepted form is handed over whole |
| `ContractModal.WitnessesOptional` | dashboard/src/components/ContractModal.tsx:102-122 | the witnesses' fields never change the outcome |
| `ContractModal.ContractForm.constructor` | dashboard/src/components/ContractModal.tsx:73-86 | the new form holds the client's name and address (empty when absent), Pix, and empty fields |
| `ContractModal.ContractForm.ChangeCpfCnpj` | dashboard/src/components/ContractModal.tsx:88-91 | the client CPF/CNPJ is stored masked; nothing else changes |
| `ContractModal.ContractForm.ChangeWitnessCpf` | dashboard/src/components/ContractModal.tsx:93-100 | witness 1's CPF for 1, witness 2's otherwise, masked |
| `ContractModal.ContractForm.EditText` | dashboard/src/components/ContractModal.tsx:150-256 | the field is stored as typed; nothing else changes |
| `ContractModal.ContractForm.SetPaymentMethod` | dashboard/src/components/ContractModal.tsx:211 | the payment method is stored |
| `ContractModal.NewFormRefused` | dashboard/src/components/ContractModal.tsx:73-119 | a form just opened is refused for its missing CPF/CNPJ |
| `CurrencyInput.NatDigits` | dashboard/src/components/ui/CurrencyInput.tsx:26-28 | a whole number is written as a non-empty run of digits |
| `CurrencyInput.DigitsRoundTrip` | dashboard/src/components/ui/CurrencyInput.tsx:26-28 | reading back the digits of a number gives the number |
| `CurrencyInput.Group` | dashboard/src/components/ui/CurrencyInput.tsx:30 | grouping adds one '.' per full group of three digits |
| `CurrencyInput.GroupShape` | dashboard/src/components/ui/CurrencyInput.tsx:30 | the grouped text has '.' exactly every fourth place from the right and digits elsewhere |
| `CurrencyInput.KeepGroup` | dashboard/src/components/ui/CurrencyInput.tsx:30-37 | removing what `parseCurrency` removes from a grouped number gives its digits back |
| `CurrencyInput.FormatCents` | dashboard/src/components/ui/CurrencyInput.tsx:24-33 | the text ends with ',' and two digits whose value is the cents |
| `CurrencyInput.FormatIntegerPart` | dashboard/src/components/ui/CurrencyInput.tsx:24-33 | before the comma are the whole units, grouped by thousands |
| `CurrencyInput.ParseCurrency` | dashboard/src/components/ui/CurrencyInput.tsx:35-43 | the parsed number is never negative |
| `CurrencyInput.ParseCommaDecimal` | dashboard/src/components/ui/CurrencyInput.tsx:35-43 | digits, a comma and digits parse as the decimal they denote |
| `CurrencyInput.FormatParseRoundTrip` | dashboard/src/components/ui/CurrencyInput.tsx:24-43 | parsing a formatted amount gives the amount back |
| `CurrencyInput.ClearedTextsParseToZero` | dashboard/src/components/ui/CurrencyInput.tsx:35-49 | "", "0" and "0,00" parse as 0 |
| `CurrencyInput.DisplayFor` | dashboard/src/components/ui/CurrencyInput.tsx:14-22 | the display is empty exactly when the value is not positive |
| `CurrencyInput.ChangedValue` | dashboard/src/components/ui/CurrencyInput.tsx:45-71 | never negative; 0 for the cleared texts and the parsed text otherwise |
| `CurrencyInput.ChangedValueIsParse` | dashboard/src/components/ui/CurrencyInput.tsx:45-71 | the special case for the cleared texts agrees with parsing |
| `CurrencyInput.CurrencyField.constructor` | dashboard/src/components/ui/CurrencyInput.tsx:12 | the display starts empty |
| `CurrencyInput.CurrencyField.Refresh` | dashboard/src/components/ui/CurrencyInput.tsx:73-80 | the display is the formatted value when positive and empty otherwise |
| `CurrencyInput.CurrencyField.Change` | dashboard/src/components/ui/CurrencyInput.tsx:45-71 | the reported number is the parsed text; the display is empty exactly when it is 0 and formatted otherwise |
| `CurrencyInput.RetypeFormatted` | dashboard/src/components/ui/CurrencyInput.tsx:45-71 | typing what the field shows reports the same amount and shows the same text |
| `WhatsAppButton.StripFormatting` | dashboard/src/components/WhatsAppButton.tsx:26 | no whitespace, parenthesis or hyphen remains |
| `WhatsAppButton.StripFormattingDigits` | dashboard/src/components/WhatsAppButton.tsx:26 | stripping keeps every digit |
| `WhatsAppButton.Sanitize` | dashboard/src/components/WhatsAppButton.tsx:23-39 | empty exactly for an empty phone; otherwise it starts with 55 and has no formatting |
| `WhatsAppButton.SanitizeIdempotent` | dashboard/src/components/WhatsAppButton.tsx:23-39 | sanitising twice is sanitising once |
| `WhatsAppButton.SanitizeKeepsDigits` | dashboard/src/components/WhatsAppButton.tsx:23-39 | the digits are those typed, with 55 prepended when the code was missing |
| `WhatsAppButton.SanitizeAddsCountryCode` | dashboard/src/components/WhatsAppButton.tsx:35-37 | a number of digits not starting with 55 comes back with 55 in front and otherwise unchanged |
| `WhatsAppButton.SanitizeDropsPlus` | dashboard/src/components/WhatsAppButton.tsx:30-37 | "+" followed by digits starting with 55 comes back as those digits |
| `WhatsAppButton.Message` | dashboard/src/components/WhatsAppButton.tsx:41-48 | the greeting names the client and the text ends with the document link |
| `WhatsAppButton.MessageNamesDocument` | dashboard/src/components/WhatsAppButton.tsx:41-48 | different document types give different messages |
| `WhatsAppButton.Click` | dashboard/src/components/WhatsAppButton.tsx:50-67 | refused exactly for a blank phone; failed exactly when encoding fails; otherwise a `wa.me/55…` link with the encoded message |

## Left out

- Floating point. Numbers are `real`. Results that differ only by IEEE-754 rounding (for example `0.1 * 3`) are not modelled.
- Parsing is left abstract. `parseFloat`, `parseInt` and `String(n)` are parameters, and only the facts the components rely on are assumed of them (`Numeric.Faithful`).
- `toFixed(2)` is modelled as the number its text denotes.
  - Ties are rounded away from zero on the exact value.
  - Exponent output (numbers ≥ 10²¹) and Infinity are not modelled.
- CurrencyInput.ParseCurrency: reads the cleaned text as an exact decimal.
  - The rounding of that decimal to the nearest double is not modelled.
  - The cleaned text holds only digits and commas. For that alphabet `parseFloat` reads the longest leading decimal, which is what the model does.
- CurrencyInput.FormatCurrency: covers non-negative numbers only, the only values the component formats. The sign handling `toFixed` does for negative numbers is not modelled.
- CurrencyInput's placeholder, class and disabled props are rendering only and are not modelled.
- ChipSelector.SelectedValues: requires multiple mode or a string selection. An array passed in single mode (`selected as string` over an array) relies on JavaScript coercion and is not modelled.
- QuoteNew `handleSave` and `handleGeneratePDF` are not part of this model. They call identifiers the file never declares, so their behaviour cannot be read from the source.
- QuoteNew client loading and selection, and the PDF document, are not part of this model.
- QuoteNew.QuoteEditor.UpdateItem: models the copied array's items as values. The component mutates the item objects it shares with the previous state; that aliasing is not modelled.
- Firestore reads and writes are inputs.
  - A write's outcome is the parameter `writeOk`.
  - Finance's reads are `Option` values, where `None` means the read threw.
- Query filtering, collection names and the timestamps written alongside updates are not modelled.
- `window.location.origin` and `encodeURIComponent` are parameters. `window.open`, `alert`, `console` output and clipboard writes are effects outside the model.
- Loading and saving flags, navigation, modals opening and closing, and all JSX rendering and styling are not modelled. This includes the WhatsApp button's styling and its disabled state.
- React scheduling: each handler runs the InstallationItemModal recompute effect only when a dependency changed (`RunEffect`). Batching across several handlers within one render is not modelled.
- Finance period selection (`period`) is not modelled: the source never uses it in a query. Finance's currency and percent formatting for display is not modelled either.
- TechnicalInspection's leaf selection, status colours, icons and labels are display only and are not modelled.
- TechnicalInspection.Inspection.constructor: requires the entries of a checklist passed in to be distinct objects. A caller passing one entry object twice, whose entries would then tick together, is not modelled.
- WorkOrderDetails.WorkOrderPage.constructor: requires the loaded checklist entries to be distinct objects, as a document read from storage gives one object per entry.
- VisualQuoteBuilder's step-3 setters require step 3 and a segment whose form shows that input, because the component renders each input only there.
- TechnicalInspection.Inspection.SetNumberOfLeaves: takes what `parseInt` returned as an `Option<int>`. Reading the integer from the text is not modelled.

## Findings

| source | as written | input that shows it | evidently intended | confidence | as-written member | corrected member |
|---|---|---|---|---|---|---|
| dashboard/src/components/VisualQuoteBuilder.tsx:260-264, 346-349 | the model click sets the model and then calls `updateDescription`, which reads the state of the render before the click, so the description names the previously selected model (or none) | locksmith: pick "Janelas", "2 Folhas Correr", go back, pick "Basculante"; the saved item is named "Janelas - 2 Folhas Correr" with model id "basculante" | the description names the category and model just chosen | not executed | `VisualQuoteBuilder.Builder.ChooseModelAsWritten`, `VisualQuoteBuilder.StaleDescriptionExample` | `VisualQuoteBuilder.Builder.ChooseModel`, `VisualQuoteBuilder.CurrentDescriptionExample` |
| dashboard/src/components/VisualQuoteBuilder.tsx:260-264, 320-326 | a category without models calls `updateDescription` from the step-1 render, whose selection is always empty, so the description is never set and whatever was typed before stays | locksmith: pick "Janelas", "2 Folhas Correr", type "Troca de fechadura", go back twice, pick "Outros/Manual"; the manual item is saved as "Troca de fechadura" | the description names the manual category | not executed | `VisualQuoteBuilder.Builder.ChooseCategoryAsWritten`, `VisualQuoteBuilder.KeptDescriptionExample` | `VisualQuoteBuilder.Builder.ChooseCategory`, `VisualQuoteBuilder.ManualDescriptionExample` |
| dashboard/src/pages/WorkOrderDetails.tsx:125-143 | the array copy is shallow and the entry's `completed` is flipped on the shared object before the write, so the entry stays flipped when the write fails | a work order with one open entry, toggled while the write fails: the entry is ticked | a failed write leaves the checklist as it was | not executed | `WorkOrderDetails.WorkOrderPage.ToggleChecklistAsWritten`, `WorkOrderDetails.FailedToggleExample` | `WorkOrderDetails.WorkOrderPage.ToggleChecklist` |
