# Invoice and quotation generator: document model

This project models the core of a browser-based invoice and quotation generator in Dafny:

- the document value (`InvoiceData`: company, client, ordered line items, terms, notes and a few text fields);
- the copy-on-write edit handlers of the form;
- the two-state signature pad;
- the totals and display decisions of the preview;
- the session start, which loads the cached company profile with a fallback to the defaults;
- the auto-save of the company profile to local storage.

Modules:

- `Wrappers` (wrappers.dfy): `Option` for optional properties and failed parses.
- `Types` (types.dfy): the records of `types.ts`; the `DocumentType` enum and its string names.
- `Constants` (constants.dfy): `GUARANTEE_TEXT` and `INITIAL_DATA`; the clock-derived fields come in as a `Clock`.
- `InvoicePreview` (preview.dfy): line totals, the subtotal fold, the total, the rows, and the logo/signature/notes choices.
- `InvoiceForm` (form.dfy): every edit handler as a function from document to document.
- `SignatureCapture` (signature.dfy): the drawing surface as a class (`isDrawing`, the current stroke, the document), specified by a pure `Step`.
- `GeminiService` (services.dfy): the error policies of the two text-generation calls; the request itself is a `ServiceReply` parameter.
- `Json` (json.dfy): `JSON.stringify` of a company profile and `JSON.parse` of a flat string-valued object, with their round trip proved.
- `App` (app.dfy): the state initializer, the save effect, a `LocalStorage` class and a `Session` class, and the whole-session round trip.

Design decisions:

- **Arithmetic.** Quantities are `int`, because they come from `parseInt`. Prices are exact `real`s, so the totals are exact sums.
- **Parsing.** Parsing of the numeric inputs is a foreign call. Its result comes in as an `Option` (`None` for NaN), and the model applies the source's `|| 0` coercion to it.
- **When the save effect runs.** The effect depends on the identity of the company object, not on its value. The model records this as `InvoiceForm.RebuildsCompany`: the handlers that spread a new company object. Every other handler passes on the same object, and `InvoiceForm.OtherEditsKeepCompany` proves that its company value is unchanged. So an edit that rebuilds the company with an equal value still writes, as in the source. The effect also runs once on mount (`App.AfterBoot`).
- **JSON.** The codec is concrete rather than assumed, so `Decode(Encode(c)) == Some(c)` is a proved lemma (`Json.DecodeEncode`). `Encode` writes the members in declaration order and leaves out an absent optional property. `Decode` accepts:
  - JSON whitespace;
  - members in any order;
  - repeated keys, where the last one wins;
  - unknown keys, which it ignores. The source keeps such members instead; see `Json.Decode` under "## Left out".
- **Document type.** `handleRootChange('documentType', v)` is only ever called from a select whose options are the two enum names. `InvoiceForm.RootChange` states this as its precondition (`ValidRootValue`) and stores the named enum member.

## Model

| member | source | states |
|---|---|---|
| `Types.DocumentTypeFromName` | types.ts:1-4 | a string names a document type iff it is "INVOICE" or "QUOTATION", and the name of the member found is that string |
| `Types.DocumentTypeNameRoundTrip` | types.ts:1-4 | each document type is found again from its own name |
| `Constants.InitialData` | constants.ts:3-50 | the default document is a quotation in "$" whose terms are the guarantee text (`Constants.GuaranteeText`, the three refund conditions word for word); its number is "TQ-<year>-001" and its two dates come from the clock; its company has no logo and an empty signature; its two items have the distinct ids "1" and "2" |
| `InvoicePreview.Reduce` | components/InvoicePreview.tsx:10 | the fold never falls below its starting value when no row has a negative amount |
| `InvoicePreview.ReduceIsSum` | components/InvoicePreview.tsx:10 | the left fold from an accumulator equals the accumulator plus the plain sum of the line totals |
| `InvoicePreview.Subtotal` | components/InvoicePreview.tsx:10 | the subtotal, a fold starting at 0, is the sum of quantity times unit price over all items |
| `InvoicePreview.Total` | components/InvoicePreview.tsx:11 | the total is exactly the sum of the line totals: no tax, discount or fee |
| `InvoicePreview.SubtotalOfNoItems` | components/InvoicePreview.tsx:10 | the subtotal of no items is 0 |
| `InvoicePreview.SumConcat` | components/InvoicePreview.tsx:10 | the sum of line totals splits over a concatenation of item lists |
| `InvoicePreview.SubtotalSnoc` | components/InvoicePreview.tsx:10 | appending an item adds exactly its quantity times unit price to the subtotal |
| `InvoicePreview.SubtotalWithout` | components/InvoicePreview.tsx:10 | cutting one item out of the list takes exactly its line total off the subtotal |
| `InvoicePreview.Rows` | components/InvoicePreview.tsx:74-81 | one row per item in order, showing its description, quantity and unit price, and a total of quantity times unit price |
| `InvoicePreview.RowsAddUpToSubtotal` | components/InvoicePreview.tsx:74-92 | the row totals add up to the subtotal that is shown |
| `InvoicePreview.Logo` | components/InvoicePreview.tsx:19-27 | the custom logo is shown iff `logoUrl` is present and non-empty, and then with that source; otherwise the default logo |
| `InvoicePreview.Signature` | components/InvoicePreview.tsx:109-113 | the signature image is shown iff `signatureUrl` is present and non-empty, and then with that source; otherwise a spacer |
| `InvoicePreview.Notes` | components/InvoicePreview.tsx:122-126 | the notes block is shown iff the notes are non-empty, and then with the notes' text |
| `InvoicePreview.DefaultSubtotal` | constants.ts:34-47 | the default items' subtotal is 1 * 1500 + 1 * 997 = 2497 |
| `InvoiceForm.SetCompanyField` | components/InvoiceForm.tsx:49-52 | the chosen company field becomes the value (an optional one becomes present); every other company field keeps its value |
| `InvoiceForm.SetClientField` | components/InvoiceForm.tsx:49-52 | the chosen client field becomes the value; every other client field keeps its value |
| `InvoiceForm.InputChange` | components/InvoiceForm.tsx:46-54 | for a company or client target, that section's field becomes the value; the section's other fields and the rest of the document are unchanged |
| `InvoiceForm.CompanyFieldsDetermine` | types.ts:20-28 | two company profiles whose fields all agree are equal |
| `InvoiceForm.ClientFieldsDetermine` | types.ts:13-18 | two client records whose fields all agree are equal |
| `InvoiceForm.InputChangeIdempotent` | components/InvoiceForm.tsx:46-54 | writing back the value a field already holds gives back the same document |
| `InvoiceForm.ClearLogo` | components/InvoiceForm.tsx:120-122 | the logo becomes the empty string; the rest of the company and of the document is unchanged |
| `InvoiceForm.RootChange` | components/InvoiceForm.tsx:56-58 | the named root field takes the value; the other root fields, both profiles and the items are unchanged |
| `InvoiceForm.RootChangeIdempotent` | components/InvoiceForm.tsx:56-58 | writing back a root field's current value is accepted and gives back the same document |
| `InvoiceForm.ResetTerms` | components/InvoiceForm.tsx:93-95 | the terms become the guarantee text; nothing else changes |
| `InvoiceForm.EditItem` | components/InvoiceForm.tsx:62 | an item edit keeps the id and changes only the named field |
| `InvoiceForm.UpdateItems` | components/InvoiceForm.tsx:60-63 | same length, order and ids; items with another id are unchanged; every item with the id has only the named field changed |
| `InvoiceForm.UpdateAbsentId` | components/InvoiceForm.tsx:60-63 | an id no item carries leaves the items equal to before |
| `InvoiceForm.UpdateLineItem` | components/InvoiceForm.tsx:60-65 | only the items change: same length; other ids are untouched; matching ids are edited |
| `InvoiceForm.UpdateKeepsUniqueIds` | components/InvoiceForm.tsx:60-63 | updating keeps unique ids unique |
| `InvoiceForm.QuantityInput` | components/InvoiceForm.tsx:381 | a quantity that fails to parse is stored as 0; a parsed one as parsed |
| `InvoiceForm.PriceInput` | components/InvoiceForm.tsx:388 | a price that fails to parse is stored as 0; a parsed one as parsed |
| `InvoiceForm.NewItem` | components/InvoiceForm.tsx:68-73 | the new item carries the generated id and quantity 1, and adds nothing to any total |
| `InvoiceForm.AddLineItem` | components/InvoiceForm.tsx:67-75 | exactly one item ("New Service", quantity 1, price 0, the new id) is appended; earlier items and all other fields are unchanged |
| `InvoiceForm.AddKeepsUniqueIds` | components/InvoiceForm.tsx:67-75 | appending under an id no item carries keeps ids unique |
| `InvoiceForm.AddKeepsSubtotal` | components/InvoiceForm.tsx:67-75 | adding an item never changes the subtotal |
| `InvoiceForm.RemoveItems` | components/InvoiceForm.tsx:77-79 | an item survives iff it was there and its id differs; an absent id leaves the list equal |
| `InvoiceForm.RemoveConcat` | components/InvoiceForm.tsx:78 | removal distributes over concatenation, so the survivors keep their order |
| `InvoiceForm.RemoveLength` | components/InvoiceForm.tsx:78 | removal drops exactly as many items as carry the id |
| `InvoiceForm.CountUnique` | components/InvoiceForm.tsx:78 | with unique ids, an id is carried once if present and never if absent |
| `InvoiceForm.UniqueIdsSplit` | components/InvoiceForm.tsx:78 | with unique ids, no item other than item k carries item k's id |
| `InvoiceForm.RemoveUniqueLength` | components/InvoiceForm.tsx:77-79 | with unique ids, the length drops by 1 when the id is present and stays when it is absent |
| `InvoiceForm.RemoveAt` | components/InvoiceForm.tsx:77-79 | with unique ids, removing item k's id yields the list without item k, in order |
| `InvoiceForm.UniqueWithout` | components/InvoiceForm.tsx:78 | cutting one item out of a list with unique ids leaves the ids unique |
| `InvoiceForm.RemoveKeepsUniqueIds` | components/InvoiceForm.tsx:77-79 | removal keeps unique ids unique |
| `InvoiceForm.RemoveSubtotal` | components/InvoiceForm.tsx:77-79 | with unique ids, removing item k takes exactly its line total off the subtotal |
| `InvoiceForm.RemoveLineItem` | components/InvoiceForm.tsx:77-79 | only the items change, to those whose id differs; an absent id leaves the document equal |
| `InvoiceForm.PolishTerms` | components/InvoiceForm.tsx:81-91 | a failure leaves the document unchanged and raises the alert; a success changes only the terms, to the trimmed reply, and a reply that trims to nothing leaves the document unchanged |
| `InvoiceForm.GenerateNote` | components/InvoiceForm.tsx:97-107 | only the notes change, to the trimmed reply or, on a fault, to the fallback note; no alert is ever raised |
| `InvoiceForm.PolishArrivedAsWritten` | components/InvoiceForm.tsx:81-91 | as written, a successful polish yields the captured document with new terms, and a failure the current document |
| `InvoiceForm.StalePolishDropsEdit` | components/InvoiceForm.tsx:84-85 | as written, for every successful reply, an edit of the notes made during the polish request is lost |
| `InvoiceForm.StalePolishRevertsCompany` | components/InvoiceForm.tsx:84-85 | as written, for every successful reply, a company edit made during the polish request is reverted to the captured company |
| `InvoiceForm.PolishArrived` | components/InvoiceForm.tsx:81-91 | corrected: only the current document's terms change, to the polished text (or the text that was sent, for a reply that trims to nothing) |
| `InvoiceForm.PolishArrivedUninterrupted` | components/InvoiceForm.tsx:81-91 | with no edit in between, the corrected merge equals the handler's own result |
| `InvoiceForm.NoteArrivedAsWritten` | components/InvoiceForm.tsx:97-107 | as written, the note lands in the captured document |
| `InvoiceForm.StaleNoteDropsEdit` | components/InvoiceForm.tsx:100-101 | as written, an edit of the terms made during the note request is lost |
| `InvoiceForm.StaleNoteRevertsCompany` | components/InvoiceForm.tsx:100-101 | as written, for every reply, a company edit made during the note request is reverted to the captured company |
| `InvoiceForm.NoteArrived` | components/InvoiceForm.tsx:97-107 | corrected: only the current document's notes change, to the generated note |
| `InvoiceForm.NoteArrivedUninterrupted` | components/InvoiceForm.tsx:97-107 | with no edit in between, the corrected merge equals the handler's own result |
| `InvoiceForm.ApplyEdit` | components/InvoiceForm.tsx:46-107 | the item edits change only the items, and no other edit touches the items |
| `InvoiceForm.EditKeepsUniqueIds` | components/InvoiceForm.tsx:60-79 | every edit keeps the ids unique, provided an added item gets an id not in use |
| `InvoiceForm.RebuildsCompany` | App.tsx:34 | an edit that builds a new company object is valid and changes nothing in the document but the company |
| `InvoiceForm.OtherEditsKeepCompany` | components/InvoiceForm.tsx:56-107 | every handler except the company field edits and `clearLogo` leaves the company unchanged |
| `GeminiService.Trim` | services/geminiService.ts:28 | `trim` yields the slice of the text left after cutting white space off both ends; the slice starts and ends with non-white space, and it is empty exactly when the text is all white space |
| `GeminiService.PolishLegalText` | services/geminiService.ts:11-33 | a fault fails the call; a reply that is not blank gives its trimmed text; a blank reply gives back the raw text |
| `GeminiService.BlankPolishKeepsRawText` | services/geminiService.ts:28 | a reply of white space only gives back exactly the text that was sent |
| `GeminiService.GenerateThankYouNote` | services/geminiService.ts:35-53 | never fails: a fault yields "Thank you for your business.", a reply yields its trimmed text |
| `SignatureCapture.Step` | components/InvoiceForm.tsx:154-204 | a press always starts drawing, a release always stops it, and a move or clear keeps the flag; the document changes only on a release while drawing or on clear; while idle, only a press touches the stroke |
| `SignatureCapture.ReleaseIsSavedEdit` | components/InvoiceForm.tsx:188-195 | a release while drawing is exactly the form's signature-field edit, which rebuilds the company object |
| `SignatureCapture.ClearIsSavedEdit` | components/InvoiceForm.tsx:197-204 | clear is exactly the signature-field edit to the empty text, which rebuilds the company object |
| `SignatureCapture.StepTouchesOnlySignature` | components/InvoiceForm.tsx:154-204 | no pad event changes anything in the document but the company's signature |
| `SignatureCapture.RunTouchesOnlySignature` | components/InvoiceForm.tsx:154-204 | after any sequence of pad events, only the company's signature can differ |
| `SignatureCapture.RunSignatureOrigin` | components/InvoiceForm.tsx:188-204 | after any sequence of events, the signature is the original one, the empty string, or some release's snapshot |
| `SignatureCapture.IdleIgnoresMovesAndReleases` | components/InvoiceForm.tsx:172-195 | while idle, moves and releases change nothing |
| `SignatureCapture.MovesExtendStroke` | components/InvoiceForm.tsx:172-186 | while drawing, moves append their points to the stroke and change nothing else |
| `SignatureCapture.RunConcat` | components/InvoiceForm.tsx:326-332 | feeding two event sequences one after the other is feeding their concatenation |
| `SignatureCapture.Stroke` | components/InvoiceForm.tsx:154-195 | press, moves, release: ends idle; the stroke is the press point then the move points; the signature is the released snapshot and nothing else in the document changes |
| `SignatureCapture.SignaturePad.constructor` | components/InvoiceForm.tsx:18 | the pad starts not drawing |
| `SignatureCapture.SignaturePad.StartDrawing` | components/InvoiceForm.tsx:154-170 | enters the drawing state with a new stroke at the press point; the document is untouched |
| `SignatureCapture.SignaturePad.Draw` | components/InvoiceForm.tsx:172-186 | does nothing while not drawing; otherwise appends the point to the stroke |
| `SignatureCapture.SignaturePad.StopDrawing` | components/InvoiceForm.tsx:188-195 | always ends not drawing; only if it was drawing, writes the snapshot into the signature and changes nothing else |
| `SignatureCapture.SignaturePad.ClearSignature` | components/InvoiceForm.tsx:197-204 | sets the signature to the empty string without touching the drawing flag or anything else |
| `Json.Encode` | App.tsx:30 | the saved text is an object literal, never the empty string |
| `Json.EscapeChar` | App.tsx:30 | a character is written as itself iff it is neither a quote, a backslash nor a control character; any other becomes a backslash escape; no control character is written |
| `Json.Escape` | App.tsx:30 | the escaped text is never shorter than the text |
| `Json.EscapeSafe` | App.tsx:30 | escaped text holds no control character, and text of plain characters is written unchanged |
| `Json.HexDigitValue` | App.tsx:30 | each hex digit written in a `\u00XX` escape reads back as its value |
| `Json.EscapeCharRoundTrip` | App.tsx:30 | each character as `JSON.stringify` escapes it reads back as that character |
| `Json.EscapeRoundTrip` | App.tsx:30 | an escaped string followed by a closing quote parses back to the string and the rest of the text |
| `Json.MembersRoundTrip` | App.tsx:30 | a written member list closed by a brace parses back to the same members |
| `Json.LookupDistinct` | App.tsx:18 | with distinct keys, each member is found under its own key |
| `Json.CompanyFromMembers` | App.tsx:18 | a parsed object describes a profile exactly when the five required members are present; each field is the last member under its key, and an optional field is absent exactly when no member carries it |
| `Json.Decode` | App.tsx:18 | text that is blank or does not start with a brace after white space decodes to nothing |
| `Json.CompanyMembersRoundTrip` | App.tsx:18 | the members written for a profile read back as that profile |
| `Json.DecodeEncode` | App.tsx:18 | what is saved for a profile decodes to that profile |
| `App.InitialDocument` | App.tsx:12-25 | a non-empty cached value that decodes gives the defaults with that company; a missing or empty value, or one that fails to parse, gives exactly the defaults; the other fields are always the defaults |
| `App.StoreCompany` | App.tsx:27-34 | a successful save writes the encoded company under the key and no other key; a failed one changes nothing |
| `App.ReloadAfterSave` | App.tsx:8-34 | the save and the load use the same key (`App.StorageKey`, "tradequest_company_data"), so after a successful save of a company the next session starts with the defaults and that company |
| `App.AfterBoot` | App.tsx:12-34 | mounting yields the initialized document; only the profile's key can change in storage, and a failed save leaves storage as it was |
| `App.AfterEdit` | App.tsx:27-34 | the document becomes the edited one; storage is untouched unless the edit rebuilt the company object and the write succeeded, and then it holds the current company |
| `App.BootSynced` | App.tsx:27-34 | the save on mount leaves the cache holding the current company |
| `App.EditKeepsSynced` | App.tsx:27-34 | with writes succeeding, every edit keeps the cache holding the current company |
| `App.OtherEditsDoNotSave` | App.tsx:34 | an edit that does not rebuild the company object neither writes to storage nor changes the company |
| `App.ReplayKeepsSynced` | App.tsx:27-34 | with all writes succeeding, any sequence of edits keeps the cache holding the current company |
| `App.SessionRoundTrip` | App.tsx:12-34 | after any session with successful writes, the next session starts with the company the last one ended with |
| `App.FailedWriteSwallowed` | App.tsx:29-33 | a failed write leaves the storage as it was and the document exactly as a successful one would |
| `App.FreshSession` | App.tsx:12-25 | with nothing cached, the session starts from exactly the default document |
| `App.MalformedCache` | App.tsx:15-24 | with blank text under the key, or text that does not start with a brace after white space, the session starts from exactly the default document |
| `App.StrokeIsSaved` | App.tsx:27-34 | a release that ends a stroke, once handed to the session with a successful write, leaves the profile with the new signature in storage, and it decodes back |
| `App.LocalStorage.SetItem` | App.tsx:30 | a successful write stores the value under the key; a failed one throws and changes nothing |
| `App.Session.constructor` | App.tsx:12-34 | mounting initializes the document from storage and then runs the save once |
| `App.Session.SaveCompany` | App.tsx:27-34 | the effect writes the encoded company under the key and swallows a failure |
| `App.Session.Edit` | App.tsx:34 | the document becomes the edited one; storage is written only when the company object was rebuilt; successful writes keep the cache in step |

## Left out

- Markup and styling of the form, the preview and the built-in logo: presentational only.
- Canvas pixels: drawing strokes, clearing the bitmap, `toDataURL` and the redraw of a stored signature with aspect-fit scaling. These are browser graphics and floating-point layout. The snapshot a release writes is a parameter.
- `getCoordinates`: the mouse or touch position relative to the surface is DOM geometry. Points arrive already converted.
- The absent-canvas guards of the signature handlers: the surface is taken as mounted.
- `handleLogoUpload` and `handleSignatureUpload`: file reading is a browser API. Their only document effect is `InvoiceForm.InputChange` on `logoUrl` or `signatureUrl` with the encoded file.
- `Math.random` id generation: the new id is a parameter. Uniqueness of ids is a precondition of the lemmas that need it, since the source does not guarantee it.
- `parseInt` and `parseFloat`: JavaScript built-ins. Their result arrives as an `Option`.
- `toFixed(2)` and the currency-symbol prefix in the displayed amounts: float-to-text formatting. The totals are stated on exact values instead.
- Floating-point arithmetic: the sums are exact reals, not IEEE doubles.
- The text-generation requests, their prompts, credentials and the API-key banner: network calls and environment. Their outcome is a `ServiceReply` parameter carrying the reply text untrimmed. A response without text is read as the empty text; both calls treat that exactly like a blank reply.
- `window.print`, the console logging, and the `isPolishing`/`isGeneratingNote` loading flags: host environment and UI state.
- A `localStorage.getItem` that throws: reads are modelled as map lookups only.
- `Json.Decode`: a payload that `JSON.parse` accepts and that does not describe a profile decodes to `None`, which gives the default document. This covers a non-object, members that are not strings, a missing required field, and a `\u` escape naming a surrogate. In the source, such a payload is assigned to `company` as parsed. String members under keys other than the seven profile keys are dropped by `Decode`. The source keeps them in `company`, and the save on mount writes them back, so they survive into the next session; in the model they are gone after the first save.
- `Json.Encode`: members are written in declaration order. In the source the order is the object's insertion order, which depends on edit history. This affects the saved text only, never what decodes from it.
- React scheduling: effect timing and batched state updates. Each edit is applied atomically and followed directly by its effect.

## Findings

| source | as written | input that shows it | evidently intended | confidence | as-written member | corrected member |
|---|---|---|---|---|---|---|
| components/InvoiceForm.tsx:84-85 | after awaiting the polish, `onChange({ ...data, terms: polished })` spreads the document captured when the button was pressed | change the notes while the polish request is pending; when the reply arrives, the notes revert. A company edit made in between is reverted too. The captured company is a different object from the current one, so the save effect runs and writes the old profile back to storage | only the terms of the current document change | medium, not executed | `InvoiceForm.PolishArrivedAsWritten`, `InvoiceForm.StalePolishDropsEdit`, `InvoiceForm.StalePolishRevertsCompany` | `InvoiceForm.PolishArrived` |
| components/InvoiceForm.tsx:100-101 | after awaiting the note, `onChange({ ...data, notes: note })` spreads the document captured when the button was pressed | change the terms while the note request is pending; when the note arrives, the terms revert. A company edit made in between is reverted too. The captured company is a different object from the current one, so the save effect runs and writes the old profile back to storage | only the notes of the current document change | medium, not executed | `InvoiceForm.NoteArrivedAsWritten`, `InvoiceForm.StaleNoteDropsEdit`, `InvoiceForm.StaleNoteRevertsCompany` | `InvoiceForm.NoteArrived` |
