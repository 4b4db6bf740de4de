# Guest-sharing site and shop catalogue: a verified model

This project models a small Netflix account-sharing service and the catalogue editor of its shop:

- The shop editor (`shop/product_manager.py`) is a desktop window that keeps the product list.
  - It derives each product's identifier from its name.
  - It copies the product picture and writes a QR code for the buy link into the shared asset folder.
  - It saves the list as JSON and as a JavaScript mirror the web page loads.
- The sign-up page script (`auth.js`) covers several rules:
  - password strength;
  - the registration checks, behind an anti-spam captcha, a one-minute cooldown and an hourly cap;
  - the credit-purchase amount rule;
  - e-mail masking and the OTP countdown display;
  - the announcement formatter that turns plain text into HTML.
- The site's page script (`app.js`) parses pasted cookie text, tracks whether the browser extension has announced itself, and routes the "watch as guest" button.
- The extension's background script (`TiemBanhNetflixExtension/background.js`) parses cookie strings, builds cookie URLs and injects a batch of cookies.
- The retry handler (`cookie-retry-handler.js`) tries up to five cookies in turn before it gives up. It fetches a preview from the backend, injects the cookie, checks the tab, reports a dead cookie and excludes it from later previews, and confirms the one that works.

The modules follow the program:

| module | file | models |
|---|---|---|
| `Basics` | strings.dfy | the `Option` type |
| `Strings` | strings.dfy | JavaScript and Python whitespace, `trim`/`strip`, `split`/`join`, decimal printing, `padStart`, UTF-16 length |
| `Slug` | slug.dfy | `generate_id` |
| `Catalog` | catalog.dfy | the catalogue session, the editing steps, persistence, and the editor window as a class |
| `Auth` | auth.dfy | password strength, the registration checks and the `AntiSpam` state, credits, `maskEmail`, the timer |
| `MessageFormat` | message.dfy | `parseMessageToHTML` and `parseLineFormatting` |
| `App` | app.dfy | `parseCookie`, the extension flags, `_watchAsGuestInternal` |
| `Background` | background.dfy | `parseSingleCookie`, `parseCookieString`, `getCookieUrl`, `injectCookiesImproved` |
| `CookieRetry` | retry.dfy | `CookieRetryHandler` and the checks it makes |

State that the source changes in place becomes a class. Each method is proved against a pure function of the old state:

- the editor window: `Catalog.ProductManager`, over the `Session` value;
- the anti-spam state: `Auth.AntiSpam`;
- the page flags: `App.AppState`;
- the retry handler: `CookieRetry.CookieRetryHandler`.

Loops become methods with invariants. Each one is tied to a recursive specification function, and the properties are proved as lemmas about that function:

- `ParseMessageToHtml` and `AppendList`;
- `InjectCookiesImproved`;
- `AttemptLogin`.

Everything the programs ask of the outside world is a parameter of the model:

- files present or removable, a copy that succeeds, a QR encoder that succeeds;
- the user's confirmation, the file dialog's answer;
- `decodeURIComponent` and `chrome.cookies.set`;
- the backend's replies, the server's answer, the extension's answers;
- the link and bold rewrites of paragraph text.

Where the code and the documented behaviour disagree, the model follows the code:

- **A failed picture copy.** The documented behaviour is that a failed copy does not block the edit. In the code, `shutil.copy2` sits outside any `try`, so:
  - an add aborts with nothing changed (`Catalog.AddRejected`);
  - an update has already overwritten the record in memory but saves nothing (`Catalog.UpdateCopyFailure`).
  - These are the only steps after which the in-memory list and the saved files can differ; every other step keeps them in step (`Catalog.StepsConsistent`).
- **Empty identifiers.** The documented behaviour is that an identifier is never empty. In the code, a name such as `!!!` passes validation and gets the identifier `""` (`Slug.GenerateIdEmpty`).
- **`maskEmail` ignores the `@` position.** It masks any text containing `@` however the `@` sits. An empty local part prints as `undefined`, as JavaScript does for `''[0]`. The model keeps both behaviours.

## Model

| member | source | states |
|---|---|---|
| Strings.Trim | shop/product_manager.py:290-295 | `strip()`/`trim()` give a substring that neither starts nor ends with whitespace of that runtime, and are empty exactly when the text is all whitespace |
| Strings.TrimIdempotent | shop/product_manager.py:290-295 | trimming twice is trimming once |
| Strings.Split | auth.js:1680 | `split` always yields at least one piece |
| Strings.SplitPieces | TiemBanhNetflixExtension/background.js:467-478 | no piece of `split(sep)` holds `sep`; there is one piece exactly when the text has no `sep` |
| Strings.JoinSplit | shop/product_manager.py:259 | joining the pieces of a split with the same separator gives the text back |
| Strings.SplitJoin | shop/product_manager.py:309 | splitting a join of separator-free pieces gives the pieces back |
| Strings.IndexOf | TiemBanhNetflixExtension/background.js:484-515 | `indexOf` finds the first occurrence, and nothing exactly when the character is absent |
| Strings.LastIndexOf | shop/product_manager.py:314 | the last occurrence, with none after it; nothing exactly when the character is absent |
| Strings.RemoveAll | shop/product_manager.py:424 | `replace('../', '')` never lengthens the text |
| Strings.NatToString | auth.js:2834-2847 | decimal printing: digits only, no leading zero, and the digits read back as the number |
| Strings.NatToStringInjective | auth.js:2834-2847 | different numbers print differently |
| Strings.PadStart | auth.js:2834-2847 | `padStart` keeps the text as the suffix, fills the front and reaches the width |
| Strings.PadStartZeros | auth.js:2834-2847 | padding digits with zeros keeps their value |
| Strings.Utf16Length | auth.js:1165-1217 | JavaScript `length` counts one or two code units per character |
| Slug.FoldLower | shop/product_manager.py:55-62 | each `re.sub` class folds to a slug character; slug characters are unchanged |
| Slug.SlugChars | shop/product_manager.py:54-62 | lower-casing then folding one character gives one or two slug characters, and a slug character gives itself |
| Slug.Mapped | shop/product_manager.py:54-62 | the per-character rewrite yields only `[a-z0-9_]` |
| Slug.Collapse | shop/product_manager.py:63 | `re.sub('_+', '_')` leaves no double underscore, keeps the first and last characters and is all-underscore exactly when its input is |
| Slug.StripBounds | shop/product_manager.py:63 | `strip('_')` cuts exactly the leading and trailing underscores |
| Slug.GenerateId | shop/product_manager.py:51-64 | `generate_id`: lower-case, fold, rewrite, collapse, strip; its behaviour is stated by `Slug.GenerateIdIsSlug`, `Slug.GenerateIdIdempotent`, `Slug.GenerateIdEmpty` and `Slug.GenerateIdExample` |
| Slug.GenerateIdIsSlug | shop/product_manager.py:51-64 | every identifier is built from `[a-z0-9_]`, with no double underscore and none at either end |
| Slug.CleanedIsSlug | shop/product_manager.py:63 | collapsing and stripping text of slug characters gives a slug |
| Slug.MappedSlug | shop/product_manager.py:54-62 | the rewrite leaves slug text unchanged |
| Slug.CollapseNoDouble | shop/product_manager.py:63 | collapsing text with no double underscore changes nothing |
| Slug.StripSlug | shop/product_manager.py:63 | stripping a slug changes nothing |
| Slug.GenerateIdIdempotent | shop/product_manager.py:51-64 | an identifier is its own identifier |
| Slug.GenerateIdEmpty | shop/product_manager.py:51-64 | the identifier is empty exactly when every character of the name rewrites to `_` |
| Slug.GenerateIdExample | shop/product_manager.py:51-64 | `Cốc sứ` gives `coc_su` |
| Catalog.Load | shop/product_manager.py:32-36 | a missing products file loads as the empty list |
| Catalog.Saved | shop/product_manager.py:32-48 | saving writes both the JSON file and the JavaScript mirror with its header and binding; loading what was saved gives the list back, and the mirror holds the same list |
| Catalog.Ext | shop/product_manager.py:314 | `splitext` gives a suffix of the path that is empty or a `.` with no further `.` and no `/`; it is non-empty exactly when some dot of the last component follows a character that is not a dot, so leading dots (`.png`) give none |
| Catalog.ExtLastPeriod | shop/product_manager.py:314 | only the last period counts: `a.tar.gz` has the extension `.gz` |
| Catalog.ExtLeadingDots | shop/product_manager.py:314 | `.png` and `dir/.png` have no extension |
| Catalog.AssetKey | shop/product_manager.py:424-428 | the asset named by a picture reference is no longer than the reference |
| Catalog.AssetKeyOfRef | shop/product_manager.py:395 | a flat file name referenced as `../aff-data/<file>` resolves back to that file on delete |
| Catalog.FileNamesFlat | shop/product_manager.py:369-371 | picture and QR file names of a slug hold no `/`, so they stay in the asset folder |
| Catalog.NonBlankGood | shop/product_manager.py:401 | the kept description lines are trimmed, non-empty and newline-free |
| Catalog.LinesGood | shop/product_manager.py:401 | every description the editor stores is made of such lines |
| Catalog.LinesJoin | shop/product_manager.py:259 | joining stored lines into the text box and reading them back gives the same lines |
| Catalog.AddError | shop/product_manager.py:348-360 | an add is refused exactly when name, price, link or picture is missing; each refusal comes exactly when the earlier fields are present and its own is missing |
| Catalog.RemoveAt | shop/product_manager.py:424-426 | one existence test and removal: an asset file goes exactly when it can be removed; any other path changes no asset and raises exactly when something unremovable is there |
| Catalog.RemoveFiles | shop/product_manager.py:423-432 | only the record's files are removed; a picture removal that raises keeps everything, the QR code included; otherwise the picture goes when removable and then the QR code when the record has one and it is removable |
| Catalog.Clear | shop/product_manager.py:439-448 | `clear_form`: empty form, no picture, no record being edited; stated by `Catalog.ProductManager.ClearForm` and used by every step lemma below |
| Catalog.PickImage | shop/product_manager.py:270-278 | `select_image`: a chosen path replaces the picture, a cancelled dialog keeps it; stated by `Catalog.ProductManager.SelectImage` and `Catalog.StepsConsistent` |
| Catalog.Add | shop/product_manager.py:339-409 | `add_product`; its behaviour is stated by `Catalog.AddError`, `Catalog.AddIsAdded`, `Catalog.AddRecord`, `Catalog.AddRejected`, `Catalog.AddFrame` and `Catalog.AddWellFormed` |
| Catalog.Added | shop/product_manager.py:366-409 | the accepted half of `add_product`; stated by `Catalog.AddedRecord` and `Catalog.AddedFrame` |
| Catalog.Update | shop/product_manager.py:288-337 | `update_product`; stated by `Catalog.UpdateRecord` and `Catalog.UpdateCopyFailure` |
| Catalog.Updated | shop/product_manager.py:300-337 | the accepted half of `update_product`; stated by `Catalog.UpdatedRecord` and `Catalog.UpdatedFiles` |
| Catalog.Save | shop/product_manager.py:281-286 | `save_product`: update while a record is edited, add otherwise; stated by `Catalog.EditSaveUnchanged`, `Catalog.EditAsWrittenNeverUpdates` and `Catalog.ProductManager.SaveProduct` |
| Catalog.EditAsWritten | shop/product_manager.py:237-268 | `edit_product` as written; stated by `Catalog.EditAsWrittenNeverUpdates` |
| Catalog.Edit | shop/product_manager.py:237-268 | `edit_product` as intended; stated by `Catalog.EditSaveUnchanged` |
| Catalog.Delete | shop/product_manager.py:411-437 | `delete_product`; stated by `Catalog.DeleteRecord`, `Catalog.DeleteFrame`, `Catalog.DeleteLast`, `Catalog.DeleteDeclined` and `Catalog.AddThenDelete` |
| Catalog.BlankPictureKeepsFiles | shop/product_manager.py:423-432 | a blank picture reference names the folder above the script, whose removal raises, so the QR code stays |
| Catalog.NewProductFacts | shop/product_manager.py:391-402 | a new record's identifier is the slug of its name, its picture reference names its file, its lines are good |
| Catalog.AddIsAdded | shop/product_manager.py:339-409 | an accepted add is the commit step under the slug of the trimmed name |
| Catalog.AddedRecord | shop/product_manager.py:368-404 | the commit step appends one record and keeps the others; it copies the picture, and stores a QR code exactly when one is made |
| Catalog.AddedFrame | shop/product_manager.py:368-387 | the commit step writes no file but the picture and the QR code |
| Catalog.AddRecord | shop/product_manager.py:339-409 | an accepted add appends one well-named record, writes its picture and its QR code, keeps every other record |
| Catalog.ImageNotQr | shop/product_manager.py:369-387 | a record's picture and QR code are different files |
| Catalog.AddRejected | shop/product_manager.py:348-372 | a refused add or a failing copy changes nothing; the refusal is reported as an error |
| Catalog.AddFrame | shop/product_manager.py:339-409 | adding touches no file but the new picture and QR code |
| Catalog.DeleteRecord | shop/product_manager.py:411-437 | deleting removes exactly the chosen record and keeps the others in order |
| Catalog.DeleteFrame | shop/product_manager.py:421-432 | a delete removes no file its record does not name |
| Catalog.AddThenDelete | shop/product_manager.py:339-437 | deleting a record just added restores the list and removes its picture when that removal succeeds |
| Catalog.DeleteLast | shop/product_manager.py:411-437 | deleting the last record drops it and its picture |
| Catalog.DeleteDeclined | shop/product_manager.py:413-421 | no selection gives a warning and a declined confirmation changes nothing |
| Catalog.UpdatedRecord | shop/product_manager.py:300-337 | the updated record keeps its identifier and takes the trimmed form fields and the kept description lines; its picture changes only when a new one was chosen and its QR code only when one was made; every other record stays, the files match the list, and edit mode ends |
| Catalog.UpdatedFiles | shop/product_manager.py:311-332 | an update copies the chosen picture and writes the QR code of the trimmed link when one is made, removes no file and changes no other file |
| Catalog.UpdateRecord | shop/product_manager.py:288-337 | an accepted update of an existing record is the commit step; it keeps the list length, the identifier and every other record and overwrites the text fields from the form |
| Catalog.UpdateCopyFailure | shop/product_manager.py:301-317 | a failing copy during an update has already overwritten the record in memory and saves nothing |
| Catalog.StepsConsistent | shop/product_manager.py:281-448 | every step except a failing update copy keeps memory and the saved files in step |
| Catalog.AddWellFormed | shop/product_manager.py:339-402 | records that an add creates are well formed |
| Catalog.EditSaveUnchanged | shop/product_manager.py:237-268 | with the intended edit, opening a well-formed record and saving it unchanged leaves the list as it was, with or without the QR library, as long as a record with a QR code refers to its own QR file (as every added record does) |
| Catalog.EditAsWrittenNeverUpdates | shop/product_manager.py:237-249 | with the edit as written the index is forgotten, so saving adds; without a new picture it is refused |
| Catalog.ProductManager.constructor | shop/product_manager.py:32-36 | the window opens on the loaded list, an empty form, no picture and no record being edited |
| Catalog.ProductManager.EnterForm | shop/product_manager.py:290-295 | typing into the form changes only the form |
| Catalog.ProductManager.SaveProducts | shop/product_manager.py:39-48 | saving rewrites both stored files from the list and changes nothing else |
| Catalog.ProductManager.ClearForm | shop/product_manager.py:439-448 | the form, the picture and the edited index are cleared |
| Catalog.ProductManager.SelectImage | shop/product_manager.py:270-278 | a chosen path becomes the picture; a cancelled dialog changes nothing |
| Catalog.ProductManager.AddProduct | shop/product_manager.py:339-409 | the window's new state and message are those of the add step |
| Catalog.ProductManager.CommitProduct | shop/product_manager.py:366-409 | the window's new state and message are those of the commit step |
| Catalog.ProductManager.UpdateProduct | shop/product_manager.py:288-337 | the window's new state and message are those of the update step, including a failing copy |
| Catalog.ProductManager.RewriteProduct | shop/product_manager.py:301-337 | the window's new state and message are those of the accepted update |
| Catalog.ProductManager.SaveProduct | shop/product_manager.py:281-286 | the save button updates when a record is being edited and adds otherwise |
| Catalog.ProductManager.EditProductAsWritten | shop/product_manager.py:237-268 | the edit button as written: fills the form and forgets the index |
| Catalog.ProductManager.EditProduct | shop/product_manager.py:237-268 | the edit button as intended: fills the form and keeps the index |
| Catalog.ProductManager.DeleteProduct | shop/product_manager.py:411-437 | the window's new state and message are those of the delete step |
| Auth.Strength | auth.js:1563-1573 | the strength score never exceeds 3 |
| Auth.CalculatePasswordStrength | auth.js:1563-1573 | the straight-line counter computes the strength score |
| Auth.LongMixedIsStrong | auth.js:1563-1573 | twelve units with both cases score 3 |
| Auth.ShortLowerIsWeak | auth.js:1563-1573 | fewer than eight lower-case letters score 0 |
| Auth.LengthEightScoresOne | auth.js:1563-1573 | a password that passes the length rule scores at least 1 |
| Auth.EmailShapeParts | auth.js:1209-1210 | the e-mail pattern holds exactly for one `@` between a non-empty clean local part and a clean domain with an inner dot |
| Auth.CountAfter | auth.js:1150-1152 | the attempts within the hour number at most the history |
| Auth.RemainingSeconds | auth.js:1136-1147 | the cooldown message states the seconds left, rounded up, between 1 and 60 |
| Auth.FormRefusal | auth.js:1165-1217 | each field refusal comes exactly when the earlier field checks pass and its own fails, in order: a name under 3 units, passwords that differ, a password under 8 units, a strength under 2, an e-mail that fails the pattern |
| Auth.RegisterRefusal | auth.js:1120-1217 | an unticked captcha is refused first; the cooldown refusal, with the seconds left, comes exactly when the captcha is ticked and the minute has not passed; the hourly refusal exactly when the minute has passed and five attempts lie within the hour; past those the field checks decide |
| Auth.RegisterAcceptedIff | auth.js:1120-1217 | a registration is sent exactly when all eight rules hold |
| Auth.CooldownRefuses | auth.js:1136-1147 | any attempt within a minute of the last accepted one is refused with the seconds left |
| Auth.CountAfterSnoc | auth.js:1255-1258 | recording one more attempt counts it exactly when it is inside the hour |
| Auth.AcceptedKeepsHourlyCap | auth.js:1150-1162 | accepting a registration never takes the hour past five recorded attempts |
| Auth.HourlyCapRefuses | auth.js:1150-1162 | five attempts within the hour refuse the sixth |
| Auth.AntiSpam.constructor | auth.js:244-250 | a fresh page has the captcha unticked, no registration time, and the stored history |
| Auth.AntiSpam.ToggleCaptcha | auth.js:1536-1557 | the captcha flips and nothing else changes |
| Auth.AntiSpam.HandleRegister | auth.js:1108-1258 | the first failing rule is reported; only an accepted request records the time and extends the history |
| Auth.PreviewCredits | auth.js:3244-3277 | the previewed credits are exactly the amount divided by 500 |
| Auth.CreditsAgree | auth.js:3244-3287 | the preview shows credits exactly when the purchase is accepted, and then at least 60, an even number |
| Auth.CreditsExample | auth.js:3244-3277 | 30000 buys 60 credits; 30500 and 29000 buy none |
| Auth.MaskEmail | auth.js:3756-3767 | text without `@` is returned unchanged |
| Auth.MaskParts | auth.js:3760-3766 | the mask of a local part and a domain always ends in `@` and the domain |
| Auth.MaskOfAddress | auth.js:3757-3759 | an address with one `@` is masked from exactly its local part and its domain |
| Auth.MaskOfParts | auth.js:3756-3767 | an address keeps its domain; a local part of at most three UTF-16 units shows its first character, a longer one its first two and its last |
| Auth.TimerColor | auth.js:2834-2847 | red in the last minute, orange up to three minutes, yellow before |
| Auth.TimerText | auth.js:2834-2837 | the `m:ss` text of `updateTimerDisplay`; stated by `Auth.TimerTextReadsBack` and `Auth.TimerExample` |
| Auth.TimerTextReadsBack | auth.js:2834-2847 | the display is minutes, `:`, two digits, which read back as the seconds |
| Auth.TimerExample | auth.js:2834-2847 | 125 seconds show as `2:05` in orange |
| MessageFormat.FormatMatch | auth.js:1692 | the tag pattern captures non-empty text and a non-empty `[a-z/]` tag after the last `*` |
| MessageFormat.ParseLineFormatting | auth.js:1690-1813 | `parseLineFormatting`; stated by `MessageFormat.StyledIffTagged`, `MessageFormat.TaggedLine` and `MessageFormat.LastColorWins` |
| MessageFormat.LastPaint | auth.js:1707-1801 | the last colour word of a tag is found exactly when the tag has one |
| MessageFormat.LastColorWins | auth.js:1707-1801 | the last colour word of a tag wins; with none, the default colour stays |
| MessageFormat.StyleText | auth.js:1803-1811 | the style text always ends with the colour |
| MessageFormat.BoldRedLook | auth.js:1707-1801 | `bold/red` asks for bold red text |
| MessageFormat.BoldStyle | auth.js:1803-1811 | a bold look's style is the weight and then the colour |
| MessageFormat.StyledIffTagged | auth.js:1690-1813 | a line gets a style exactly when its tag matched; an untagged line comes back untouched |
| MessageFormat.TaggedMatch | auth.js:1692 | text, whitespace, `*` and a tag match as that text and that tag |
| MessageFormat.TaggedLine | auth.js:1690-1813 | such a line formats as its trimmed text with the style of its tag |
| MessageFormat.NumberedItem | auth.js:1834-1836 | a numbered line's item is non-empty and free of line terminators |
| MessageFormat.NumberedItemText | auth.js:1834-1836 | a numbered line gives the text after the whitespace that follows its dot |
| MessageFormat.Classify | auth.js:1816-1861 | a paragraph line is never blank |
| MessageFormat.Kinds | auth.js:1815-1816 | one kind per line, in order |
| MessageFormat.ParagraphHtml | auth.js:1849-1894 | the `<p>` of a paragraph line, built from its formatted text; stated by `MessageFormat.ParaStep` |
| MessageFormat.Render | auth.js:1815-1906 | the line loop as recursion over the line kinds; stated by `MessageFormat.RenderIsBlocks`, `MessageFormat.BreakPerBlankLine` and `MessageFormat.NumberedRunIsOneList`, and computed by `MessageFormat.ParseMessageToHtml` |
| MessageFormat.Html | auth.js:1677-1907 | `parseMessageToHTML`; stated by `MessageFormat.MessageHtml` and `MessageFormat.HtmlIsBlocks` |
| MessageFormat.MessageHtml | auth.js:1677-1678 | empty text gives empty HTML |
| MessageFormat.AppendList | auth.js:1821-1825 | the loop appends the list opening, one `<li>` per item and the closing tag |
| MessageFormat.FlushList | auth.js:1850-1858 | the pending list is closed only when one is open |
| MessageFormat.ParseMessageToHtml | auth.js:1677-1907 | the line loop computes the recursive rendering of the message |
| MessageFormat.BlankStep | auth.js:1819-1831 | a blank line closes the open list and adds `<br>` |
| MessageFormat.ItemLineStep | auth.js:1834-1847 | a numbered line adds its item to the open list |
| MessageFormat.ParaStep | auth.js:1849-1894 | any other line closes the open list and adds its paragraph |
| MessageFormat.BlocksHtmlAppend | auth.js:1815-1906 | the HTML of two runs of blocks is their HTMLs laid end to end |
| MessageFormat.RenderIsBlocks | auth.js:1815-1906 | the output is exactly the blocks' HTML laid end to end |
| MessageFormat.HtmlIsBlocks | auth.js:1677-1907 | a whole message is its blocks' HTML |
| MessageFormat.BreakPerBlankLine | auth.js:1819-1831 | each blank line gives exactly one `<br>` and nothing else does |
| MessageFormat.NumberedRunIsOneList | auth.js:1834-1904 | consecutive numbered lines form one list of their items in order, closed by what follows |
| MessageFormat.BlocksShape | auth.js:1815-1904 | lists are never empty and never adjacent |
| App.PairMatch | app.js:793-831 | the `name=value` pattern splits at the first `=` into a non-empty name and a non-empty one-line value |
| App.ParseCookie | app.js:793-831 | JSON exactly for text starting with `{`; the error exactly when neither the pair nor the seven-field form applies |
| App.PairRoundTrip | app.js:793-831 | `name=value` reads back as the trimmed name and value on `.netflix.com`, path `/`, secure |
| App.NetscapeRoundTrip | app.js:793-831 | a tab line without `=` reads back field by field |
| App.TabbedLineWithEquals | app.js:793-831 | the pair form wins over the tab form when the line holds `=` |
| App.Detected | app.js:142-162 | `onExtensionDetected` on the flags: a first detection sets them, a repeated one is skipped; stated by `App.DetectedStays` and `App.AppState.OnExtensionDetected` |
| App.Step | app.js:81-187 | one page event on the flags; stated by `App.DetectedStays`, `App.DetectedIffReady` and `App.IdIsLastAnnounced` |
| App.DetectedStays | app.js:81-187 | once detected, the extension stays detected |
| App.DetectedIffReady | app.js:81-187 | the extension is present exactly when some ready event arrived |
| App.IdIsLastAnnounced | app.js:81-86 | the stored extension id is the last one announced |
| App.GuestRouting | app.js:316-432 | the route: tab missing, the quota stops, auto-inject after a report, direct for pro, the plan modal otherwise, with the extension warning exactly when the extension is absent |
| App.AfterReportNeverStops | app.js:316-432 | the reported-issue path never stops on the quota |
| App.AppState.constructor | app.js:142-187 | a fresh page has no extension and no tab |
| App.AppState.OnExtensionDetected | app.js:142-162 | the detected handler updates the flags as the event step says and leaves the tab alone |
| App.AppState.OnExtensionNotDetected | app.js:167-187 | the not-found handler updates the flags as the event step says |
| App.AppState.OnExtensionReady | app.js:81-86 | the ready listener stores the id and then runs the detected handler |
| App.AppState.WatchAsGuestInternal | app.js:316-432 | the method takes the route the routing function gives for the current page |
| Background.Or | TiemBanhNetflixExtension/background.js:357-448 | `v \|\| fallback` keeps a truthy value and takes the fallback otherwise |
| Background.DecodeValue | TiemBanhNetflixExtension/background.js:484-515 | the value is decoded only when it holds `%`, and kept as it is when decoding throws |
| Background.ParseSingleCookie | TiemBanhNetflixExtension/background.js:484-515 | it throws exactly when the text has no `=`, and otherwise gives a name-value cookie |
| Background.SingleTrims | TiemBanhNetflixExtension/background.js:484-515 | text with an `=` reads as the trimmed text before the first `=` and the trimmed, decoded text after it |
| Background.SingleRoundTrip | TiemBanhNetflixExtension/background.js:484-515 | a trimmed name, `=` and a trimmed value read back as that name and value |
| Background.WithEquals | TiemBanhNetflixExtension/background.js:467-478 | only the pieces holding `=` are kept |
| Background.ParseAll | TiemBanhNetflixExtension/background.js:467-478 | each kept piece parses without throwing, one cookie per piece |
| Background.ParseCookieString | TiemBanhNetflixExtension/background.js:467-478 | it throws exactly for text with neither `;` nor `=`; `;` text gives one cookie per piece with `=` |
| Background.CookieStringRoundTrip | TiemBanhNetflixExtension/background.js:467-478 | cookies joined with `;` come back one per piece |
| Background.WithEqualsKeeps | TiemBanhNetflixExtension/background.js:467-478 | with no surrounding whitespace, every piece holding `=` is kept in order |
| Background.GetCookieUrl | TiemBanhNetflixExtension/background.js:457-462 | for a domain without a leading dot the URL is exactly the scheme `secure` selects (`https://` iff secure), the domain, and the path or `/` when it is empty |
| Background.DotDropped | TiemBanhNetflixExtension/background.js:457-462 | one leading dot of the domain makes no difference, and only one is dropped |
| Background.PrepareDetails | TiemBanhNetflixExtension/background.js:383-429 | the details use the tab URL, the name or `''`, the value or `''`; domain, path, secure and httpOnly are copied when present and `null` when missing; sameSite is copied; the expiry is set exactly when truthy; it throws exactly when the value is not text |
| Background.EachCookieOnce | TiemBanhNetflixExtension/background.js:357-448 | every cookie of the batch lands in exactly one of success and failed |
| Background.SetCookiesRecorded | TiemBanhNetflixExtension/background.js:377-447 | each cookie of the batch that is set has its name among the successes |
| Background.FailedCookiesRecorded | TiemBanhNetflixExtension/background.js:377-447 | each cookie of the batch that fails appears among the failures with its message |
| Background.FailuresFromBatch | TiemBanhNetflixExtension/background.js:377-447 | a failure records the cookie itself and its error, and only cookies of the batch fail |
| Background.InjectOne | TiemBanhNetflixExtension/background.js:377-447 | the `try` block for one cookie; stated by `Background.SetCookiesRecorded`, `Background.FailedCookiesRecorded` and `Background.FailuresFromBatch` |
| Background.Normalize | TiemBanhNetflixExtension/background.js:358-368 | the batch: parsed text, the array itself, or one cookie; stated by `Background.InjectThrowsOnlyOnBareText` |
| Background.Inject | TiemBanhNetflixExtension/background.js:357-448 | `injectCookiesImproved`; stated by `Background.EachCookieOnce`, `Background.InjectThrowsOnlyOnBareText` and computed by `Background.InjectCookiesImproved` |
| Background.InjectThrowsOnlyOnBareText | TiemBanhNetflixExtension/background.js:357-368 | the call throws exactly for text given whole with neither `;` nor `=` |
| Background.InjectCookiesImproved | TiemBanhNetflixExtension/background.js:357-448 | the loop over the batch computes the injection function |
| CookieRetry.OrText | cookie-retry-handler.js:413 | `a \|\| b` with a non-empty fallback is never empty |
| CookieRetry.QueryFor | cookie-retry-handler.js:121-131 | `skipCurrent` from the second attempt on, `excludeIds` exactly when some cookie is excluded, and then all of them |
| CookieRetry.PreviewResult | cookie-retry-handler.js:115-168 | it throws exactly on a network or HTTP error; a cookie always has an id |
| CookieRetry.RefreshAndRecheck | cookie-retry-handler.js:308-360 | a failed recheck always has an error code |
| CookieRetry.CheckNetflixLoginStatus | cookie-retry-handler.js:231-303 | a failure always has an error code; a missing extension is `NO_EXTENSION`; no answer or an unsuccessful one is `NO_RESPONSE`; a throwing check is `CHECK_FAILED` with its message |
| CookieRetry.StatusClassification | cookie-retry-handler.js:231-303 | `success` logs in; `error` defers to the refresh and recheck; any other status is `NOT_BROWSING` |
| CookieRetry.InjectCookieAndCheck | cookie-retry-handler.js:177-224 | every injection failure is `INJECTION_FAILED` with a message: the thrown message when the injector throws, otherwise a non-empty one; a successful injection leaves the verdict to the tab check |
| CookieRetry.AddId | cookie-retry-handler.js:66 | adding an id keeps the earlier ones and adds only that id |
| CookieRetry.AttemptVerdict | cookie-retry-handler.js:36-46 | an attempt works or fails only with a cookie from the preview; no cookie exactly when the preview throws or is empty, with its message |
| CookieRetry.Verdicts | cookie-retry-handler.js:18-110 | the verdicts describe every attempt against the backend and the extension, and every failure names a code |
| CookieRetry.AttemptsBounded | cookie-retry-handler.js:18-110 | at most five previews are requested, one per attempt |
| CookieRetry.SkipCurrentAfterFirst | cookie-retry-handler.js:121-131 | every preview but the first skips the current cookie |
| CookieRetry.ExclusionsKept | cookie-retry-handler.js:121-131 | every preview excludes every cookie excluded at the start |
| CookieRetry.DeadCookieExcluded | cookie-retry-handler.js:61-66 | a cookie reported dead is excluded by every later preview |
| CookieRetry.SuccessOnlyAfterCheck | cookie-retry-handler.js:43-58 | success comes only right after a check that succeeded, and that cookie alone is confirmed, last |
| CookieRetry.ReportsCarryCode | cookie-retry-handler.js:61-63 | every dead-cookie report names the check's own error code, never the `UNKNOWN` fallback |
| CookieRetry.RunStep | cookie-retry-handler.js:18-110 | one attempt of the run: confirm and stop, report and go on, or go on silently unless it was the last |
| CookieRetry.Run | cookie-retry-handler.js:18-110 | the retry loop as recursion over attempts; stated by `CookieRetry.AttemptsBounded`, `CookieRetry.DeadCookieExcluded`, `CookieRetry.SuccessOnlyAfterCheck` and the other run lemmas, and computed by `CookieRetry.CookieRetryHandler.AttemptLogin` |
| CookieRetry.CookieRetryHandler.constructor | cookie-retry-handler.js:7-13 | five retries, no attempt yet, no cookie excluded |
| CookieRetry.CookieRetryHandler.GetCookieFromBackend | cookie-retry-handler.js:115-168 | the query for the current attempt and what the backend answered |
| CookieRetry.CookieRetryHandler.FetchAndCheck | cookie-retry-handler.js:36-44 | the verdict of the current attempt |
| CookieRetry.CookieRetryHandler.AttemptLogin | cookie-retry-handler.js:18-110 | the loop's result, requests, counter and exclusion list are those of the recursive run |

## Left out

- I/O and UI are not modelled: the Tk widgets, message boxes, `refresh_product_list`, `on_select_product`, prints and logs. The model keeps their decision and the message kind.
  - The model does not check the Vietnamese wording of the messages.
- JSON files are values in the model: `Store` holds the list itself. Byte layout, indentation and `ensure_ascii` are not modelled.
  - A file that is present but malformed, which `json.load` would raise on, is not modelled.
- `os.path.splitext` is modelled for `/`-separated paths only. Windows separators are not modelled.
- `os.makedirs` is not modelled: the asset folder is taken to exist.
- QR encoding, picture copying and file removal are not modelled. Whether each succeeds is a parameter.
- Timers and delays become inputs:
  - the 800 ms captcha delay becomes an immediate toggle;
  - the OTP countdown is a number of seconds passed in;
  - `Date.now()` is the `now` parameter.
  - Local-storage parsing is not modelled.
- Network calls become parameters: `fetch` to the backend and to the registration server, `chrome.runtime.sendMessage`, `chrome.cookies.set`, `decodeURIComponent`.
  - The JSON branch of `parseCookie` returns the text it would hand to `JSON.parse`. Its result is not modelled.
  - `parseInt` is modelled as an optional number, with `None` standing for `NaN`.
- JavaScript strings are modelled as sequences of code points. `Strings.Utf16Length` gives `length` wherever the code compares or tests lengths.
  - Indexing and `substring` on characters outside the Basic Multilingual Plane are not modelled.
- Auth.MaskEmail: the length test uses UTF-16 units, but the characters it shows are code points, where JavaScript's `[0]` and `substring` would cut a character outside the Basic Multilingual Plane into a lone surrogate.
- Catalog.RemoveFiles: what lies at a path that is not an asset file (a file outside `aff-data/`, a directory) is the `Disk` parameter, and removing such a file changes no modelled state. A QR reference that names the picture just removed is answered by that parameter too.
- `toLowerCase` in `parseLineFormatting` is modelled on the `[a-z/]` letters the tag pattern admits. Full Unicode case mapping is not modelled.
- The link and `**bold**` rewrites of paragraph text are parameters (`MessageFormat.Rewrites`). Their regular expressions are not modelled.
- `confirmCookie`, `markCookieAsDead` and `releaseCookie` are modelled as the requests they send (`CookieRetry.Call`). Their replies are not modelled: `attemptLogin` ignores them, and it never calls `releaseCookie`.
- The `onProgress` callbacks and `window.showStepStatus` in the retry handler are not modelled: they only display.
- The upgrade, support and plan modals of `_watchAsGuestInternal` are routes in the model. Their contents are not modelled.
- `App.ParseCookie`: the `parseInt` of the expiry field is kept as the raw text, which the model does not convert.
- The files `config.js`, `extension/content.js`, `extension/popup.js` and `TiemBanhNetflixExtension/web-content.js` are not part of this model.

## Findings

| source | as written | input that shows it | evidently intended | confidence | as-written member | corrected member |
|---|---|---|---|---|---|---|
| shop/product_manager.py:246-249 | `edit_product` sets `editing_index` and then calls `clear_form`, which resets it to `None`. So `save_product` never reaches `update_product`. | Select any record, press edit, then press save. Without a new picture the save is refused for lack of one; with one, a second record is appended. | The index survives the form reset, and saving a record opened for editing updates it in place. | not executed | Catalog.EditAsWrittenNeverUpdates (Catalog.ProductManager.EditProductAsWritten) | Catalog.EditSaveUnchanged (Catalog.ProductManager.EditProduct) |
