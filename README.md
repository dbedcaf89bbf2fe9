# AI code review front end: reply normaliser, score card and PDF report

This project models three pieces of a React front end that asks a language model
to review a piece of code, and it proves properties of them in Dafny.

- **The reply normaliser** (`fetchAnalysis` in `src/api.js`). It turns the model's
  reply text into an analysis record:
  - an empty reply is rejected;
  - the text is trimmed and a Markdown code fence is stripped;
  - the text is cut down to the span from the first `{` to the last `}`;
  - `JSON.parse` runs;
  - the three scores are coerced to integers in [0, 100] and the three lists default
    to `[]`. Every other field passes through unchanged.
- **The score card** (`src/components/ScoreCard.jsx`). It clamps a score, possibly
  missing or not a number, to [0, 100]. It shows that value as the number and as the
  bar width, and it colours the bar red, yellow or green.
- **The PDF export** (`handleDownloadPDF` in `src/App.jsx`). It draws a title and a
  date line, then seven sections. A vertical cursor moves down the page, and a new
  page starts once the cursor has gone past 260. A footer is then stamped on every
  page.

## Files

- `wrappers.dfy` defines `Option` and `Result`.
- `js_string.dfy` models the JavaScript string built-ins the code relies on:
  - the ECMA-262 white-space set;
  - `trim`;
  - `indexOf` and `lastIndexOf`;
  - decimal digit strings.
- `js_value.dfy` defines the JSON value datatype and the JavaScript conversions
  applied to it:
  - `String(v)`;
  - truthiness;
  - `Array.prototype.join`;
  - `Number.parseInt` with radix 10 (section 19.2.5 of ECMA-262);
  - `Number.isFinite`;
  - `Math.round`.
- `normalizer.dfy` models lines 38-66 of `src/api.js`. It has two parts:
  - the functions `PrepareText`, `CoerceFields` and `Normalize`;
  - the methods that do the same work step by step, as the source does.
- `score_card.dfy` models `ScoreCard.jsx`.
- `pdf_report.dfy` models `handleDownloadPDF`:
  - the jsPDF document is a class with its page list and current page;
  - `addSection` and the footer loop are methods;
  - the layout is specified by functions.

How the model represents the source:

- **JSON numbers** are the exact decimals `mantissa / 10^scale`.
- **`JSON.parse`** is the parameter `parse: string -> Option<Json>`.
- **`splitTextToSize`** is the parameter `wrap: string -> seq<string>`.
- **The date string** is the parameter `now`.
- **Score coercion.** `CoercedScores` and `CoerceFields` take the coercion as a
  parameter `coerce`. `Normalize` and `RewriteFields` pass the source's `Coerce` to it.
- **`String(v)` can throw.** A JSON object with its own `toString` key has a
  property that is not a function, and `valueOf` returns the object itself, so the
  conversion throws a TypeError. An array holding such an object throws when it is
  joined. `ThrowsOnToString` names these values. `ToString`, `JoinItems` and
  `Coerce` return `None` on them. `Normalize` then fails with `UnconvertibleScore`,
  as `fetchAnalysis` rejects.
- **Errors thrown while drawing** are caught by the promise's `.catch`, as in the
  source. A property read of `undefined.security` is one, and a `.join` on a truthy
  non-array is another, and so is a body whose `String(v)` or `join` throws. `Report` and `DownloadPdf` return them as the outcome
  `Failed("Failed to generate PDF (jspdf error).")`.

Three behaviours of the code worth knowing:

- **Fractional scores are truncated, not rounded.** `Number.parseInt` reads the
  leading digits of `String(v)`, so `Math.round` never changes anything. For example,
  42.9 becomes 42, 100.6 becomes 100, and -3.7 becomes -3 and then 0.
- **`summary` is never given a default.**
- **List elements that are not strings are kept.**

## Model

| member | source | states |
|---|---|---|
| Normalizer.Normalize | src/api.js:38-66 | An empty or missing reply fails with "No content returned by Gemini." before anything else. A parse failure returns no record. A score whose string conversion throws fails with `UnconvertibleScore`, exactly when the parse gives an object but `ScoresConvert` does not hold. A record is returned exactly when the reply is non-empty, the parse gives an object and every score converts. That record is `CoerceFields` of the parsed object and satisfies `IsAnalysisRecord`. |
| Normalizer.FetchAnalysis | src/api.js:38-66 | The step-by-step procedure returns exactly `Normalize`. |
| Normalizer.PrepareReply | src/api.js:41-47 | Running the two steps on `text` yields `PrepareText` of the reply. |
| Normalizer.UnfenceReply | src/api.js:41-43 | Trimming `text` and unfencing it when it starts with a fence yields `StripFences(Trim(reply))`. |
| Normalizer.CutToBraces | src/api.js:45-47 | Slicing from the first `{` to the last `}`, when both exist, yields `ExtractObject` of the text. |
| Normalizer.RewriteFields | src/api.js:51-64 | Coerces the three scores in order, stopping at the first whose conversion throws, then overwrites the four fields one at a time. The result is `None` exactly when a score does not convert, and otherwise it is `CoerceFields(parsed, coerce)`. |
| Normalizer.ThreeScores | src/api.js:57-61 | When the three scores convert, the new `scores` object holds exactly those three integers under the three keys. |
| Normalizer.DropJsonFence | src/api.js:43 | On text starting with `` ```json `` (any case), the result is the suffix after those seven characters and the white space behind them: everything removed after them is white space, and the result does not start with white space. Other text is unchanged. |
| Normalizer.DropFence | src/api.js:43 | On text starting with `` ``` ``, the result is the suffix after the three backticks and the white space behind them: everything removed after them is white space, and the result does not start with white space. Other text is unchanged. |
| Normalizer.DropClosingFence | src/api.js:43 | Text ending in `` ``` `` is the result followed by the fence. Other text is unchanged. |
| Normalizer.StripFences | src/api.js:42-43 | Text that does not start with three backticks is left unchanged. Fenced text loses at least the three backticks. |
| Normalizer.ExtractObject | src/api.js:45-47 | With both braces in order, the result is the slice from the first `{` to the last `}`, starting with `{` and ending with `}`. If the last `}` comes before the first `{`, the result is empty. If either brace is missing, the text is unchanged. |
| Normalizer.PrepareText | src/api.js:41-47 | The text handed to `JSON.parse` is never longer than the reply. |
| Normalizer.ScoreField | src/api.js:51 | `(parsed.scores \|\| {})[key]`: a falsy `scores` reads from `{}`. An object `scores` gives its own field. A truthy non-object gives `undefined`. |
| Normalizer.ClampPercent | src/api.js:55 | The result lies in [0, 100]. A value in range is kept, below 0 gives 0 and above 100 gives 100. |
| Normalizer.Coerce | src/api.js:52-56 | The conversion throws (`None`) exactly when `String(v)` throws. Otherwise the coerced score lies in [0, 100]. |
| Normalizer.CoerceParsed | src/api.js:53-55 | NaN or a non-finite `parseInt` result gives 0. An integer in [0, 100] is kept, below 0 gives 0, and above 100 gives 100. |
| Normalizer.CoerceIsPercent | src/api.js:52-56 | `Coerce` maps every value into [0, 100]. |
| Normalizer.CoercedScores | src/api.js:57-61 | The new `scores` has exactly the three keys. Each value is an integer in [0, 100] equal to `coerce` of the old field. |
| Normalizer.ListOrEmpty | src/api.js:62-64 | An array is kept as it is. Anything else becomes `[]`. |
| Normalizer.CoerceFields | src/api.js:51-66 | The keys are the parsed keys plus `scores` and the three lists. Every other field, `summary` included, is unchanged. The scores are `CoercedScores` and each list is `ListOrEmpty`. |
| Normalizer.RoundOfInteger | src/api.js:55 | `Math.round` of an integer is that integer. |
| Normalizer.CoerceNumber | src/api.js:53-55 | A number is truncated toward zero and then clamped to [0, 100]. |
| Normalizer.CoerceScore | src/api.js:52-56 | An integer score in [0, 100] is kept. |
| Normalizer.CoerceUndefined | src/api.js:51-54 | A missing score gives 0. |
| Normalizer.CoerceNull | src/api.js:53-54 | A `null` score gives 0. |
| Normalizer.CoerceBool | src/api.js:53-54 | A boolean score gives 0. |
| Normalizer.CoerceObject | src/api.js:53-54 | An object score without its own `toString` key gives 0. |
| Normalizer.CoerceObjectWithToString | src/api.js:53 | An object score with its own `toString` key makes the conversion throw. |
| Normalizer.ThrowingScoreRejected | src/api.js:51-60 | A reply whose `scores.security` is an object with its own `toString` key fails with `UnconvertibleScore`. |
| Normalizer.CoerceAboveRange | src/api.js:55 | 150 gives 100. |
| Normalizer.CoerceBelowRange | src/api.js:55 | -1 gives 0. |
| Normalizer.CoerceTruncates | src/api.js:53-55 | 42.9 gives 42. |
| Normalizer.CoerceTruncatesAboveRange | src/api.js:53-55 | 100.6 gives 100. |
| Normalizer.CoerceNegativeFraction | src/api.js:53-55 | -3.7 gives 0. |
| Normalizer.CoerceKeepsScores | src/api.js:52-56 | `Coerce` keeps every score it writes. |
| Normalizer.CoerceFieldsIdempotent | src/api.js:51-64 | Coercing an already coerced record changes nothing, for any coercion that maps into [0, 100] and keeps its own results. |
| Normalizer.NormalizedRecordIsFixed | src/api.js:51-64 | Coercing an already coerced record again changes nothing. |
| Normalizer.NotFenced | src/api.js:42 | A text that does not start with a backtick is not fenced. |
| Normalizer.ExtractAround | src/api.js:45-47 | Brace extraction returns a braced text surrounded by text with no `{` before it and no `}` after it. |
| Normalizer.DropJsonFenceKeepsObject | src/api.js:43 | The `` ```json `` replacement keeps an object that follows brace-free text, and leaves a suffix of that text in front of it. |
| Normalizer.DropFenceKeepsObject | src/api.js:43 | The `` ``` `` replacement keeps an object that follows brace-free text, and leaves a suffix of that text in front of it. |
| Normalizer.DropClosingFenceKeepsObject | src/api.js:43 | The closing replacement keeps an object that ends in `}`, and leaves a prefix of the text behind it. |
| Normalizer.OpeningFencesKeepObject | src/api.js:43 | The two opening replacements together keep the object and leave a suffix of the text in front of it. |
| Normalizer.ClosingFenceAfterObject | src/api.js:43-47 | After the closing replacement, brace extraction still finds exactly the object. |
| Normalizer.StripFencesKeepsObject | src/api.js:42-47 | Fence stripping followed by brace extraction gives exactly the object, whatever brace-free text surrounds it. |
| Normalizer.PrepareBraced | src/api.js:41-47 | A bare braced object passes through preparation unchanged. |
| Normalizer.ProseAroundObject | src/api.js:41-47 | Prose before and after the object is cut away, whatever it holds, as long as it has no `{` before the object and no `}` after it. Fenced prose is included. |
| Normalizer.OpeningFenceDropped | src/api.js:43 | An opening `` ```json `` or `` ``` `` fence and the white space after it are removed. |
| Normalizer.TaggedFenceDropped | src/api.js:43 | The `` ```json `` replacement removes the fence, the tag and the white space after them. |
| Normalizer.BareFenceDropped | src/api.js:43 | Without a tag, the first replacement leaves the text alone and the second removes the fence and the white space. |
| Normalizer.ClosingFenceDropped | src/api.js:43-47 | The closing fence goes, then the white space before it. |
| Normalizer.FencedReply | src/api.js:41-47 | A fenced reply is prepared to exactly the object inside the fence. |
| Normalizer.NormalizeIgnoresFence | src/api.js:38-66 | A fenced reply normalises like the bare object. |
| Normalizer.NormalizeIgnoresProse | src/api.js:38-66 | A reply with prose around the object normalises like the bare object. |
| JsString.TrimStartIsSuffix | src/api.js:41 | Trimming the front leaves a suffix that starts with a non-space, and everything dropped is white space. |
| JsString.TrimStart | src/api.js:41-42 | The result is no longer than the text and does not start with white space. A text that starts with a non-space is unchanged. |
| JsString.StartsWithSplits | src/api.js:42 | `startsWith` holds exactly when the text is the prefix followed by some text. |
| JsString.TrimEnd | src/api.js:41 | Trimming the back leaves a prefix that ends with a non-space, and everything dropped is white space. |
| JsString.Trim | src/api.js:41 | The result has no white space at either end, and a text without such white space is unchanged. |
| JsString.TrimAround | src/api.js:41 | Trimming a text around a core with non-space ends trims only the parts around it. |
| JsString.IndexOf | src/api.js:45 | Gives the first position of the character, or none exactly when it is absent. |
| JsString.LastIndexOf | src/api.js:46 | Gives the last position of the character, or none exactly when it is absent. |
| JsValue.ParseIntOfNumberString | src/api.js:53 | `parseInt(String(x))` is `x` truncated toward zero. |
| JsValue.ParseIntSkipsSpaces | src/api.js:53 | `parseInt` ignores leading white space. |
| JsValue.ParseIntReadsLeadingInteger | src/api.js:53 | `parseInt` reads back a signed decimal in front of a non-digit. |
| JsValue.ParseIntOfDigits | src/api.js:53 | `parseInt` of digits followed by a non-digit is the value of the digits. |
| JsValue.ParseIntOfNegativeDigits | src/api.js:53 | `parseInt` of `-` and digits followed by a non-digit is minus the value of the digits. |
| JsValue.NumberStringOfInteger | src/App.jsx:88-90 | `String(n)` of a non-negative integer is its decimal digits. |
| JsValue.MathRound | src/api.js:55 | `Math.round(x)` lies in (x - 1/2, x + 1/2]. |
| JsValue.ParseInt | src/api.js:53 | A string of white space alone gives NaN (`None`). A string starting with a digit gives a non-negative integer. |
| JsValue.ParseSigned | src/api.js:53 | After the white space: an empty text, or one starting with neither a digit nor a sign, gives NaN. A digit gives a non-negative integer. A sign gives a number exactly when a digit follows it, never positive after `-` and never negative after `+`. |
| JsValue.NumberString | src/api.js:53 | `String(x)` of a number is never empty and starts with `-` exactly when the number is negative. |
| JsValue.ToString | src/App.jsx:87-90 | `String(v)` throws exactly on the values `ThrowsOnToString` names. |
| JsValue.PropertyString | src/api.js:53 | A missing property converts to "undefined". The conversion throws exactly when the value `ThrowsOnToString`. |
| JsValue.Truthy | src/App.jsx:87-93 | A truthy value is present and not `null`. Every array and every object is truthy. |
| JsValue.IsFinite | src/api.js:54 | Every integer that a double holds exactly is finite. A magnitude of 2^1024 - 2^970 or more, where a double overflows to Infinity, is not. |
| JsValue.JoinItems | src/App.jsx:91-93 | `join` throws exactly when an element's conversion throws. Otherwise it is empty exactly for `[]` or a single element that is `null` or whose string form is empty. |
| ScoreCard.Clamped | src/components/ScoreCard.jsx:4 | `clamped` lies in [0, 100]. A missing or non-finite score gives 0. A finite score in range is kept, below 0 gives 0 and above 100 gives 100. |
| ScoreCard.BandOf | src/components/ScoreCard.jsx:5-7 | The band is green exactly from 75, yellow exactly in [40, 75) and red exactly below 40. |
| ScoreCard.BandMonotone | src/components/ScoreCard.jsx:5-7 | A higher score never gets a worse colour band. |
| ScoreCard.BarClass | src/components/ScoreCard.jsx:5-7 | Each of the three colour classes belongs to exactly one band. |
| ScoreCard.Render | src/components/ScoreCard.jsx:9-19 | The number shown equals the bar width and lies in [0, 100]. The colour class is green, yellow or red exactly as the shown value lies at 75 or more, in [40, 75), or below 40. |
| ScoreCard.ClampedScore | src/components/ScoreCard.jsx:4 | An integer score in [0, 100] is shown as it is. |
| ScoreCard.NormalizedScoreShownAsIs | src/components/ScoreCard.jsx:4 | On every score the normaliser returns, the clamp is the identity. |
| PdfReport.PdfDocument.constructor | src/App.jsx:52 | `new jsPDF()` has one empty page, which is current. |
| PdfReport.PdfDocument.AddPage | src/App.jsx:85 | Appends an empty page and makes it current. |
| PdfReport.PdfDocument.SetPage | src/App.jsx:96 | Changes the current page and nothing else. |
| PdfReport.PdfDocument.NumberOfPages | src/App.jsx:94 | The page count is at least 1 and equals the number of pages. |
| PdfReport.PdfDocument.Text | src/App.jsx:68 | Records the text on the current page only. |
| PdfReport.PdfDocument.TextLines | src/App.jsx:83 | Records the lines on the current page only. |
| PdfReport.PdfDocument.Rect | src/App.jsx:77 | Records the bar on the current page only. |
| PdfReport.SummaryBody | src/App.jsx:87 | An absent or falsy summary shows a dash. A non-empty string summary shows as itself. The section throws exactly when the summary is truthy and its `String(v)` throws. |
| PdfReport.ScoreBody | src/App.jsx:88-90 | Throws exactly when `scores` is missing or `null`, or when the score's string conversion throws. Otherwise the text ends with `/100`. |
| PdfReport.ListBody | src/App.jsx:91-93 | Throws exactly when the value is truthy and either not an array or an array whose `join` throws. Otherwise the text is never empty, and `[]` shows a dash. |
| PdfReport.BlankListShowsPlaceholder | src/App.jsx:91-93 | `[""]` and `[null]` also show a dash. |
| PdfReport.ListShowsItems | src/App.jsx:91-93 | A list with a non-empty join shows its items joined by newlines. |
| PdfReport.LeadingSections | src/App.jsx:87-90 | The first four sections, in order, exist exactly when neither the summary nor a score body throws. |
| PdfReport.ListSections | src/App.jsx:91-93 | The three list sections, in order, exist exactly when no list throws. |
| PdfReport.Sections | src/App.jsx:87-93 | Exactly seven sections, titled in the source's order, or a failure exactly when one body throws. |
| PdfReport.PlaceSection | src/App.jsx:73-86 | Placing a section adds at most one page and removes none. |
| PdfReport.PlaceSections | src/App.jsx:87-93 | Placing the sections adds at most one page per section and removes none. |
| PdfReport.SectionOps | src/App.jsx:76-83 | A section draws three things: its bar first, at the cursor, then its heading and its lines below the cursor. It draws no footer. |
| PdfReport.Header | src/App.jsx:54-72 | The title and the date line are two texts on a single page, both above the cursor, which stands at 42. |
| PdfReport.AppendToLast | src/App.jsx:77-83 | Drawing touches only the last page and appends to it. |
| PdfReport.WithFooters | src/App.jsx:94-99 | Every page gets the footer appended as its last drawing. |
| PdfReport.PlaceSectionsAppend | src/App.jsx:87-93 | Placing two runs of sections equals placing their concatenation. |
| PdfReport.PageCount | src/App.jsx:84-85 | The cursor ends where `CursorRun` says. Placing the sections adds one page for each time the cursor went past 260. |
| PdfReport.PlaceSectionBars | src/App.jsx:77-85 | One section keeps the cursor in [20, 260] and draws its bar inside it. |
| PdfReport.BarsStayOnPage | src/App.jsx:77-85 | Every heading bar starts between 20 and 260, so no section starts below 260. |
| PdfReport.NoFooterInSections | src/App.jsx:73-93 | The section pass draws no footer. |
| PdfReport.FooterOncePerPage | src/App.jsx:94-99 | After the footer pass, each page holds the footer exactly once, as its last drawing. |
| PdfReport.HeadingsOfAppend | src/App.jsx:79 | The headings of two runs of drawings are their headings concatenated. |
| PdfReport.SectionHeading | src/App.jsx:77-83 | A section draws exactly one heading, its title. |
| PdfReport.PlaceSectionHeadings | src/App.jsx:73-86 | Placing a section adds exactly its title to the headings. |
| PdfReport.HeadingsInOrder | src/App.jsx:87-93 | The headings come out in the order of the sections. |
| PdfReport.HeadingsIgnoreFooters | src/App.jsx:94-99 | The footers add no heading. |
| PdfReport.TrailingEmptyPage | src/App.jsx:85 | After at least one section, the last page is empty exactly when the cursor went back to 20. |
| PdfReport.PagesOnlyGrow | src/App.jsx:73-93 | Placing sections only appends drawings, and no page loses any. |
| PdfReport.HeaderLayout | src/App.jsx:54-72 | The header draws no heading, no bar and no footer. |
| PdfReport.Report | src/App.jsx:49-104 | Nothing happens exactly when there is no analysis. The report is saved exactly when all seven sections can be built, with between one and eight pages. Every failure carries the message "Failed to generate PDF (jspdf error).". |
| PdfReport.Render | src/App.jsx:54-100 | The rendered document has at least one page and at most one more page than there are sections. |
| PdfReport.RenderedPageCount | src/App.jsx:84-94 | The rendered pages are one plus one for each time the cursor went past 260. |
| PdfReport.RenderedHeadings | src/App.jsx:76-93 | The rendered headings are the section titles, in order. |
| PdfReport.RenderedBars | src/App.jsx:77-85 | Every rendered heading bar starts between 20 and 260. |
| PdfReport.RenderedFooters | src/App.jsx:94-99 | Every rendered page carries the footer exactly once, as its last drawing. |
| PdfReport.RenderedTrailingPage | src/App.jsx:85-94 | After at least one section, the last page holds only the footer exactly when the cursor went back to 20. |
| PdfReport.RenderedFirstSection | src/App.jsx:54-79 | The first section's bar is at 42 on page 1, with its heading at 48. |
| PdfReport.ReportPageCount | src/App.jsx:85-94 | A saved report has one page plus one for each time the cursor went past 260. |
| PdfReport.ReportHeadings | src/App.jsx:87-93 | A saved report shows the seven headings, in order. |
| PdfReport.ReportBars | src/App.jsx:77-85 | Every heading bar of a saved report starts between 20 and 260. |
| PdfReport.ReportFooters | src/App.jsx:94-99 | Each page of a saved report carries the footer "Developed by pd" at 290 exactly once, as its last drawing. |
| PdfReport.ReportTrailingPage | src/App.jsx:85-94 | The last page holds only the footer exactly when the last section ran past 260. |
| PdfReport.ReportFirstSection | src/App.jsx:54-79 | The first section's bar is at 42 on page 1, with the heading "Summary" at 48. |
| PdfReport.NormalizedRecordRenders | src/App.jsx:87-93 | Every record the normaliser returns is saved as a report, each score written as `<n>/100`, provided its summary and the elements of its lists convert to strings without throwing. |
| PdfReport.ThrowingListFails | src/App.jsx:91-93 | A normalised record whose list holds an element whose conversion throws is not saved: the export fails with the failure message. |
| PdfReport.AddSection | src/App.jsx:73-86 | `addSection` leaves exactly the document and cursor of `PlaceSection`, with the last page current. |
| PdfReport.StampFooters | src/App.jsx:94-99 | The footer loop turns the pages into `WithFooters` of the pages, and leaves the last page current. |
| PdfReport.PlaceThree | src/App.jsx:87-93 | Placing three sections applies `PlaceSection` three times in order. |
| PdfReport.PlaceFour | src/App.jsx:87-90 | Placing four sections is placing three, then the fourth. |
| PdfReport.DrawLeadingSections | src/App.jsx:87-90 | Draws the summary and score sections as `PlaceSections` of `LeadingSections`, and fails exactly when those throw. |
| PdfReport.DrawListSections | src/App.jsx:91-93 | Draws the list sections as `PlaceSections` of `ListSections`, and fails exactly when those throw. |
| PdfReport.DownloadPdf | src/App.jsx:49-104 | The handler's outcome is exactly `Report`. A null analysis gives nothing. A body that throws gives the failure message. Otherwise the pages are saved. |

## Left out

- The HTTP request, the API-key check, the prompt and the HTTP status error (`src/api.js:1-37`) are network I/O. The reply text is the model's input, with `None` standing for a reply that carries no text.
- `JSON.parse` is a parameter, so its own grammar, number rounding and duplicate keys are not modelled.
- A parse result that is not an object fails with `NotAnObject`. For `null` this matches the TypeError the source throws. For primitives it matches the strict-mode TypeError on assigning `parsed.scores`. An array would instead be returned with properties attached, and the model does not follow that case.
- Numbers are exact decimals rather than doubles. Exponent-form string conversion (such as `1e21` becoming `"1e+21"`) and the rounding of long decimals are not modelled.
- `Normalizer.Coerce`: an array score is converted with `String(v)` as a join, as JavaScript does. Its exponent-form corner cases are left out as above.
- White space is the ECMA-262 set of code points. Strings are sequences of code points, not UTF-16 units.
- jsPDF is reduced to the drawing record of each page. Fonts, colours, `setFontSize`/`setTextColor`/`setFillColor`, the fill style and `doc.save` are not modelled. `splitTextToSize` is the uninterpreted `wrap`.
- The logo embedding through the DOM canvas and its swallowed error (`src/App.jsx:55-66`) is left out. So are the locale date string, which becomes the parameter `now`, and the dynamic `import('jspdf')`.
- `PdfReport.DownloadPdf`: when a section body throws, the model reports only the failure. The drawings made before the throw are discarded, as the source discards that unsaved document. The `console.error` call is not modelled.
- `PdfReport.SummaryBody` converts a non-string summary with `String(v)`, as `splitTextToSize` does for text that is not an array. An array summary would instead be wrapped by jsPDF as a list of paragraphs. The model converts it with `String(v)`, so its text and its throwing cases follow `join` rather than jsPDF.
- Clipboard copy, the JSON download, React state, `handleReview`, `ReviewDashboard.jsx` and `CodeInput.jsx` are UI plumbing and are not part of this model.
- `ScoreCard.Render`: the JSX markup is reduced to the caption, the shown value, the colour class and the width.
