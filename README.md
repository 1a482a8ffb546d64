# PageSpeed Analyzer: the verified core

A Dafny model of the logic inside the PageSpeed Analyzer web application:

- **The PDF report** (`ExportPdf`). Score tiers (label and colour) come from one pair of thresholds, 90 and 50. Each section is laid out from a vertical cursor. A page break comes before the desktop section. A footer pass stamps every page "Page i of N". The file name comes from the analysed URL. The PDF library is reduced to a `Doc` class: a list of pages, each the list of marks drawn on it, and the current page.
- **The client-side speed test** (`SpeedTestHook`). One result record moves from reset to ping (progress 20), download (60) and upload (100, not loading). A single catch path keeps what was already published. The ping is the median of three samples, sorted in place. A drain loop adds up the lengths of streamed chunks. The upload buffer is filled in place at every 100th byte.
- **The home page** (`HomePage`). `handleAnalyze` merges the mobile and desktop answers into the page state. That state selects the active result, decides when the results section renders and which tab buttons are enabled, and drives the score-colour and metric-status tiers.
- **The speed-test endpoint** (`SpeedTestRoute`). `GET` dispatches on `type`: `ping`, `download` (a 2 MiB buffer with noise at every 1000th byte) or a 400 error. `POST` always acknowledges.

`Bytes` holds the `Uint8Array` element type and the shared "sparse noise buffer" definition. `Wrappers` holds `Option`.

Network replies, clock readings and `Math.random()` results are parameters. A `Network` value says what each request of a speed-test run returned and how long each timed transfer took. A `Fetched` value says what the two analyze requests answered. `draws` are the random numbers in call order. Numbers are exact `real`s and `int`s.

Two facts about the code:
- The upload payload is `2 * 1024 * 1024` bytes (app/src/hooks/use-speed-test.ts:60).
- The ping is the median of three samples (app/src/hooks/use-speed-test.ts:33-34), though the comment at line 24 says "average of 3".

## Model

| member | source | states |
|---|---|---|
| Bytes.ToUint8 | app/src/app/api/speedtest/route.ts:22 | storing a number in 0..256 into a `Uint8Array` keeps its integer part: the byte is at most the number and more than the number minus one |
| Bytes.Writes | app/src/hooks/use-speed-test.ts:62 | the write count of a `for (i = 0; i < size; i += step)` loop: every written index `i` has `i / step` below it, and the last write is still inside the buffer |
| Bytes.Sparse | app/src/app/api/speedtest/route.ts:17-23 | a zero-filled buffer written every `step` bytes has the buffer's size, zero off the step, and the k-th written value at index `k * step` |
| SpeedTestRoute.NoiseByte | app/src/app/api/speedtest/route.ts:22 | `Math.random() * 255` stored as a byte lies in 0..254 and is the integer part of the product |
| SpeedTestRoute.DownloadPayload | app/src/app/api/speedtest/route.ts:15-23 | the download body is exactly 2·1024·1024 bytes, zero except at multiples of 1000, where the k-th draw's noise byte sits; no byte is 255 |
| SpeedTestRoute.DownloadPayloadSparse | app/src/app/api/speedtest/route.ts:21-23 | byte i of the download body is the noise byte of draw i/1000 when 1000 divides i, and 0 otherwise |
| SpeedTestRoute.Get | app/src/app/api/speedtest/route.ts:4-34 | `type=ping` answers 200 "pong"; `type=download` answers 200 with the octet-stream, no-store headers and the noise buffer its loop fills in place; any other or missing `type` answers 400 `{error: "Invalid type"}` |
| SpeedTestRoute.Post | app/src/app/api/speedtest/route.ts:36-41 | every upload, whatever its body, is answered 200 "received" |
| SpeedTestHook.Round | app/src/hooks/use-speed-test.ts:34 | `Math.round` gives the integer within half a unit of the value, halves going up |
| SpeedTestHook.Median3 | app/src/hooks/use-speed-test.ts:32-34 | the median of three samples is one of them and lies between the other two |
| SpeedTestHook.MedianOfSorted | app/src/hooks/use-speed-test.ts:33-34 | the middle element of any ascending permutation of three samples is their median |
| SpeedTestHook.CompareSwap | app/src/hooks/use-speed-test.ts:33 | one comparison of the sort puts two samples in ascending order without losing or adding any |
| SpeedTestHook.Order3 | app/src/hooks/use-speed-test.ts:33 | the ascending order of three samples is a permutation of them |
| SpeedTestHook.Sort3 | app/src/hooks/use-speed-test.ts:33 | sorting the three samples in place leaves them ascending and a permutation of the originals |
| SpeedTestHook.MeasurePing | app/src/hooks/use-speed-test.ts:25-34 | the ping stage fails exactly when fewer than three requests resolved; otherwise it yields the rounded median of the first three round trips |
| SpeedTestHook.Drain | app/src/hooks/use-speed-test.ts:46-51 | after the drain loop, `receivedLength` is the sum of the lengths of all chunks read before `done`; a read that rejects yields nothing |
| SpeedTestHook.DownloadedBytes | app/src/hooks/use-speed-test.ts:39-51 | the download stage counts bytes exactly when the response is ok, has a reader and streams to the end, and then counts the chunk total |
| SpeedTestHook.Mbps | app/src/hooks/use-speed-test.ts:53-56 | throughput is non-negative, and throughput × seconds × 2^20 equals the bits moved |
| SpeedTestHook.ToFixed2 | app/src/hooks/use-speed-test.ts:57 | `parseFloat(x.toFixed(2))` is a whole number of hundredths within half a hundredth of x |
| SpeedTestHook.UploadByte | app/src/hooks/use-speed-test.ts:63 | `Math.floor(Math.random() * 256)` is the integer part of the product, so a byte in 0..255 |
| SpeedTestHook.UploadContents | app/src/hooks/use-speed-test.ts:60-64 | the upload buffer is 2·1024·1024 bytes, zero except at multiples of 100, where the k-th draw's byte sits |
| SpeedTestHook.UploadPayload | app/src/hooks/use-speed-test.ts:60-64 | the in-place fill loop over the zero-filled array produces exactly those upload contents |
| SpeedTestHook.Failed | app/src/hooks/use-speed-test.ts:78-81 | the catch path stops loading and resets progress to 0, keeping ping, download and upload as they were |
| SpeedTestHook.Snapshots | app/src/hooks/use-speed-test.ts:20-81 | a run publishes two to four states, starting with all values null, loading and progress 0 |
| SpeedTestHook.SpeedTest.constructor | app/src/hooks/use-speed-test.ts:12-18 | the initial result has no ping, download or upload, is not loading and has progress 0 |
| SpeedTestHook.SpeedTest.SetResult | app/src/hooks/use-speed-test.ts:12 | `setResult` replaces the result and is appended to what the UI has been shown |
| SpeedTestHook.SpeedTest.RunTest | app/src/hooks/use-speed-test.ts:20-82 | `runTest` publishes exactly the stage sequence `Snapshots` gives for what the network does, and ends in its last state |
| SpeedTestHook.SuccessfulRun | app/src/hooks/use-speed-test.ts:35-76 | a fully successful run publishes progress 20, 60, 100 in order; each step changes only its own value and progress; loading turns false only at the last step |
| SpeedTestHook.FailedRun | app/src/hooks/use-speed-test.ts:78-81 | a run that fails at any stage ends with the catch state of the last published state, with no upload value |
| SpeedTestHook.DownloadRejected | app/src/hooks/use-speed-test.ts:41-44 | a non-ok download response or a missing reader stops the run after the ping, before `download` is set |
| ExportPdf.ScoreLabel | app/src/lib/export-pdf.ts:22-26 | "Good" exactly for scores ≥ 90, "Needs Improvement" exactly for 50..89, "Poor" exactly below 50 |
| ExportPdf.ScoreRgb | app/src/lib/export-pdf.ts:28-32 | green exactly for scores ≥ 90, yellow exactly for 50..89, red exactly below 50 |
| ExportPdf.LabelAndColourAgree | app/src/lib/export-pdf.ts:22-32 | a card's status label and its colour always come from the same tier |
| ExportPdf.DisplayValue | app/src/lib/export-pdf.ts:147 | a metric row prints "N/A" when its value is missing or empty, and the value otherwise |
| ExportPdf.SectionMarks | app/src/lib/export-pdf.ts:66-153 | a section draws twelve marks: title, rule, four cards, the "Core Web Vitals" heading and five rows |
| ExportPdf.SectionCards | app/src/lib/export-pdf.ts:82-114 | a section has exactly four score cards, Performance, Accessibility, Best Practices and SEO in that order, each with its score, that score's label and colour, 16 units below the start |
| ExportPdf.SectionRows | app/src/lib/export-pdf.ts:125-150 | a section has exactly five metric rows, LCP, CLS, TBT, FCP and SI in that order, 13 units apart, each printing its value or "N/A" |
| ExportPdf.Doc.constructor | app/src/lib/export-pdf.ts:39 | a new document has one empty page, and it is current |
| ExportPdf.Doc.AddPage | app/src/lib/export-pdf.ts:165 | `addPage` appends an empty page and makes it current |
| ExportPdf.Doc.SetPage | app/src/lib/export-pdf.ts:174 | `setPage` changes only the current page |
| ExportPdf.Doc.Draw | app/src/lib/export-pdf.ts:44-50 | drawing appends the mark to the current page and leaves every other page unchanged |
| ExportPdf.DrawHeader | app/src/lib/export-pdf.ts:43-56 | the header band, title, URL line and generation line are appended to the current page, in that order, at y 28, 38 and 44 |
| ExportPdf.DrawCards | app/src/lib/export-pdf.ts:90-114 | the card loop appends one card per score to the current page, in order, and changes no other page |
| ExportPdf.DrawRows | app/src/lib/export-pdf.ts:133-150 | the row loop appends one row per metric 13 units apart to the current page and moves the cursor down by 65 |
| ExportPdf.DrawScoreSection | app/src/lib/export-pdf.ts:61-154 | the section's marks are appended to the current page, and the returned cursor is always `startY + 152` (4 + 12 + 55 + 8 + 5·13 + 8), whatever the scores and strings |
| ExportPdf.CursorAfterMobile | app/src/lib/export-pdf.ts:157-164 | starting at 62, the cursor exceeds 180 before the desktop section exactly when the mobile section was drawn |
| ExportPdf.Content | app/src/lib/export-pdf.ts:41-169 | the content before the footer pass fills one or two pages |
| ExportPdf.Stamped | app/src/lib/export-pdf.ts:172-183 | the footer pass keeps the number of pages |
| ExportPdf.StampFooters | app/src/lib/export-pdf.ts:172-183 | the footer loop appends `Footer(i, N)` to each page i in 1..N and nothing else |
| ExportPdf.ExportAnalysisPdf | app/src/lib/export-pdf.ts:34-188 | the document built is the header, the sections and page break, then the footers, and the file name is the one derived from the URL |
| ExportPdf.Report | app/src/lib/export-pdf.ts:34-188 | the finished document has two pages when both results are present and one otherwise; the first page opens with the header; every page i of N ends with its footer `Footer(i, N)` |
| ExportPdf.SectionHasNoFooter | app/src/lib/export-pdf.ts:66-153 | a section draws no footer |
| ExportPdf.ContentHasNoFooter | app/src/lib/export-pdf.ts:43-169 | no footer is drawn before the footer pass |
| ExportPdf.FootersStampEveryPageOnce | app/src/lib/export-pdf.ts:172-183 | every page i of the finished report carries exactly one footer, and it reads "Page i of N" with N the final page count |
| ExportPdf.SchemeAt | app/src/lib/export-pdf.ts:186 | the pattern `https?://` matches at a position with length 8 exactly when "https://" starts there, 7 exactly when "http://" does, and otherwise not at all |
| ExportPdf.FirstScheme | app/src/lib/export-pdf.ts:186 | the position found is the leftmost match; no match means no position matches |
| ExportPdf.StripScheme | app/src/lib/export-pdf.ts:186 | the leftmost `http://` or `https://` is cut out, wherever it is, and only it; without one the URL is unchanged |
| ExportPdf.StripSchemeIsNotGlobal | app/src/lib/export-pdf.ts:186 | the replacement is not global: removing the first match can leave a new `http://` in the result |
| ExportPdf.Underscored | app/src/lib/export-pdf.ts:186 | every ASCII letter or digit is kept in place and every other character becomes `_`, keeping the length |
| ExportPdf.UnderscoredIdempotent | app/src/lib/export-pdf.ts:186 | mapping to underscores twice is the same as once |
| ExportPdf.Sanitize | app/src/lib/export-pdf.ts:186 | the sanitized URL has only letters, digits and `_`, and the length of the stripped URL |
| ExportPdf.FileName | app/src/lib/export-pdf.ts:186-187 | the file name starts with `pagespeed_report_`, ends in `.pdf`, is 21 characters longer than the URL with its first scheme removed, and before `.pdf` uses only letters, digits and `_` |
| HomePage.ScoreColor | app/src/app/page.tsx:67-71 | green exactly for scores ≥ 90, yellow exactly for 50..89, red exactly below 50 |
| HomePage.MetricStatus | app/src/app/page.tsx:73-78 | on the 0..1 scale: "Good" exactly from 0.9, "Needs Improvement" exactly for 0.5 up to 0.9, "Poor" exactly below 0.5 |
| HomePage.PageAndReportTiersAgree | app/src/app/page.tsx:67-71 | the page's score colour and the report's colour put every score in the same tier |
| HomePage.ActiveResults | app/src/app/page.tsx:80 | the active result is the mobile one on the mobile tab and the desktop one on the desktop tab |
| HomePage.ResultsSectionRendered | app/src/app/page.tsx:148 | the results section renders exactly when it is shown and at least one tab button is enabled, i.e. some result is present |
| HomePage.TabDisabled | app/src/app/page.tsx:171-186 | a tab button is disabled exactly when its result is null |
| HomePage.Pending | app/src/app/page.tsx:27-31 | while the requests are in flight the page is analysing, results are hidden and not rendered, the error is cleared and both results are null; the URL and tab are kept |
| HomePage.Settled | app/src/app/page.tsx:23-65 | once the requests settle, analysing has ended and the URL is unchanged |
| HomePage.Home.constructor | app/src/app/page.tsx:14-20 | the page starts with an empty URL, not analysing, mobile tab, results hidden, no results, no error |
| HomePage.Home.SetUrl | app/src/app/page.tsx:126 | typing changes only the URL |
| HomePage.Home.HandleAnalyze | app/src/app/page.tsx:23-65 | with an empty URL nothing changes; otherwise the page first shows analysing with results hidden, error cleared and both results null, then ends in the settled state for the answers |
| HomePage.Home.SelectTab | app/src/app/page.tsx:171-186 | in the rendered results section, a click on an enabled tab selects it and changes nothing else; a disabled one changes nothing |
| HomePage.Home.NewTest | app/src/app/page.tsx:163 | in the rendered results section, "New Test" hides the results, clears the URL and nulls both results, and keeps the rest |
| HomePage.Home.ExportReport | app/src/app/page.tsx:164 | in the rendered results section, "Export PDF" builds the report of the current URL and both results |
| HomePage.BothFailed | app/src/app/page.tsx:45-46 | when both answers are errors, the mobile error is shown and no results are kept or rendered |
| HomePage.SomeSucceeded | app/src/app/page.tsx:47-51 | when some answer succeeds, each success is kept, each failure stays null, the mobile tab is selected, there is no error and the results render |
| HomePage.OnlyDesktopSucceeded | app/src/app/page.tsx:47-51 | with only the desktop result, the mobile tab is still selected: no active result, mobile button disabled, desktop button enabled |
| HomePage.FetchThrew | app/src/app/page.tsx:60-64 | an exception while fetching shows "An unexpected error occurred. Please try again." and renders no results |
| HomePage.RenderedIffSomeSuccess | app/src/app/page.tsx:148 | after an analysis the results section renders exactly when no exception was thrown and at least one answer succeeded |

## Left out

- The JSX markup, animations, score rings, speed cards, navigation bar and footer components are not modelled. Only the state they read is modelled.
- The analyze endpoint (`app/src/app/api/analyze/route.ts`) is not part of this model. Its answers are the input `Fetched`: an analysis, an error message, or an exception while fetching or parsing.
- An analyze answer whose `error` field is present but empty is kept as a result in JavaScript, although it carries no analysis. The model has no such answer: `Failure` carries a non-empty `ErrorText`, and `Success` always carries an analysis.
- The two analyze requests run in parallel (`Promise.all`). The model applies their combined outcome in one step. React's batching of state updates is left out. The intermediate state is kept as `whileFetching`.
- The `setTimeout` scroll to the results, `console.error` logging and the `e.preventDefault()` call have no effect on the modelled state.
- Network calls, `performance.now()` and `Math.random()` are inputs. The download is given as its chunk lengths. The ping is given as measured round trips. `Date.now()` cache-busting query strings are left out.
- Floating-point arithmetic is modelled with exact reals. Binary rounding in `toFixed(2)` and in `Math.round` near halves is not captured.
- SpeedTestHook.Mbps: durations are positive reals. A zero duration, which gives `Infinity` in JavaScript, is not modelled.
- ExportPdf.Doc.Draw: fonts, fills, line widths, x positions, text alignment and page height are not recorded. A mark keeps its y position and what it says. Text colours are recorded only as a card's tier colour. The footer's fixed "Generated by…" text is folded into the `Footer(i, N)` mark.
- ExportPdf.ExportAnalysisPdf: `new Date().toLocaleString()` is the input `generatedAt`. `doc.save` is reduced to returning the file name.
- Scores are integers. `NaN`, `null` or fractional scores from the analyze endpoint are not modelled. The `fid` metric is carried but not drawn, as in the source.
- ExportPdf.Sanitize: strings are sequences of characters, not UTF-16 code units. A character outside the Basic Multilingual Plane becomes one `_` here but two in JavaScript.
- SpeedTestRoute.Get: only the headers the handler sets are recorded. The framework's default `Content-Type` for text and JSON bodies is left out.
- SpeedTestRoute.Post: the request body is never read, so its timing is not modelled.
