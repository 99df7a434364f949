# InfoPhone rules, modelled in Dafny

InfoPhone Pro is a desktop tool: the user types a phone number, the
`phonenumbers` library reports on it, and the application writes a report to
a terminal-style log and centres an embedded map on the number's country.
Almost all of `InfoPhone.py` is user interface and calls into that library.
This project models the deterministic rules the application itself adds
around those calls, and proves what they guarantee:

- `analyze_number`: the input is stripped of Python whitespace and refused
  when nothing is left, before the parser is consulted; the parser's error
  becomes a second error; the carrier and the geographic description fall
  back from Spanish to English to a fixed text; a missing region becomes
  `"UNKNOWN"`; the line type is named through `TYPE_NAMES`; the region is
  placed through the `COUNTRY_CENTROIDS` table, with `(0.0, 0.0)` for any
  region it does not list (module `Analysis`, `Centroids`).
- `on_analyze`: the masked pattern and the digit sum of the national number,
  the "data points" count and the reliability grade (module `Report`), and the
  final map update (module `MapBridge`).
- `_js_update` and `_on_map_loaded`: the payload handed to the map page, with
  `"—"` for every empty field, and the `_map_ready` flag that suppresses every
  update until the page has loaded (class `MapBridge.MapView`).
- `on_export`: the report is only saved when the log has text, and the file
  name is made to end in `.txt` (module `Export`).

The library is not modelled. Its parser is a function parameter
`string -> ParseOutcome`, and what it says about a parsed number (possible,
valid, E.164 form, region, line type, carrier and description names, time
zones) is the record `NumberFacts`, so every property holds whatever the
library answers. The national number is an integer in the library; the
application turns it into text with `str`, modelled as `PyText.Decimal`.
Python's own string built-ins the rules use (`strip`, `endswith`, `join`,
`a or b`) are modelled in `PyText`.

## Model

| member | source | states |
|---|---|---|
| `PyText.IsSpace` | InfoPhone.py:517 | the whitespace `strip` removes (Python's `str.isspace` set) contains no digit and no `+` |
| `PyText.StripKeepsNumberCharacters` | InfoPhone.py:517 | stripping never removes a digit or a `+`: each one of the input stands at the same place in the stripped text |
| `PyText.LStrip` | InfoPhone.py:517 | the leading part `strip` removes: a suffix of the input whose cut-off prefix is all whitespace and which does not start with whitespace |
| `PyText.RStrip` | InfoPhone.py:517 | the trailing part `strip` removes: a prefix of the input whose cut-off suffix is all whitespace and which does not end with whitespace |
| `PyText.Strip` | InfoPhone.py:517 | the result is the part of the input between its leading and its trailing Python whitespace: every character cut off is whitespace and the result neither starts nor ends with whitespace |
| `PyText.StripEmptyIff` | InfoPhone.py:517-519 | stripping leaves the empty string exactly when every character of the input is whitespace |
| `PyText.StripIdempotent` | InfoPhone.py:517 | stripping a stripped string changes nothing |
| `PyText.EndsWith` | InfoPhone.py:713 | `s.endswith(suffix)` holds exactly when `s` is some text followed by `suffix` |
| `PyText.EndsWithAppended` | InfoPhone.py:713 | any text with `.txt` (or any suffix) appended ends with it |
| `PyText.Join` | InfoPhone.py:691 | `sep.join(parts)` is empty for no parts, the part itself for one part, and, with a non-empty separator, empty only for no parts or a single empty part |
| `PyText.JoinAppend` | InfoPhone.py:691 | joining one more part appends the separator and that part |
| `PyText.Decimal` | InfoPhone.py:663 | `str(n)` of the national number is a non-empty string of ASCII digits with a leading zero only for 0 |
| `PyText.DecimalRoundTrip` | InfoPhone.py:663 | reading the digits of `str(n)` back gives `n` |
| `PyText.DecimalInjective` | InfoPhone.py:538 | different integers have different decimal texts |
| `Centroids.CentroidFor` | InfoPhone.py:554 | a region listed in `COUNTRY_CENTROIDS` yields its table entry, any other region yields `(0.0, 0.0)` |
| `Centroids.CentroidsOnGlobe` | InfoPhone.py:38-109 | every centroid the lookup can return lies within latitude ±90 and longitude ±180 |
| `Centroids.UnknownRegionAtOrigin` | InfoPhone.py:536-554 | the placeholder region `"UNKNOWN"` is not in the table, so it is placed at `(0.0, 0.0)` |
| `Analysis.ErrorMessage` | InfoPhone.py:517-523 | both errors of `analyze_number` carry a non-empty message; the two errors never share a message, and the parse error's text ends with the parser's own message |
| `Analysis.TypeName` | InfoPhone.py:538 | `TYPE_NAMES.get(ntype, str(ntype))`: every name is non-empty, and a code the table does not list is shown as its decimal digits, which read back to the code |
| `Analysis.TypeNameListed` | InfoPhone.py:112-125 | every line type has a non-empty name, and the name starts with a digit exactly for a type `TYPE_NAMES` does not list (the `str(ntype)` default) |
| `Analysis.TypeNameInjective` | InfoPhone.py:538 | two different line types never get the same name |
| `Analysis.Fallback` | InfoPhone.py:541-548 | `a or b or c`: the Spanish name if non-empty, else the English name if non-empty, else the default text |
| `Analysis.Describe` | InfoPhone.py:526-566 | the record keeps the stripped input and the time zones, is valid exactly when the number is possible and valid, has the library's E.164 form exactly when valid, has a non-empty region, carrier and description, and carries its region's centroid |
| `Analysis.Analyze` | InfoPhone.py:516-566 | the empty-input error occurs exactly when the stripped input is empty; otherwise the analysis succeeds exactly when the parser accepts the stripped input, and a parser error becomes the parse error with the parser's own message; a success stores the stripped input as `raw`, never has an empty carrier, description, region or type name, carries the centroid of its region, and has an E.164 form exactly when valid |
| `Analysis.BlankInputRejected` | InfoPhone.py:517-521 | an input of whitespace only is refused with the empty-input error whatever the parser would answer |
| `Analysis.ParserSeesStrippedInput` | InfoPhone.py:517-521 | the parser is only consulted on the stripped input: parsers that agree there give the same analysis |
| `Analysis.AnalyzeIgnoresSurroundingSpace` | InfoPhone.py:517 | analysing the stripped input gives the same result as analysing the raw input |
| `Analysis.AnalyzeFields` | InfoPhone.py:526-566 | each field of a successful analysis in terms of the library's answers: validity is possible-and-valid, E.164 only when valid, region or `"UNKNOWN"`, time zones passed through, carrier and description by their fallback chains |
| `Analysis.UnknownRegionGoesToOrigin` | InfoPhone.py:536-554 | a number the library gives no region is placed at `(0.0, 0.0)` |
| `Report.MaskedPattern` | InfoPhone.py:663-664 | the pattern is the first three characters, `***`, then the last three characters when the text has six or more (length 9) or the whole text otherwise (length `min(3, n) + 3 + n`) |
| `Report.MaskHidesMiddle` | InfoPhone.py:664 | numbers of six or more digits that agree in their first three and last three digits have the same pattern |
| `Report.ShortNumberShownWhole` | InfoPhone.py:664 | for a number shorter than six digits the pattern ends with the whole number |
| `Report.DigitContribution` | InfoPhone.py:665 | a character adds at most 9 to the sum, and nothing unless it is a digit |
| `Report.DigitSum` | InfoPhone.py:665 | the digit sum is between 0 and 9 times the length, and 0 when there is no digit |
| `Report.DigitSumAppend` | InfoPhone.py:665 | the sum over a concatenation is the sum of the two sums |
| `Report.DigitSumIgnoresNonDigit` | InfoPhone.py:665 | a character that is not a digit changes no sum wherever it is inserted |
| `Report.DigitSumCastsOutNines` | InfoPhone.py:663-665 | the digit sum of the national number's text leaves the same remainder modulo 9 as the number |
| `Report.DigitSumZeroIff` | InfoPhone.py:663-665 | the digit sum of the national number's text is 0 exactly when the number is 0 |
| `Report.TotalInfoPoints` | InfoPhone.py:677 | the count is 15 plus one per time zone plus 5, and reaches 20 plus the zones exactly for a valid number |
| `Report.Reliability` | InfoPhone.py:680 | the grade is "Alta" exactly for a valid number whose carrier is not "No disponible", and "Media" otherwise |
| `Report.ReliabilityOfAnalysis` | InfoPhone.py:680 | after an analysis the grade is "Alta" exactly when the library found the number possible and valid and named a carrier (Spanish first, else English) other than "No disponible" |
| `Report.TotalOfAnalysis` | InfoPhone.py:677 | after an analysis the count is 15 plus the library's time zones plus 5 exactly when the record has an E.164 form |
| `MapBridge.OrDash` | InfoPhone.py:504-511 | a payload text field is never empty |
| `MapBridge.OrDashShowsValue` | InfoPhone.py:504-511 | a field shows `"—"` exactly when its value is `None`, empty or `"—"` itself, and otherwise shows the value |
| `MapBridge.MakePayload` | InfoPhone.py:503-512 | the payload's coordinates are the given ones and none of its text fields is empty |
| `MapBridge.MapCoordinates` | InfoPhone.py:686-689 | the map uses the record's centroid when it has one, otherwise the latitude and longitude of the user's location, and fails only when it has neither |
| `MapBridge.TimeZoneText` | InfoPhone.py:691 | "No disponible" when there are no zones, the zone itself when there is one, and empty only for a single empty zone name |
| `MapBridge.AnalysisPayload` | InfoPhone.py:692 | the payload is placed at the given coordinates, shows the E.164 form when there is a non-empty one and the input otherwise, "No disponible" for no time zones and a dash for a single empty zone name |
| `MapBridge.WelcomePayload` | InfoPhone.py:496-498 | the welcome payload is placed at the user's location, shows the country (a dash if it is empty), dashes for carrier and time zone, and "Tu ubicación: city, region" as description |
| `MapBridge.AnalysisUsesCentroid` | InfoPhone.py:686-689 | after a successful analysis the map is centred on the region's centroid whatever the user's location, so the fallback to it is never taken |
| `MapBridge.AnalysisPayloadFields` | InfoPhone.py:691-692 | the payload of an analysed number shows the stripped input for an invalid number and the E.164 form for a valid one, the record's region, carrier, description and type, the centroid, and as time zone "No disponible" when there are none, the zones joined by ", " otherwise, and a dash when that join is empty |
| `MapBridge.MapView.constructor` | InfoPhone.py:391-395 | the map starts not ready, with nothing sent, and with the user location the geolocation call produced |
| `MapBridge.MapView.JsUpdate` | InfoPhone.py:500-514 | while the map is not ready nothing is sent; otherwise exactly the payload of the arguments is appended |
| `MapBridge.MapView.OnMapLoaded` | InfoPhone.py:492-498 | the ready flag becomes the load result, and the welcome payload is sent only when the page loaded and the user's location is known |
| `MapBridge.MapView.ShowAnalysis` | InfoPhone.py:685-692 | the update fails only when the record has no centroid and no user location is known; otherwise the analysis payload at the chosen coordinates is sent if the map is ready |
| `MapBridge.MapView.OnAnalyze` | InfoPhone.py:568-692 | a refused input yields its error message and sends nothing; an analysed number is sent at its region's centroid when the map is ready |
| `Export.ExportPath` | InfoPhone.py:713 | the path always ends in `.txt`; it equals the chosen name exactly when that already ends in `.txt`, and is the name plus `.txt` otherwise |
| `Export.ExportPathIdempotent` | InfoPhone.py:713 | normalising a normalised path changes nothing |
| `Export.ExportPathExtends` | InfoPhone.py:713 | the chosen name is kept as the start of the path and at most four characters are added |
| `Export.OnExport` | InfoPhone.py:703-715 | nothing is exported exactly when the log is blank, the export is cancelled exactly when the log has text and no name was chosen, and otherwise the unstripped log is written to the normalised path |
| `Export.ExportWritesTxt` | InfoPhone.py:705-715 | a written file's name ends in `.txt` and the text written has a character that is not whitespace |

## Left out

- The user interface (`GlowButton`, `Terminal`, the layout, `copy_terminal`, the animations) and the wording of the terminal's other log lines: formatting of library results for display.
- The map page (`MAP_HTML`, the Leaflet script) and the `runJavaScript` call: the payloads handed to the page are recorded in `MapView.sent`, and the JSON encoding of a payload is not modelled.
- `get_user_location`: an HTTP request to a geolocation service. Its result is the constructor's `located` argument of `MapView`; how the response is read, and the default location used when the request fails, are not modelled.
- The `phonenumbers` library: its parser is a parameter and its answers are `NumberFacts`. The second parse of the unstripped input in `on_analyze` feeds only log lines and the national number, which the `Report` functions take as an input.
- The great-circle distance line of `on_analyze`: floating-point trigonometry that Dafny's reals cannot express (the code also passes the haversine term to `asin` without clamping it to [-1, 1]). Coordinates are exact decimals (`real`), not binary floating point.
- `on_clear`: it clears widgets and, when the map is ready and the user's location is known, sends a reset payload of the same shape as the welcome payload ("Sistema Reiniciado", type "Listo para análisis"); that call is not modelled.
- The hemisphere, portability, country-name and line-type-detail lines of `on_analyze`: display text chosen from library answers.
- The file write and the message boxes of `on_export`: I/O. The save dialog's answer is an input, empty for a cancelled dialog.
- `Report.DigitSum`: counts ASCII digits only, whereas Python's `isdigit` also accepts other Unicode digits; the text summed is always `str` of an integer, which has only ASCII digits, so the difference cannot arise in the application.
- Case of the suffix: `endswith` is case-sensitive, so a name ending in `.TXT` still gets `.txt` appended; the model keeps that behaviour.
