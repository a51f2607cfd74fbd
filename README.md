# Belfast bin-collection lookup, modelled in Dafny

`app.py` finds the next bin-collection dates for a Belfast address. The council's lookup page is an ASP.NET WebForms page, and `app.py` drives it as a browser would.

- It GETs the start page.
- It posts the postcode, echoing back the form's hidden state fields.
- It posts the chosen address from the dropdown that comes back.
- It reads the results panel `BinDetailsPnl`: the address line, and one next-collection date per bin.

When the address step fails with a `RuntimeError`, `main` falls back to a street search. The search query is the street it derives from the address hint. It then picks a street from the street list and posts the address chosen on that street's page.

This project models that core on values.

- A parsed HTML page is a `Page.Document` record: its forms and their controls, its `<select>` lists, and the text strings of the results panel.
- A Python dict is a sequence of key/value pairs kept in insertion order (`Dicts`).
- Each step is a function from the page to the form submission (`Steps.Post`) or to the `RuntimeError` it raises. A method runs each of the source's loops and is proved equal to that function.
- `main` is a state machine (`Lookup.Stage`) driven by an abstract site that answers every request. Its outcome is the report `main` prints, or the exception that escapes.

Modules, in dependency order:

- `Wrappers`: `Option` and `Result`.
- `Text`: Python's `strip`, `split`, `lower`, `upper`, `title` and `in` on strings.
- `Dicts`, `Sequences`: insertion-ordered dicts and first-index search.
- `Page`: the page records and the failures.
- `Forms`: form-field extraction.
- `Options`: dropdown, street and button choices.
- `StreetHint`: `derive_street_from_hint`.
- `Windows`, `BinDetails`: bin-name normalisation and `parse_bin_details`.
- `Steps`: the five form submissions.
- `Lookup`: `main`.

## Model

| member | source | states |
|---|---|---|
| Forms.MainFormIndex | app.py:20-26 | The main form is the first form with an `id`, else the first with a `name`, else the first form. There is none exactly when the page has no form. |
| Forms.SelectValue | app.py:55-62 | A select posts its first `selected` option's value, else its first option's value, else "". |
| Forms.InputPostingRules | app.py:34-46 | An unnamed or submit input posts nothing. An unchecked checkbox or radio posts nothing. A checked one posts its value or "on". Any other input posts its value. |
| Forms.AddInputs | app.py:34-46 | The input loop leaves the fields the inputs' pairs put, one by one, in document order. |
| Forms.AddTextAreas | app.py:49-52 | The textarea loop does the same for textareas. |
| Forms.AddSelects | app.py:55-62 | The select loop does the same for selects. |
| Forms.FindMainForm | app.py:20-64 | Fails with "No <form> found" exactly when there is no form. Otherwise returns the main form's action and the fields of its inputs, textareas and selects. |
| Forms.MainFieldsPrecedence | app.py:34-62 | For each name, a select's value beats a textarea's, which beats an input's. |
| Forms.InputFieldsFromInputs | app.py:77-88 | A name has a field exactly when some input posts it, and its value is the one the last such input posts. |
| Forms.ExtractFormFields | app.py:67-89 | Fails exactly when there is no form. Otherwise returns the first form's action and its inputs' fields. |
| Forms.ExtractionsAgreeWithoutTextAreasOrSelects | app.py:20-89 | When the first form is the main form and has no named textarea or select, both extractions give the same fields. |
| Forms.StateFields | app.py:92-98 | Keeps exactly the fields whose names start with "__", with their values. |
| Forms.ChoosePostcodeField | app.py:101-114 | Picks the first name mentioning "postcode" that is neither "hidden" nor a state field. Failing that, the first text-box-like name. None exactly when neither exists. |
| Options.SelectWithId | app.py:190 | Gives the first select with the id, or None exactly when no select has it. |
| Options.AddressOptionsShape | app.py:193 | The text-to-value map has distinct texts and only non-empty values, each taken from an option. It is empty exactly when no option has a value. |
| Options.AddressOptionsOrder | app.py:193 | The texts appear in the order of their first valued option, each once. |
| Options.AddressOptionsLastWins | app.py:193 | A text maps to the value of the last valued option that carries it, as the dict comprehension overwrites. |
| Options.FindAddressDropdown | app.py:188-201 | A named select with id "lstAddresses" wins. Otherwise the first named select with more than one option. None exactly when there is neither. |
| Options.ChooseAddress | app.py:227-242 | The choice loops compute `AddressChoice`. |
| Options.AddressChoiceSpec | app.py:227-242 | Never chooses an empty value, and fails exactly when every value is empty. The first option whose text contains the lower-cased hint wins; without a hint match, the first valued entry. |
| Options.AddressChoiceOnDropdown | app.py:193-242 | On the dropdown's map, fails exactly when no option has a value. Without a hint match, takes the first entry. |
| Options.OptValue | app.py:310-315 | `_opt_value` is the stripped value when that is non-empty, else the text. It is empty exactly when both are. |
| Options.Outward | app.py:307 | The outward code is empty exactly when the postcode hint is. |
| Options.FirstValue | app.py:318-348 | A strategy's loop finds nothing exactly when no option passes. Otherwise it gives the non-empty `_opt_value` of a passing option. |
| Options.FirstValueAt | app.py:318-348 | The loop stops at the first passing option. |
| Options.FirstValueOf | app.py:318-348 | The loop returns the `_opt_value` of the first option passing the test, or "". |
| Options.OutwardStep | app.py:306-327 | Strategy 1 runs only with an outward code and returns its first match's value or "". |
| Options.QueryStep | app.py:329-339 | Strategy 2 runs only with a query (the address hint, else the street query, stripped and lower-cased) and returns its first match's value or "". |
| Options.ChooseStreet | app.py:306-357 | Running the three strategies in order computes `StreetChoice`. |
| Options.StreetChoiceNonEmpty | app.py:306-357 | The chosen street is a non-empty `_opt_value` of some option. The choice fails exactly when every option's value and text are empty. |
| Options.StreetChoiceTiers | app.py:318-348 | The first outward-code match wins. With none, the first query match. With neither, the first option with any value. |
| Options.LocateStreets | app.py:291-299 | The select with id "streets_listbox" wins. Otherwise the first select whose id or name mentions "street" and that has more than one option. |
| Options.ChooseStreetAddress | app.py:389-399 | The loop computes `StreetAddressChoice`. |
| Options.StreetAddressChoiceSpec | app.py:389-399 | Posts only a non-empty value of some option. A valued hint match wins. Otherwise the first option's value, or nothing: options after the first are never tried. When the first hint match has no value, the choice also falls back to the first option's value. |
| Options.PlaceholderBlocksStreetAddress | app.py:389-399 | A placeholder first option with an empty value makes the street flow fail where the address step would take the second option. |
| Options.SelectStreetButtonIn | app.py:364-375 | The button name is non-empty. It is None exactly when the first form has no "select street" submit input. Otherwise it is the name of the first such input. |
| Options.FindSelectStreetButton | app.py:364-375 | The button loop reports whether a button exists, and its name or the default name. |
| StreetHint.DeriveStreetFromHint | app.py:259-266 | The token-popping loop computes `StreetFromHint`. |
| StreetHint.StreetFromHintSpec | app.py:259-266 | The street is None exactly when the hint is empty or every token is a flat/apartment marker or holds a digit. Otherwise it is the tokens from the first non-marker on, joined by single spaces. |
| StreetHint.StreetFromHintShape | app.py:259-266 | A derived street starts with a non-marker token and is already stripped and single-spaced. |
| StreetHint.StreetFromHintIdempotent | app.py:259-266 | Deriving a street from a derived street gives it back. |
| StreetHint.DropMarkersDropsMarkers | app.py:263-265 | Every token the loop pops is a marker. |
| StreetHint.DropMarkersStopsAtWord | app.py:263-265 | The loop stops at a non-marker or when no tokens are left. |
| StreetHint.FlatExample | app.py:259-266 | "Flat 3B 12 High Street" gives "High Street". |
| Text.Strip | app.py:262 | `strip()` gives "" exactly for an all-whitespace string, never starts or ends with whitespace, and leaves a stripped string alone. |
| Text.StripSpec | app.py:262 | `strip()` keeps a slice of its input, and everything outside that slice is whitespace. |
| Text.WordsSpec | app.py:262 | `split()`'s words, concatenated, are the non-whitespace characters in order. There are no words exactly when the string is all whitespace. |
| Text.WordsLayout | app.py:262 | The string is its words in order, with whitespace-only gaps around them, and each gap between two words is non-empty. So each word is a maximal run of non-whitespace characters. |
| Text.WordsOfJoin | app.py:266 | Splitting words joined by single spaces gives the words back. |
| Text.ContainsSpec | app.py:444 | Python's `in` on strings holds exactly when the pattern occurs at some index. |
| Text.LowerOfTitle | app.py:421 | `title()` keeps the length and changes letter case only. |
| Text.TitleIdempotent | app.py:421 | `title()` is idempotent. |
| Text.RemoveAllSpec | app.py:411-412 | `replace(pat, "")` never lengthens a string, leaves it alone when the pattern does not occur, and otherwise removes at least one occurrence. |
| Text.RemoveAllStep | app.py:411-412 | `replace(pat, "")` scans left to right: when the first occurrence of `pat` starts right after `a`, the result is `a` followed by the result on what comes after that occurrence. |
| BinDetails.NormalizeBinNameSpec | app.py:409-421 | A name maps to General, Recycling or Compost exactly when its residue starts with the keyword, in that order of precedence. The keywords are general; recycling; compost or brown. Any other name is its residue title-cased, which equals it up to letter case. The residue is the name stripped and with " bin", " Bin" and " waste" removed. |
| BinDetails.NormalizeBinNameTitled | app.py:409-421 | A normalised name is unchanged by `title()`. |
| BinDetails.ParseDate | app.py:447 | A date parsed from "weekday month day year" is a valid calendar date. |
| BinDetails.ParseDateSpec | app.py:447 | Parsing gives date `d` exactly when the string has four tokens that spell it: a weekday name, the month's name, the day and the four-digit year, and `d` is a valid date. |
| BinDetails.ParseFormatDate | app.py:447 | Formatting a valid date (year at most 9999) as "weekday month day year", then parsing it, gives the date back. |
| BinDetails.MonthAbbrevParses | app.py:447 | Each month's three-letter name parses back to that month. |
| BinDetails.ParseDateTokens | app.py:447 | Rejoining `split()`'s tokens with single spaces keeps the tokens, so the date parsed is the one the raw string gives. |
| BinDetails.Lines | app.py:426 | Each line is non-empty and stripped. |
| BinDetails.LinesConcat | app.py:426 | The comprehension keeps the order of the strings: the lines of two runs of strings are the lines of the first, then those of the second. |
| BinDetails.LinesOne | app.py:426 | A single string gives its stripped self, or nothing when that is empty. |
| BinDetails.AddressSpec | app.py:427-429 | The address has no comma and is title-cased. Up to letter case it is the first line up to its first comma, and "" when there are no lines. |
| BinDetails.Filtered | app.py:432-433 | Removes exactly the header labels and keeps every other line. |
| BinDetails.FilteredConcat | app.py:433 | The filter keeps order and multiplicity: filtering two runs of lines gives the filtered first run, then the filtered second. |
| BinDetails.FilteredOne | app.py:432-433 | A single line stays exactly when it is not a header label. |
| BinDetails.Window | app.py:443-450 | A window yields an entry exactly when its first token passes the bin-name test and its fourth parses as a date. The entry is the normalised name and that date. |
| BinDetails.ParseBinDetails | app.py:424-456 | The loop's address and entries are the address of the lines and the scan of the filtered lines. |
| BinDetails.ScanKeysDistinct | app.py:437-454 | No bin name is reported twice. |
| Windows.ScanOfAssigns | app.py:437-454 | The scan's dict is the entries of the windows it takes, put in order. |
| Windows.NoneSkippedBeforeFirst | app.py:437-454 | No index before the first window taken yields an entry. |
| Windows.NoneSkippedBetween | app.py:437-454 | Windows taken never overlap, and no index between them yields an entry. |
| Windows.NoneSkippedAfterLast | app.py:437-454 | No index after the last window taken yields an entry. |
| Windows.ScanOfLastWins | app.py:437-454 | A name keeps the date of the last window that yields it. A name no window yields is absent. |
| Windows.ScanOfKeysDistinct | app.py:437-454 | The scan's dict has distinct keys. |
| Steps.AssignAll | app.py:178-181 | A payload equals the fields copied with the named keys assigned: assigned keys hold their last assignment, every other key is unchanged, and no key is lost. |
| Steps.StateFieldsEchoed | app.py:92-98 | Every state field not assigned is posted back unchanged. |
| Steps.PostcodeStep | app.py:163-183 | Step 1's form part computes `PostcodeRequest`. |
| Steps.PostcodeRequestSpec | app.py:163-183 | Fails on a page without a form, and on a main form without the postcode box. Otherwise it posts the main form's fields to its action with search mode "P", the postcode and "Find address" set, and nothing else changed. |
| Steps.AddressStep | app.py:204-249 | Step 2's form part computes `AddressRequest`. |
| Steps.AddressRequestSpec | app.py:204-249 | Checks, in order: no form, no dropdown, no valued option. On success it posts the main form's fields with the dropdown set to a non-empty option value and the Select button set, and nothing else changed. |
| Steps.SearchStep | app.py:278-284 | The street search computes `SearchRequest`. |
| Steps.SearchRequestSpec | app.py:278-284 | Fails exactly on a page without a form. Otherwise it posts the first form's input fields with search mode "S", the query and "Search" set, and nothing else changed. |
| Steps.ButtonValue | app.py:377 | The button value is the field's own value when that is present and non-empty. Otherwise (no field, no value or "") it is "Select street". |
| Steps.SelectStreetStep | app.py:286-380 | The street selection computes `SelectStreetRequest`. |
| Steps.SelectStreetRequestSpec | app.py:286-380 | Fails, in order: no street list; a blank postcode hint; no option with a value; no form. On success it posts a non-empty chosen street under the list's name. With a button, the button is posted with the field's own non-empty value, else "Select street". Without one, the list becomes the event target and the event argument is kept or posted as "". Every other field is unchanged. |
| Steps.SelectStreetPayloadSpec | app.py:360-380 | States the street payload key by key, for both the button and the event-target branch. The button is posted with the field's own non-empty value, else "Select street". |
| Steps.SelectStreetButtonDefault | app.py:377 | A button the form's inputs do not post is sent as "Select street". |
| Steps.StreetAddressStep | app.py:381-403 | The street-flow address selection computes `StreetAddressRequest`. |
| Steps.StreetAddressRequestSpec | app.py:381-403 | Fails, in order: no "lstAddresses" list; no usable option; no form. On success it posts a non-empty option value under the fixed list name with the Select button set, and nothing else changed. |
| Lookup.SortEntries | app.py:505-507 | The report order is sorted by date, then General, Recycling, Compost, then the rest, and is a permutation of the entries. |
| Lookup.SortStable | app.py:507 | Like Python's sort, it keeps the relative order of entries with equal keys. |
| Lookup.FallbackQuerySpec | app.py:488 | The fallback query is the derived street when there is one, else the hint. It is empty exactly when the hint is empty. |
| Lookup.RecoverSpec | app.py:484-492 | The street search runs exactly on a RuntimeError with a non-empty hint, and with a non-empty query. Any other failure escapes unchanged. |
| Lookup.AfterPostcodeFallback | app.py:482-492 | After the postcode search, the street flow starts exactly when the response succeeded, step 2 raised a RuntimeError and the hint is non-empty. |
| Lookup.SortKeepsKeysDistinct | app.py:505-507 | Sorting keeps the set of bin names and keeps them distinct. |
| Lookup.ReportSpec | app.py:494-510 | No panel gives "panel missing", and a panel without entries gives its text. A schedule holds every entry found, each bin once, soonest first, and is non-empty. |
| Lookup.AdvanceRank | app.py:479-503 | Every response moves the lookup closer to its end, so at most six requests are made. |
| Lookup.StartPageDown | app.py:163-164 | A start page that fails its status check ends the lookup with the HTTP error. |
| Lookup.NoHintNoFallback | app.py:484-492 | Without a hint, a RuntimeError of step 2 escapes after two requests and the street flow never runs. |
| Lookup.ReportWellReported | app.py:494-510 | A reported schedule is non-empty, sorted into report order and names each bin once. |
| Lookup.AdvanceWellReported | app.py:479-503 | A step that ends the lookup with a schedule ends it with a well-reported one. |
| Lookup.RunWellReported | app.py:479-510 | Whatever the site answers, the lookup ends in a schedule only if it is well reported. |
| Lookup.LookupOutcome | app.py:459-511 | Whatever the site answers, `main` prints a schedule only if it is non-empty, sorted and names each bin once. |

## Left out

- HTTP is not modelled. That covers the `requests` session, cookies, redirects (`resp.url`), `absolute_url`/`urljoin` and the dropping of `None`-valued fields when a form is encoded. A site is a function from the request number and the request to a response (status ok or not, and the parsed page). A post keeps the form's raw `action`.
- HTML parsing with BeautifulSoup is not modelled. A page is already a record of its forms, selects and panel strings.
- `print`, `vprint`, `VERBOSE`, `debug_list_fields` and the help text are not modelled. So are argparse and `sys.exit`: `main` starts from the postcode and address hint, and an absent hint is "".
- `pick_first_submit` (app.py:117-119) is not modelled: it always returns None and nothing uses it.
- `api/bin.py`, the HTTP wrapper around `app.py`, is not part of this model.
- `strptime` is modelled as a validator of "weekday month day year" tokens with English abbreviations: a day of one or two digits, a year of exactly four digits, and the calendar's day counts. Locale handling is left out.
- `Text.IsSpace` is exactly the set of characters for which Python's `str.isspace()` holds. `Text.Lower`, `Text.Upper`, `Text.Title` and `Text.IsDigit` cover ASCII letters and digits only. Unicode case mapping and Unicode digits are left out.
- Options.Outward requires a postcode hint that is empty or has a token. Its caller `Steps.SelectStreetRequest` first turns a whitespace-only hint into the `BlankPostcodeHint` failure. In the source that case is the `IndexError` of `split()[0]` (app.py:307), which `main` does not catch.
- `Steps.SelectStreetRequest` and `Steps.StreetAddressRequest` reproduce two behaviours of app.py worth noting:
  - the responses to the street search and the street choice are not status-checked (the street flow checks only its opening GET, at app.py:278-279, and its last response, at app.py:404-406);
  - the street flow's address choice takes the first option's value, even when it is empty, where step 2's `AddressChoice` would take the first valued option.
- `Steps.AddressRequest`: the event-target branch at app.py:250-252 is unreachable, because the button name tested at app.py:247 is a non-empty constant, so it has no counterpart.
- The `NoCollections` outcome stands for printing the panel's text. `PanelMissing` stands for printing a preview of the page.
