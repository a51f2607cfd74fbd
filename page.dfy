/**
 * What the lookup sees of an HTML page once the HTML parser is taken away: its forms with
 * their controls in document order, every <select> of the page in document order, and the
 * text strings of the results panel (the element with id "BinDetailsPnl") when it exists.
 */
module Page {
  import opened Wrappers

  /** An <option>: its stripped text, its `value` attribute if present, and whether it
      carries the `selected` attribute. */
  datatype OptionElem = OptionElem(text: string, value: Option<string>, selected: bool)

  /** A <select>; an absent `name` or `id` attribute is the empty string, which every use
      in app.py treats the same as an empty attribute. */
  datatype SelectBox = SelectBox(name: string, id: string, options: seq<OptionElem>)

  /** A form control. For an <input>, `kind` is its `type` attribute ("" when absent) and
      `checked` says whether it carries the `checked` attribute. */
  datatype Control =
    | Input(name: string, kind: string, value: Option<string>, checked: bool)
    | TextArea(name: string, text: string)
    | Select(box: SelectBox)

  /** A <form>; `id` and `name` are kept as options because the form search tests for the
      attribute's presence, `action` is "" when the attribute is absent or empty. */
  datatype Form = Form(id: Option<string>, name: Option<string>, action: string, controls: seq<Control>)

  datatype Document = Document(forms: seq<Form>, selects: seq<SelectBox>, panel: Option<seq<string>>)

  /** The RuntimeErrors app.py raises, one per message, and the HTTP error of
      `raise_for_status`, which is not a RuntimeError. */
  datatype Failure =
    | HttpError            // raise_for_status on a non-success response
    | NoFormFound          // "No <form> found on page"
    | UnsupportedPageShape // "Postcode input not found in form. ..."
    | NoAddressList        // "Could not locate an address dropdown ..." / "... address list not found."
    | NoSelectableAddress  // "No suitable address option found." / "No address option available ..."
    | NoStreetList         // "Street search did not return any street list ..."
    | NoSelectableStreet   // "Could not select a street option."
    | BlankPostcodeHint    // IndexError of `split()[0]` on a postcode hint of only whitespace

  /** Whether `except RuntimeError` in the orchestrator catches the failure. */
  predicate IsRuntimeError(f: Failure) {
    !f.HttpError? && !f.BlankPostcodeHint?
  }
}
