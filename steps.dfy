/**
 * The form submissions of the lookup: for each page the lookup reaches, the fields it
 * posts back and the failure it raises instead when the page does not have what it
 * needs. Every payload is the page's own form fields with a few named keys assigned
 * (app.py:178-181, 244-249, 282-284, 360-380, 401-403).
 */
module Steps {
  import opened Wrappers
  import opened Text
  import opened Dicts
  import opened Page
  import opened Forms
  import opened Options

  // The control names of the Belfast lookup page.
  const PostcodeBox := "ctl00$MainContent$Postcode_textbox"
  const SearchByRadio := "ctl00$MainContent$searchBy_radio"
  const AddressLookupButton := "ctl00$MainContent$AddressLookup_button"
  const SelectAddressButton := "ctl00$MainContent$SelectAddress_button"
  const StreetBox := "ctl00$MainContent$Street_textbox"
  const StreetSearchButton := "ctl00$MainContent$streetSearch_button"
  const DefaultStreetsName := "ctl00$MainContent$streets_listbox"
  const AddressListName := "ctl00$MainContent$lstAddresses"

  /** A form submission: the form's `action` attribute and the fields posted. */
  datatype Post = Post(action: string, payload: FieldMap)

  /** The value the assignments `us`, made in order, leave under `k`. */
  function Assigned(us: seq<(string, string)>, k: string): Option<string> {
    if us == [] then None
    else if us[|us| - 1].0 == k then Some(us[|us| - 1].1)
    else Assigned(us[..|us| - 1], k)
  }

  /** `after` is `before` with the assignments `us` made and nothing else changed: an
      assigned key holds its last assigned value, every other key holds what it held, and
      the keys of `before` stay in front, in their order. */
  ghost predicate OnlyAssigns(before: FieldMap, after: FieldMap, us: seq<(string, string)>) {
    (forall k :: Get(after, k) == if Assigned(us, k).Some? then Some(Some(Assigned(us, k).value)) else Get(before, k))
    && Keys(before) <= Keys(after)
  }

  /** `payload = fields.copy()` followed by `payload[k] = v` for each assignment of `us`. */
  function AssignAll(fields: FieldMap, us: seq<(string, string)>): (r: FieldMap)
    ensures OnlyAssigns(fields, r, us)
  {
    if us == [] then fields
    else
      var last := us[|us| - 1];
      var r := Put(AssignAll(fields, us[..|us| - 1]), last.0, Some(last.1));
      AssignOne(fields, AssignAll(fields, us[..|us| - 1]), us[..|us| - 1], last.0, last.1);
      assert us[..|us| - 1] + [last] == us;
      r
  }

  /** One more assignment keeps `OnlyAssigns`. */
  lemma AssignOne(before: FieldMap, d: FieldMap, us: seq<(string, string)>, k: string, v: string)
    requires OnlyAssigns(before, d, us)
    ensures OnlyAssigns(before, Put(d, k, Some(v)), us + [(k, v)])
  {
    var us' := us + [(k, v)];
    assert us'[..|us|] == us;
    forall k' ensures Get(Put(d, k, Some(v)), k') ==
      if Assigned(us', k').Some? then Some(Some(Assigned(us', k').value)) else Get(before, k')
    {
      PutGet(d, k, Some(v), k');
    }
    PutKeys(d, k, Some(v));
  }

  lemma AssignAllSnoc(fields: FieldMap, us: seq<(string, string)>, k: string, v: string)
    ensures AssignAll(fields, us + [(k, v)]) == Put(AssignAll(fields, us), k, Some(v))
  {
    assert (us + [(k, v)])[..|us|] == us;
  }

  /** A state field of the page ("__VIEWSTATE" and the like) that no assignment touches is
      posted back with the value the page gave it. */
  lemma StateFieldsEchoed(fields: FieldMap, us: seq<(string, string)>, k: string)
    requires "__" <= k && Assigned(us, k).None?
    ensures Get(AssignAll(fields, us), k) == Get(StateFields(fields), k)
  {
  }

  // ---- Step 1: the postcode search (app.py:167-181) ----

  function PostcodeUpdates(postcode: string): seq<(string, string)> {
    [(SearchByRadio, "P"), (PostcodeBox, postcode), (AddressLookupButton, "Find address")]
  }

  /** What `step1_submit_postcode` posts from the start page. */
  function PostcodeRequest(doc: Document, postcode: string): Result<Post, Failure> {
    match MainFormIndex(doc.forms)
    case None => Failure(NoFormFound)
    case Some(i) =>
      var fields := MainFields(doc.forms[i].controls);
      if PostcodeBox !in Keys(fields) then Failure(UnsupportedPageShape)
      else Success(Post(doc.forms[i].action, AssignAll(fields, PostcodeUpdates(postcode))))
  }

  /** The step fails for a page without a form, and for a main form without the postcode
      box; otherwise it posts the main form's fields with the search mode "P", the
      postcode and the lookup button set, and nothing else changed. */
  lemma PostcodeRequestSpec(doc: Document, postcode: string)
    ensures PostcodeRequest(doc, postcode) == Failure(NoFormFound) <==> doc.forms == []
    ensures doc.forms != [] ==>
      var form := doc.forms[MainFormIndex(doc.forms).value];
      var r := PostcodeRequest(doc, postcode);
      (r.Failure? <==> PostcodeBox !in Keys(MainFields(form.controls)))
      && (r.Failure? ==> r.error == UnsupportedPageShape)
      && (r.Success? ==>
            r.value.action == form.action
            && Get(r.value.payload, PostcodeBox) == Some(Some(postcode))
            && Get(r.value.payload, SearchByRadio) == Some(Some("P"))
            && Get(r.value.payload, AddressLookupButton) == Some(Some("Find address"))
            && OnlyAssigns(MainFields(form.controls), r.value.payload, PostcodeUpdates(postcode)))
  {
    PostcodeAssigned(postcode);
  }

  lemma PostcodeAssigned(postcode: string)
    ensures var us := PostcodeUpdates(postcode);
      Assigned(us, SearchByRadio) == Some("P") && Assigned(us, PostcodeBox) == Some(postcode)
      && Assigned(us, AddressLookupButton) == Some("Find address")
  {
    var us := PostcodeUpdates(postcode);
    assert |SearchByRadio| < |PostcodeBox| < |AddressLookupButton|;
    var two := us[..2];
    assert two == [(SearchByRadio, "P"), (PostcodeBox, postcode)] && two[..1] == [(SearchByRadio, "P")];
    assert Assigned(two[..1], SearchByRadio) == Some("P");
    assert Assigned(two, SearchByRadio) == Some("P") && Assigned(two, PostcodeBox) == Some(postcode);
  }

  /** `payload = fields.copy()` and the three assignments of app.py:178-181. */
  method PostcodePayload(fields: FieldMap, postcode: string) returns (payload: FieldMap)
    ensures payload == AssignAll(fields, PostcodeUpdates(postcode))
  {
    ghost var us: seq<(string, string)> := [];
    payload := fields;
    payload := Put(payload, SearchByRadio, Some("P"));
    AssignAllSnoc(fields, us, SearchByRadio, "P");
    us := us + [(SearchByRadio, "P")];
    payload := Put(payload, PostcodeBox, Some(postcode));
    AssignAllSnoc(fields, us, PostcodeBox, postcode);
    us := us + [(PostcodeBox, postcode)];
    payload := Put(payload, AddressLookupButton, Some("Find address"));
    AssignAllSnoc(fields, us, AddressLookupButton, "Find address");
    us := us + [(AddressLookupButton, "Find address")];
    assert us == PostcodeUpdates(postcode);
  }

  /** `step1_submit_postcode` (app.py:167-181), the form part. */
  method PostcodeStep(doc: Document, postcode: string) returns (r: Result<Post, Failure>)
    ensures r == PostcodeRequest(doc, postcode)
  {
    var main := FindMainForm(doc);
    if main.Failure? {
      return Failure(main.error);
    }
    var (action, fields) := main.value;
    if PostcodeBox !in Keys(fields) {
      return Failure(UnsupportedPageShape);
    }
    var payload := PostcodePayload(fields, postcode);
    return Success(Post(action, payload));
  }

  // ---- Step 2: the address selection (app.py:210-249) ----

  function AddressUpdates(listName: string, chosen: string): seq<(string, string)> {
    [(listName, chosen), (SelectAddressButton, "Select")]
  }

  /** What `step2_select_address` posts from the page listing the postcode's addresses. */
  function AddressRequest(doc: Document, hint: string): Result<Post, Failure> {
    match MainFormIndex(doc.forms)
    case None => Failure(NoFormFound)
    case Some(i) =>
      match FindAddressDropdown(doc.selects)
      case None => Failure(NoAddressList)
      case Some(dd) =>
        match AddressChoice(dd.1, hint)
        case None => Failure(NoSelectableAddress)
        case Some(v) =>
          Success(Post(doc.forms[i].action, AssignAll(MainFields(doc.forms[i].controls), AddressUpdates(dd.0, v))))
  }

  /** The checks run in app.py's order (form, then dropdown, then a choice); on success
      the main form's fields are posted with the dropdown set to a non-empty value of one
      of its options and the Select button set, and nothing else changed. */
  lemma AddressRequestSpec(doc: Document, hint: string)
    ensures AddressRequest(doc, hint) == Failure(NoFormFound) <==> doc.forms == []
    ensures AddressRequest(doc, hint) == Failure(NoAddressList) <==>
      doc.forms != [] && FindAddressDropdown(doc.selects).None?
    ensures AddressRequest(doc, hint) == Failure(NoSelectableAddress) <==>
      doc.forms != [] && FindAddressDropdown(doc.selects).Some?
      && forall i :: 0 <= i < |FindAddressDropdown(doc.selects).value.1| ==> FindAddressDropdown(doc.selects).value.1[i].1 == ""
    ensures AddressRequest(doc, hint).Success? ==>
      var form := doc.forms[MainFormIndex(doc.forms).value];
      var dd := FindAddressDropdown(doc.selects).value;
      var v := AddressChoice(dd.1, hint).value;
      var r := AddressRequest(doc, hint).value;
      r.action == form.action && v != "" && (exists i :: 0 <= i < |dd.1| && dd.1[i].1 == v)
      && Get(r.payload, SelectAddressButton) == Some(Some("Select"))
      && OnlyAssigns(MainFields(form.controls), r.payload, AddressUpdates(dd.0, v))
  {
    var dd := FindAddressDropdown(doc.selects);
    if dd.Some? {
      AddressChoiceSpec(dd.value.1, hint);
      var v := AddressChoice(dd.value.1, hint);
      if v.Some? {
        AddressChoiceValue(dd.value.1, hint);
        if doc.forms != [] {
          var i := MainFormIndex(doc.forms).value;
          var us := AddressUpdates(dd.value.0, v.value);
          assert Assigned(us, SelectAddressButton) == Some("Select");
          assert AddressRequest(doc, hint)
            == Success(Post(doc.forms[i].action, AssignAll(MainFields(doc.forms[i].controls), us)));
        }
      }
    }
  }

  /** The chosen address is the value of one of the entries. */
  lemma AddressChoiceValue(options: Dict<string, string>, hint: string)
    requires AddressChoice(options, hint).Some?
    ensures exists i :: 0 <= i < |options| && options[i].1 == AddressChoice(options, hint).value
  {
    var byHint := HintMatch(options, Lower(hint));
    var byValue := FirstValued(options);
    if hint != "" && byHint.Some? && options[byHint.value].1 != "" {
      assert options[byHint.value].1 == AddressChoice(options, hint).value;
    } else {
      assert options[byValue.value].1 == AddressChoice(options, hint).value;
    }
  }

  /** `payload = fields.copy()` and the two assignments of app.py:244-249. */
  method AddressPayload(fields: FieldMap, listName: string, chosen: string) returns (payload: FieldMap)
    ensures payload == AssignAll(fields, AddressUpdates(listName, chosen))
  {
    ghost var us: seq<(string, string)> := [];
    payload := fields;
    payload := Put(payload, listName, Some(chosen));
    AssignAllSnoc(fields, us, listName, chosen);
    us := us + [(listName, chosen)];
    payload := Put(payload, SelectAddressButton, Some("Select"));
    AssignAllSnoc(fields, us, SelectAddressButton, "Select");
    us := us + [(SelectAddressButton, "Select")];
    assert us == AddressUpdates(listName, chosen);
  }

  /** `step2_select_address` (app.py:210-249), the form part. */
  method AddressStep(doc: Document, hint: string) returns (r: Result<Post, Failure>)
    ensures r == AddressRequest(doc, hint)
  {
    var main := FindMainForm(doc);
    if main.Failure? {
      return Failure(main.error);
    }
    var (action, fields) := main.value;
    var dd := FindAddressDropdown(doc.selects);
    if dd.None? {
      return Failure(NoAddressList);
    }
    var (listName, options) := dd.value;
    var chosen := ChooseAddress(options, hint);
    if chosen.None? {
      return Failure(NoSelectableAddress);
    }
    var payload := AddressPayload(fields, listName, chosen.value);
    return Success(Post(action, payload));
  }

  // ---- Street flow, search (app.py:281-284) ----

  function SearchUpdates(query: string): seq<(string, string)> {
    [(SearchByRadio, "S"), (StreetBox, query), (StreetSearchButton, "Search")]
  }

  /** What `street_flow` posts from the start page to search by street. */
  function SearchRequest(doc: Document, query: string): Result<Post, Failure> {
    if doc.forms == [] then Failure(NoFormFound)
    else Success(Post(doc.forms[0].action, AssignAll(InputFields(doc.forms[0].controls), SearchUpdates(query))))
  }

  /** The search fails only for a page without a form; it posts the first form's input
      fields with the search mode "S", the street query and the search button set, and
      nothing else changed. */
  lemma SearchRequestSpec(doc: Document, query: string)
    ensures SearchRequest(doc, query).Failure? <==> doc.forms == []
    ensures SearchRequest(doc, query).Failure? ==> SearchRequest(doc, query).error == NoFormFound
    ensures SearchRequest(doc, query).Success? ==>
      var r := SearchRequest(doc, query).value;
      r.action == doc.forms[0].action
      && Get(r.payload, SearchByRadio) == Some(Some("S"))
      && Get(r.payload, StreetBox) == Some(Some(query))
      && Get(r.payload, StreetSearchButton) == Some(Some("Search"))
      && OnlyAssigns(InputFields(doc.forms[0].controls), r.payload, SearchUpdates(query))
  {
    var us := SearchUpdates(query);
    assert SearchByRadio[18] != StreetBox[18] && |StreetBox| < |StreetSearchButton|;
    var two := us[..2];
    assert two == [(SearchByRadio, "S"), (StreetBox, query)] && two[..1] == [(SearchByRadio, "S")];
    assert Assigned(two[..1], SearchByRadio) == Some("S");
    assert Assigned(two, SearchByRadio) == Some("S") && Assigned(two, StreetBox) == Some(query);
  }

  /** The three assignments of app.py:282-284 on the extracted fields. */
  method SearchPayload(fields: FieldMap, query: string) returns (payload: FieldMap)
    ensures payload == AssignAll(fields, SearchUpdates(query))
  {
    ghost var us: seq<(string, string)> := [];
    payload := fields;
    payload := Put(payload, SearchByRadio, Some("S"));
    AssignAllSnoc(fields, us, SearchByRadio, "S");
    us := us + [(SearchByRadio, "S")];
    payload := Put(payload, StreetBox, Some(query));
    AssignAllSnoc(fields, us, StreetBox, query);
    us := us + [(StreetBox, query)];
    payload := Put(payload, StreetSearchButton, Some("Search"));
    AssignAllSnoc(fields, us, StreetSearchButton, "Search");
    us := us + [(StreetSearchButton, "Search")];
    assert us == SearchUpdates(query);
  }

  /** The street search of `street_flow` (app.py:281-284). */
  method SearchStep(doc: Document, query: string) returns (r: Result<Post, Failure>)
    ensures r == SearchRequest(doc, query)
  {
    var extracted := ExtractFormFields(doc);
    if extracted.Failure? {
      return Failure(extracted.error);
    }
    var (action, fields) := extracted.value;
    var payload := SearchPayload(fields, query);
    return Success(Post(action, payload));
  }

  // ---- Street flow, street selection (app.py:291-380) ----

  /** `streets.get('name') or 'ctl00$MainContent$streets_listbox'` (app.py:361). */
  function StreetsName(streets: SelectBox): string {
    if streets.name != "" then streets.name else DefaultStreetsName
  }

  /** `streets.get('id') or streets_name` (app.py:379). */
  function EventTarget(streets: SelectBox): string {
    if streets.id != "" then streets.id else StreetsName(streets)
  }

  /** `fields2.get(btn, 'Select street') or 'Select street'` (app.py:377), given what
      `fields2.get(btn)` finds: a non-empty field value is kept, and anything else (no
      field, a `None` value or "") gives "Select street". */
  function ButtonValue(current: Option<Option<string>>): (v: string)
    ensures v != ""
    ensures v == "Select street" || current == Some(Some(v))
    ensures (current.Some? && current.value.Some? && current.value.value != "") ==> v == current.value.value
    ensures !(current.Some? && current.value.Some? && current.value.value != "") ==> v == "Select street"
  {
    if current.Some? && current.value.Some? && current.value.value != "" then current.value.value
    else "Select street"
  }

  /** The fields posted to select the street, from the first form's input fields, the
      street list, the chosen street and the "select street" button, if any. */
  function SelectStreetPayload(fields: FieldMap, streets: SelectBox, chosen: string, button: Option<string>): FieldMap {
    var picked := Put(fields, StreetsName(streets), Some(chosen));
    match button
    case Some(b) => Put(picked, b, Some(ButtonValue(Get(picked, b))))
    case None =>
      var targeted := Put(picked, "__EVENTTARGET", Some(EventTarget(streets)));
      if "__EVENTARGUMENT" in Keys(targeted) then targeted else Put(targeted, "__EVENTARGUMENT", Some(""))
  }

  /** What `street_flow` posts from the street search results. */
  function SelectStreetRequest(doc: Document, postcodeHint: string, addressHint: string, query: string): Result<Post, Failure> {
    match LocateStreets(doc.selects)
    case None => Failure(NoStreetList)
    case Some(streets) =>
      if postcodeHint != "" && Words(postcodeHint) == [] then Failure(BlankPostcodeHint)
      else match StreetChoice(streets.options, Outward(postcodeHint), StreetQuery(addressHint, query))
      case None => Failure(NoSelectableStreet)
      case Some(chosen) =>
        if doc.forms == [] then Failure(NoFormFound)
        else
          var fields := InputFields(doc.forms[0].controls);
          Success(Post(doc.forms[0].action, SelectStreetPayload(fields, streets, chosen, SelectStreetButtonIn(doc.forms))))
  }

  /** The checks run in app.py's order (street list, the postcode hint's first token,
      street choice, form). On success the
      chosen street, never empty, is posted under the list's name; with a "select street"
      button the button is posted with its own value or "Select street"; without one the
      list becomes the event target and an existing event argument is kept, a missing one
      posted empty. */
  lemma SelectStreetRequestSpec(doc: Document, postcodeHint: string, addressHint: string, query: string)
    ensures var r := SelectStreetRequest(doc, postcodeHint, addressHint, query);
      (r == Failure(NoStreetList) <==> LocateStreets(doc.selects).None?)
      && (r == Failure(BlankPostcodeHint) <==>
            (LocateStreets(doc.selects).Some? && postcodeHint != "" && Words(postcodeHint) == []))
      && (r == Failure(NoSelectableStreet) <==>
            (LocateStreets(doc.selects).Some? && (postcodeHint == "" || Words(postcodeHint) != [])
             && forall i :: 0 <= i < |LocateStreets(doc.selects).value.options| ==> OptValue(LocateStreets(doc.selects).value.options[i]) == ""))
      && (r == Failure(NoFormFound) <==>
            (LocateStreets(doc.selects).Some? && (postcodeHint == "" || Words(postcodeHint) != [])
             && StreetChoice(LocateStreets(doc.selects).value.options, Outward(postcodeHint), StreetQuery(addressHint, query)).Some?
             && doc.forms == []))
    ensures SelectStreetRequest(doc, postcodeHint, addressHint, query).Success? ==>
      var streets := LocateStreets(doc.selects).value;
      var chosen := StreetChoice(streets.options, Outward(postcodeHint), StreetQuery(addressHint, query)).value;
      var fields := InputFields(doc.forms[0].controls);
      var r := SelectStreetRequest(doc, postcodeHint, addressHint, query).value;
      r.action == doc.forms[0].action && chosen != ""
      && SelectStreetPayloadShape(fields, streets, chosen, SelectStreetButtonIn(doc.forms), r.payload)
  {
    var streets := LocateStreets(doc.selects);
    if streets.Some? && (postcodeHint == "" || Words(postcodeHint) != []) {
      StreetChoiceNonEmpty(streets.value.options, Outward(postcodeHint), StreetQuery(addressHint, query));
      var chosen := StreetChoice(streets.value.options, Outward(postcodeHint), StreetQuery(addressHint, query));
      if chosen.Some? && doc.forms != [] {
        SelectStreetPayloadSpec(InputFields(doc.forms[0].controls), streets.value, chosen.value, SelectStreetButtonIn(doc.forms));
      }
    }
  }

  /** What the street-selection payload holds, key by key. */
  ghost predicate SelectStreetPayloadShape(fields: FieldMap, streets: SelectBox, chosen: string, button: Option<string>, payload: FieldMap) {
    var name := StreetsName(streets);
    Keys(fields) <= Keys(payload)
    && (forall k :: k != name && k != "__EVENTTARGET" && k != "__EVENTARGUMENT" && Some(k) != button ==>
          Get(payload, k) == Get(fields, k))
    && (Some(name) != button && (button.Some? || name != "__EVENTTARGET") ==> Get(payload, name) == Some(Some(chosen)))
    && (button.Some? ==>
          Get(payload, button.value) ==
            Some(Some(ButtonValue(if button.value == name then Some(Some(chosen)) else Get(fields, button.value))))
          && ((button.value != name && Get(fields, button.value).Some? && Get(fields, button.value).value.Some?
               && Get(fields, button.value).value.value != "") ==> Get(payload, button.value) == Get(fields, button.value))
          && (name != "__EVENTTARGET" && button.value != "__EVENTTARGET" ==>
                Get(payload, "__EVENTTARGET") == Get(fields, "__EVENTTARGET"))
          && (name != "__EVENTARGUMENT" && button.value != "__EVENTARGUMENT" ==>
                Get(payload, "__EVENTARGUMENT") == Get(fields, "__EVENTARGUMENT")))
    && (button.None? ==>
          Get(payload, "__EVENTTARGET") == Some(Some(EventTarget(streets)))
          && (name != "__EVENTARGUMENT" && Get(fields, "__EVENTARGUMENT").Some? ==>
                Get(payload, "__EVENTARGUMENT") == Get(fields, "__EVENTARGUMENT"))
          && (name != "__EVENTARGUMENT" && Get(fields, "__EVENTARGUMENT").None? ==>
                Get(payload, "__EVENTARGUMENT") == Some(Some(""))))
  }

  lemma SelectStreetPayloadSpec(fields: FieldMap, streets: SelectBox, chosen: string, button: Option<string>)
    ensures SelectStreetPayloadShape(fields, streets, chosen, button, SelectStreetPayload(fields, streets, chosen, button))
  {
    match button
    case Some(b) => SelectStreetPayloadWithButton(fields, streets, chosen, b);
    case None => SelectStreetPayloadWithoutButton(fields, streets, chosen);
  }

  /** Posting the chosen street changes its own key and no other. */
  lemma PickStreet(fields: FieldMap, name: string, chosen: string)
    ensures Keys(fields) <= Keys(Put(fields, name, Some(chosen)))
    ensures forall k :: Get(Put(fields, name, Some(chosen)), k) == if k == name then Some(Some(chosen)) else Get(fields, k)
  {
    PutKeys(fields, name, Some(chosen));
    forall k ensures Get(Put(fields, name, Some(chosen)), k) == if k == name then Some(Some(chosen)) else Get(fields, k) {
      PutGet(fields, name, Some(chosen), k);
    }
  }

  lemma SelectStreetPayloadWithButton(fields: FieldMap, streets: SelectBox, chosen: string, b: string)
    ensures SelectStreetPayloadShape(fields, streets, chosen, Some(b), SelectStreetPayload(fields, streets, chosen, Some(b)))
  {
    var name := StreetsName(streets);
    var picked := Put(fields, name, Some(chosen));
    WithButtonGet(fields, streets, chosen, b);
    PickStreet(fields, name, chosen);
    assert Get(picked, b) == if b == name then Some(Some(chosen)) else Get(fields, b);
  }

  /** The usual case at app.py:377: `extract_form_fields` skips submit inputs, so when no
      input posts the button's name, the button is posted as "Select street". */
  lemma SelectStreetButtonDefault(cs: seq<Control>, streets: SelectBox, chosen: string, b: string)
    requires b != StreetsName(streets)
    requires forall j :: 0 <= j < |cs| ==> !PostsKey(cs[j], InputTag, b)
    ensures Get(SelectStreetPayload(InputFields(cs), streets, chosen, Some(b)), b) == Some(Some("Select street"))
  {
    InputFieldsFromInputs(cs, b);
    WithButtonGet(InputFields(cs), streets, chosen, b);
  }

  /** Key by key, the payload posted with a "select street" button `b`. */
  lemma WithButtonGet(fields: FieldMap, streets: SelectBox, chosen: string, b: string)
    ensures var name := StreetsName(streets);
      var picked := Put(fields, name, Some(chosen));
      var payload := SelectStreetPayload(fields, streets, chosen, Some(b));
      Keys(fields) <= Keys(payload)
      && (b != name ==> Get(picked, b) == Get(fields, b))
      && Get(payload, b) == Some(Some(ButtonValue(Get(picked, b))))
      && forall k :: k != b ==> Get(payload, k) == (if k == name then Some(Some(chosen)) else Get(fields, k))
  {
    var name := StreetsName(streets);
    var picked := Put(fields, name, Some(chosen));
    PickStreet(fields, name, chosen);
    var v := ButtonValue(Get(picked, b));
    var payload := Put(picked, b, Some(v));
    assert payload == SelectStreetPayload(fields, streets, chosen, Some(b));
    PutKeys(picked, b, Some(v));
    forall k ensures Get(payload, k) == if k == b then Some(Some(v)) else Get(picked, k) {
      PutGet(picked, b, Some(v), k);
    }
  }

  lemma SelectStreetPayloadWithoutButton(fields: FieldMap, streets: SelectBox, chosen: string)
    ensures SelectStreetPayloadShape(fields, streets, chosen, None, SelectStreetPayload(fields, streets, chosen, None))
  {
    var name := StreetsName(streets);
    var targeted := Put(Put(fields, name, Some(chosen)), "__EVENTTARGET", Some(EventTarget(streets)));
    WithoutButtonGet(fields, streets, chosen);
    GetIffKey(targeted, "__EVENTARGUMENT");
    assert name != "__EVENTARGUMENT" ==>
      ("__EVENTARGUMENT" !in Keys(targeted) <==> Get(fields, "__EVENTARGUMENT").None?);
  }

  /** Key by key, the payload posted without a "select street" button. */
  lemma WithoutButtonGet(fields: FieldMap, streets: SelectBox, chosen: string)
    ensures var name := StreetsName(streets);
      var targeted := Put(Put(fields, name, Some(chosen)), "__EVENTTARGET", Some(EventTarget(streets)));
      var absent := "__EVENTARGUMENT" !in Keys(targeted);
      var payload := SelectStreetPayload(fields, streets, chosen, None);
      Keys(fields) <= Keys(payload)
      && Get(targeted, "__EVENTARGUMENT") == (if name == "__EVENTARGUMENT" then Some(Some(chosen)) else Get(fields, "__EVENTARGUMENT"))
      && forall k :: Get(payload, k) ==
           (if absent && k == "__EVENTARGUMENT" then Some(Some(""))
            else if k == "__EVENTTARGET" then Some(Some(EventTarget(streets)))
            else if k == name then Some(Some(chosen))
            else Get(fields, k))
  {
    var name := StreetsName(streets);
    var picked := Put(fields, name, Some(chosen));
    var target := EventTarget(streets);
    var targeted := Put(picked, "__EVENTTARGET", Some(target));
    var absent := "__EVENTARGUMENT" !in Keys(targeted);
    var payload := SelectStreetPayload(fields, streets, chosen, None);
    assert payload == if absent then Put(targeted, "__EVENTARGUMENT", Some("")) else targeted;
    PutKeys(fields, name, Some(chosen));
    PutKeys(picked, "__EVENTTARGET", Some(target));
    PutKeys(targeted, "__EVENTARGUMENT", Some(""));
    forall k
      ensures Get(payload, k) ==
        if absent && k == "__EVENTARGUMENT" then Some(Some(""))
        else if k == "__EVENTTARGET" then Some(Some(target))
        else if k == name then Some(Some(chosen))
        else Get(fields, k)
    {
      PutGet(fields, name, Some(chosen), k);
      PutGet(picked, "__EVENTTARGET", Some(target), k);
      PutGet(targeted, "__EVENTARGUMENT", Some(""), k);
    }
    PutGet(fields, name, Some(chosen), "__EVENTARGUMENT");
    PutGet(picked, "__EVENTTARGET", Some(target), "__EVENTARGUMENT");
  }

  /** The street selection of `street_flow` (app.py:291-380). */
  method SelectStreetStep(doc: Document, postcodeHint: string, addressHint: string, query: string)
    returns (r: Result<Post, Failure>)
    ensures r == SelectStreetRequest(doc, postcodeHint, addressHint, query)
  {
    var streets := LocateStreets(doc.selects);
    if streets.None? {
      return Failure(NoStreetList);
    }
    if postcodeHint != "" && Words(postcodeHint) == [] {
      return Failure(BlankPostcodeHint);
    }
    var chosen := ChooseStreet(streets.value.options, postcodeHint, addressHint, query);
    if chosen.None? {
      return Failure(NoSelectableStreet);
    }
    var extracted := ExtractFormFields(doc);
    if extracted.Failure? {
      return Failure(extracted.error);
    }
    var (action, fields) := extracted.value;
    var payload := Put(fields, StreetsName(streets.value), Some(chosen.value));
    var present, button := FindSelectStreetButton(doc.forms);
    if present {
      payload := Put(payload, button, Some(ButtonValue(Get(payload, button))));
    } else {
      payload := Put(payload, "__EVENTTARGET", Some(EventTarget(streets.value)));
      if "__EVENTARGUMENT" !in Keys(payload) {
        payload := Put(payload, "__EVENTARGUMENT", Some(""));
      }
    }
    return Success(Post(action, payload));
  }

  // ---- Street flow, address selection (app.py:386-403) ----

  function StreetAddressUpdates(chosen: string): seq<(string, string)> {
    [(AddressListName, chosen), (SelectAddressButton, "Select")]
  }

  /** What `street_flow` posts from the street's address list. */
  function StreetAddressRequest(doc: Document, hint: string): Result<Post, Failure> {
    match SelectWithId(doc.selects, "lstAddresses")
    case None => Failure(NoAddressList)
    case Some(list) =>
      match StreetAddressChoice(list.options, hint)
      case None => Failure(NoSelectableAddress)
      case Some(v) =>
        if doc.forms == [] then Failure(NoFormFound)
        else Success(Post(doc.forms[0].action, AssignAll(InputFields(doc.forms[0].controls), StreetAddressUpdates(v))))
  }

  /** The checks run in app.py's order (address list, choice, form); on success the first
      form's input fields are posted with the address list, under its fixed name, set to a
      non-empty option value and the Select button set, and nothing else changed. */
  lemma StreetAddressRequestSpec(doc: Document, hint: string)
    ensures var r := StreetAddressRequest(doc, hint);
      (r == Failure(NoAddressList) <==> forall i :: 0 <= i < |doc.selects| ==> doc.selects[i].id != "lstAddresses")
      && (r == Failure(NoSelectableAddress) <==>
            (SelectWithId(doc.selects, "lstAddresses").Some?
             && StreetAddressChoice(SelectWithId(doc.selects, "lstAddresses").value.options, hint).None?))
      && (r == Failure(NoFormFound) <==>
            (SelectWithId(doc.selects, "lstAddresses").Some?
             && StreetAddressChoice(SelectWithId(doc.selects, "lstAddresses").value.options, hint).Some?
             && doc.forms == []))
    ensures StreetAddressRequest(doc, hint).Success? ==>
      var list := SelectWithId(doc.selects, "lstAddresses").value;
      var v := StreetAddressChoice(list.options, hint).value;
      var r := StreetAddressRequest(doc, hint).value;
      r.action == doc.forms[0].action && v != ""
      && (exists i :: 0 <= i < |list.options| && list.options[i].value == Some(v))
      && Get(r.payload, AddressListName) == Some(Some(v))
      && Get(r.payload, SelectAddressButton) == Some(Some("Select"))
      && OnlyAssigns(InputFields(doc.forms[0].controls), r.payload, StreetAddressUpdates(v))
  {
    var list := SelectWithId(doc.selects, "lstAddresses");
    if list.Some? {
      StreetAddressChoiceSpec(list.value.options, hint);
      var v := StreetAddressChoice(list.value.options, hint);
      if v.Some? && doc.forms != [] {
        StreetAddressAssigned(v.value);
        var fields := InputFields(doc.forms[0].controls);
        assert StreetAddressRequest(doc, hint)
          == Success(Post(doc.forms[0].action, AssignAll(fields, StreetAddressUpdates(v.value))));
      }
    }
  }

  lemma StreetAddressAssigned(chosen: string)
    ensures var us := StreetAddressUpdates(chosen);
      Assigned(us, AddressListName) == Some(chosen) && Assigned(us, SelectAddressButton) == Some("Select")
  {
    var us := StreetAddressUpdates(chosen);
    assert |AddressListName| < |SelectAddressButton|;
    assert us[..1] == [(AddressListName, chosen)];
    assert Assigned(us[..1], AddressListName) == Some(chosen);
  }

  /** The two assignments of app.py:402-403 on the extracted fields. */
  method StreetAddressPayload(fields: FieldMap, chosen: string) returns (payload: FieldMap)
    ensures payload == AssignAll(fields, StreetAddressUpdates(chosen))
  {
    ghost var us: seq<(string, string)> := [];
    payload := fields;
    payload := Put(payload, AddressListName, Some(chosen));
    AssignAllSnoc(fields, us, AddressListName, chosen);
    us := us + [(AddressListName, chosen)];
    payload := Put(payload, SelectAddressButton, Some("Select"));
    AssignAllSnoc(fields, us, SelectAddressButton, "Select");
    us := us + [(SelectAddressButton, "Select")];
    assert us == StreetAddressUpdates(chosen);
  }

  /** The address selection of `street_flow` (app.py:386-403). */
  method StreetAddressStep(doc: Document, hint: string) returns (r: Result<Post, Failure>)
    ensures r == StreetAddressRequest(doc, hint)
  {
    var list := SelectWithId(doc.selects, "lstAddresses");
    if list.None? {
      return Failure(NoAddressList);
    }
    var chosen := ChooseStreetAddress(list.value.options, hint);
    if chosen.None? {
      return Failure(NoSelectableAddress);
    }
    var extracted := ExtractFormFields(doc);
    if extracted.Failure? {
      return Failure(extracted.error);
    }
    var (action, fields) := extracted.value;
    var payload := StreetAddressPayload(fields, chosen.value);
    return Success(Post(action, payload));
  }
}
