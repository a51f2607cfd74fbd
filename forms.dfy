/**
 * Form-state extraction (app.py:20-114): the field map that each postback echoes back.
 * `find_main_form` picks the main form and reads inputs, textareas and selects;
 * `extract_form_fields` reads the inputs of the first form only.
 */
module Forms {
  import opened Wrappers
  import opened Text
  import opened Dicts
  import opened Page
  import Sequences

  /** Field name to value; a value is `None` when a select's chosen <option> has no
      `value` attribute (app.py:62 stores Python's None). */
  type FieldMap = Dict<string, Option<string>>

  type Field = (string, Option<string>)

  datatype Tag = InputTag | TextAreaTag | SelectTag

  predicate IsToggle(c: Control)
    requires c.Input?
  {
    Lower(c.kind) == "checkbox" || Lower(c.kind) == "radio"
  }

  /** The value of a select: its first selected option's, else its first option's
      (either may be `None`), else "" when it has no options (app.py:59-62). */
  function SelectValue(opts: seq<OptionElem>): (r: Option<string>)
    ensures (exists i :: 0 <= i < |opts| && opts[i].selected) ==>
      exists i :: 0 <= i < |opts| && opts[i].selected && r == opts[i].value
        && forall j :: 0 <= j < i ==> !opts[j].selected
    ensures (forall i :: 0 <= i < |opts| ==> !opts[i].selected) && opts != [] ==> r == opts[0].value
    ensures opts == [] ==> r == Some("")
  {
    match Sequences.FirstIndex(opts, (o: OptionElem) => o.selected)
    case Some(i) => opts[i].value
    case None => if opts == [] then Some("") else opts[0].value
  }

  /** The pair a control adds to the fields when the loop over controls of `tag` reaches
      it (app.py:34-46, 49-52, 55-62). */
  function Posted(c: Control, tag: Tag): (r: seq<Field>)
    ensures |r| <= 1
    ensures r != [] ==> r[0].0 != ""
  {
    match tag
    case InputTag =>
      if !c.Input? || c.name == "" || Lower(c.kind) == "submit" then []
      else if IsToggle(c) then
        if c.checked then [(c.name, Some(c.value.GetOr("on")))] else []
      else [(c.name, Some(c.value.GetOr("")))]
    case TextAreaTag =>
      if c.TextArea? && c.name != "" then [(c.name, Some(c.text))] else []
    case SelectTag =>
      if c.Select? && c.box.name != "" then [(c.box.name, SelectValue(c.box.options))] else []
  }

  /** What an input posts: nothing when it is nameless or a submit button, a checkbox or
      radio only when checked and then its value or "on", any other input its value or "". */
  lemma InputPostingRules(c: Control)
    requires c.Input?
    ensures c.name == "" || Lower(c.kind) == "submit" ==> Posted(c, InputTag) == []
    ensures IsToggle(c) && !c.checked ==> Posted(c, InputTag) == []
    ensures c.name != "" && Lower(c.kind) != "submit" && IsToggle(c) && c.checked ==>
      Posted(c, InputTag) == [(c.name, Some(c.value.GetOr("on")))]
    ensures c.name != "" && Lower(c.kind) != "submit" && !IsToggle(c) ==>
      Posted(c, InputTag) == [(c.name, Some(c.value.GetOr("")))]
    ensures Posted(c, TextAreaTag) == [] && Posted(c, SelectTag) == []
  {
  }

  /** The pairs the loop over controls of `tag` assigns, in order. */
  function Pairs(cs: seq<Control>, tag: Tag): seq<Field> {
    if cs == [] then [] else Pairs(cs[..|cs| - 1], tag) + Posted(cs[|cs| - 1], tag)
  }

  /** The fields `extract_form_fields` reads from a form's controls (app.py:77-88). */
  function InputFields(cs: seq<Control>): FieldMap {
    PutAll([], Pairs(cs, InputTag))
  }

  /** The fields `find_main_form` reads: inputs, then textareas, then selects (app.py:34-62). */
  function MainFields(cs: seq<Control>): FieldMap {
    PutAll([], Pairs(cs, InputTag) + Pairs(cs, TextAreaTag) + Pairs(cs, SelectTag))
  }

  /** The form `find_main_form` picks: the first with an `id`, else the first with a
      `name`, else the first form (app.py:22-26). */
  function MainFormIndex(forms: seq<Form>): (r: Option<nat>)
    ensures r.None? <==> forms == []
    ensures r.Some? ==> r.value < |forms|
    ensures (exists i :: 0 <= i < |forms| && forms[i].id.Some?) ==>
      r.Some? && forms[r.value].id.Some? && forall j :: 0 <= j < r.value ==> forms[j].id.None?
    ensures (forall i :: 0 <= i < |forms| ==> forms[i].id.None?) ==>
      (exists i :: 0 <= i < |forms| && forms[i].name.Some?) ==>
      r.Some? && forms[r.value].name.Some? && forall j :: 0 <= j < r.value ==> forms[j].name.None?
    ensures forms != [] && (forall i :: 0 <= i < |forms| ==> forms[i].id.None? && forms[i].name.None?) ==>
      r == Some(0)
  {
    match Sequences.FirstIndex(forms, (f: Form) => f.id.Some?)
    case Some(i) => Some(i)
    case None =>
      match Sequences.FirstIndex(forms, (f: Form) => f.name.Some?)
      case Some(i) => Some(i)
      case None => if forms == [] then None else Some(0)
  }

  /** Control `c` posts a pair named `k` in the loop over `tag`. */
  predicate PostsKey(c: Control, tag: Tag, k: string) {
    Posted(c, tag) != [] && Posted(c, tag)[0].0 == k
  }

  /** Control `j` posts `k` and no later control of the same loop does. */
  ghost predicate LastPoster(cs: seq<Control>, tag: Tag, k: string, j: int) {
    0 <= j < |cs| && PostsKey(cs[j], tag, k) && forall j' :: j < j' < |cs| ==> !PostsKey(cs[j'], tag, k)
  }

  lemma PairsStep(cs: seq<Control>, tag: Tag, i: nat)
    requires i < |cs|
    ensures Pairs(cs[..i + 1], tag) == Pairs(cs[..i], tag) + Posted(cs[i], tag)
  {
    assert cs[..i + 1][..i] == cs[..i];
  }

  lemma PutAllStep(d: FieldMap, ps: seq<Field>, more: seq<Field>)
    requires |more| <= 1
    ensures PutAll(d, ps + more) == if more == [] then PutAll(d, ps) else Put(PutAll(d, ps), more[0].0, more[0].1)
  {
    if more == [] {
      assert ps + more == ps;
    } else {
      assert (ps + more)[..|ps|] == ps;
    }
  }

  /** One more control: the field it posts takes its value, every other field keeps its own. */
  lemma PairsGetStep(d: FieldMap, cs: seq<Control>, tag: Tag, k: string)
    requires cs != []
    ensures Get(PutAll(d, Pairs(cs, tag)), k) ==
      if PostsKey(cs[|cs| - 1], tag, k) then Some(Posted(cs[|cs| - 1], tag)[0].1)
      else Get(PutAll(d, Pairs(cs[..|cs| - 1], tag)), k)
  {
    var n := |cs| - 1;
    var last := Posted(cs[n], tag);
    PutAllStep(d, Pairs(cs[..n], tag), last);
    if last != [] {
      PutGet(PutAll(d, Pairs(cs[..n], tag)), last[0].0, last[0].1, k);
    }
  }

  /** A field that no control of the loop posts keeps the value it had before the loop. */
  lemma {:induction false} FieldsWithoutPoster(d: FieldMap, cs: seq<Control>, tag: Tag, k: string)
    requires forall j :: 0 <= j < |cs| ==> !PostsKey(cs[j], tag, k)
    ensures Get(PutAll(d, Pairs(cs, tag)), k) == Get(d, k)
  {
    if cs != [] {
      PairsGetStep(d, cs, tag, k);
      FieldsWithoutPoster(d, cs[..|cs| - 1], tag, k);
    }
  }

  /** The loop over the controls of one tag leaves every field it touches with the value
      posted by the last control that posts it. */
  lemma {:induction false} FieldsFromLastPoster(d: FieldMap, cs: seq<Control>, tag: Tag, k: string, j: int)
    requires LastPoster(cs, tag, k, j)
    ensures Get(PutAll(d, Pairs(cs, tag)), k) == Some(Posted(cs[j], tag)[0].1)
    decreases |cs|
  {
    PairsGetStep(d, cs, tag, k);
    if j < |cs| - 1 {
      LastPosterOfInit(cs, tag, k, j);
      FieldsFromLastPoster(d, cs[..|cs| - 1], tag, k, j);
    }
  }

  /** A last poster before the final control is also the last poster without it. */
  lemma LastPosterOfInit(cs: seq<Control>, tag: Tag, k: string, j: int)
    requires LastPoster(cs, tag, k, j) && j < |cs| - 1
    ensures LastPoster(cs[..|cs| - 1], tag, k, j)
    ensures !PostsKey(cs[|cs| - 1], tag, k)
  {
    var init := cs[..|cs| - 1];
    assert init[j] == cs[j];
    forall j' | j < j' < |init| ensures !PostsKey(init[j'], tag, k) {
      assert init[j'] == cs[j'];
    }
  }

  /** `extract_form_fields`: a field is present exactly when some input posts it, and
      holds the value of the last input that does. Submit inputs, nameless inputs,
      unchecked checkboxes and radios, textareas and selects contribute nothing. */
  lemma InputFieldsFromInputs(cs: seq<Control>, k: string)
    ensures Get(InputFields(cs), k).Some? <==> exists j :: 0 <= j < |cs| && PostsKey(cs[j], InputTag, k)
    ensures forall j :: LastPoster(cs, InputTag, k, j) ==>
      Get(InputFields(cs), k) == Some(Posted(cs[j], InputTag)[0].1)
    ensures forall j :: 0 <= j < |cs| && PostsKey(cs[j], InputTag, k) ==> cs[j].Input?
  {
    if exists j :: 0 <= j < |cs| && PostsKey(cs[j], InputTag, k) {
      var j :| 0 <= j < |cs| && PostsKey(cs[j], InputTag, k);
      var last := LastPosterExists(cs, InputTag, k, j);
      FieldsFromLastPoster([], cs, InputTag, k, last);
      forall j | LastPoster(cs, InputTag, k, j) ensures Get(InputFields(cs), k) == Some(Posted(cs[j], InputTag)[0].1) {
        FieldsFromLastPoster([], cs, InputTag, k, j);
      }
    } else {
      FieldsWithoutPoster([], cs, InputTag, k);
    }
  }

  /** Some control posting `k` is the last one to do so. */
  lemma {:induction false} LastPosterExists(cs: seq<Control>, tag: Tag, k: string, j: int) returns (last: int)
    requires 0 <= j < |cs| && PostsKey(cs[j], tag, k)
    ensures LastPoster(cs, tag, k, last) && j <= last
    decreases |cs| - j
  {
    if forall j' :: j < j' < |cs| ==> !PostsKey(cs[j'], tag, k) {
      last := j;
    } else {
      var j' :| j < j' < |cs| && PostsKey(cs[j'], tag, k);
      last := LastPosterExists(cs, tag, k, j');
    }
  }

  /** `find_main_form`: a select's value beats a textarea's, which beats an input's, for
      the same name; a name no select or textarea posts keeps its `extract_form_fields` value. */
  lemma MainFieldsPrecedence(cs: seq<Control>, k: string)
    ensures Get(MainFields(cs), k) ==
      if exists j :: 0 <= j < |cs| && PostsKey(cs[j], SelectTag, k) then Get(PutAll([], Pairs(cs, SelectTag)), k)
      else if exists j :: 0 <= j < |cs| && PostsKey(cs[j], TextAreaTag, k) then Get(PutAll([], Pairs(cs, TextAreaTag)), k)
      else Get(InputFields(cs), k)
  {
    var ins, tas, sels := Pairs(cs, InputTag), Pairs(cs, TextAreaTag), Pairs(cs, SelectTag);
    PutAllConcat([], ins, tas);
    PutAllConcat([], ins + tas, sels);
    var afterInputs := PutAll([], ins);
    var afterTextAreas := PutAll(afterInputs, tas);
    assert MainFields(cs) == PutAll(afterTextAreas, sels);
    if exists j :: 0 <= j < |cs| && PostsKey(cs[j], SelectTag, k) {
      var j :| 0 <= j < |cs| && PostsKey(cs[j], SelectTag, k);
      var last := LastPosterExists(cs, SelectTag, k, j);
      FieldsFromLastPoster(afterTextAreas, cs, SelectTag, k, last);
      FieldsFromLastPoster([], cs, SelectTag, k, last);
    } else {
      FieldsWithoutPoster(afterTextAreas, cs, SelectTag, k);
      if exists j :: 0 <= j < |cs| && PostsKey(cs[j], TextAreaTag, k) {
        var j :| 0 <= j < |cs| && PostsKey(cs[j], TextAreaTag, k);
        var last := LastPosterExists(cs, TextAreaTag, k, j);
        FieldsFromLastPoster(afterInputs, cs, TextAreaTag, k, last);
        FieldsFromLastPoster([], cs, TextAreaTag, k, last);
      } else {
        FieldsWithoutPoster(afterInputs, cs, TextAreaTag, k);
      }
    }
  }

  /** Runs the loop of app.py:34-46 (duplicated at app.py:77-88) over the inputs of `cs`. */
  method AddInputs(fields: FieldMap, cs: seq<Control>) returns (fields': FieldMap)
    ensures fields' == PutAll(fields, Pairs(cs, InputTag))
  {
    fields' := fields;
    var i := 0;
    while i < |cs|
      invariant 0 <= i <= |cs|
      invariant fields' == PutAll(fields, Pairs(cs[..i], InputTag))
    {
      var c := cs[i];
      PairsStep(cs, InputTag, i);
      PutAllStep(fields, Pairs(cs[..i], InputTag), Posted(c, InputTag));
      if c.Input? && c.name != "" {
        var kind := Lower(c.kind);
        if kind != "submit" {
          if kind == "checkbox" || kind == "radio" {
            if c.checked {
              fields' := Put(fields', c.name, Some(c.value.GetOr("on")));
            }
          } else {
            fields' := Put(fields', c.name, Some(c.value.GetOr("")));
          }
        }
      }
      i := i + 1;
    }
    assert cs[..i] == cs;
  }

  /** Runs the loop of app.py:49-52 over the textareas of `cs`. */
  method AddTextAreas(fields: FieldMap, cs: seq<Control>) returns (fields': FieldMap)
    ensures fields' == PutAll(fields, Pairs(cs, TextAreaTag))
  {
    fields' := fields;
    var i := 0;
    while i < |cs|
      invariant 0 <= i <= |cs|
      invariant fields' == PutAll(fields, Pairs(cs[..i], TextAreaTag))
    {
      var c := cs[i];
      PairsStep(cs, TextAreaTag, i);
      PutAllStep(fields, Pairs(cs[..i], TextAreaTag), Posted(c, TextAreaTag));
      if c.TextArea? && c.name != "" {
        fields' := Put(fields', c.name, Some(c.text));
      }
      i := i + 1;
    }
    assert cs[..i] == cs;
  }

  /** Runs the loop of app.py:55-62 over the selects of `cs`. */
  method AddSelects(fields: FieldMap, cs: seq<Control>) returns (fields': FieldMap)
    ensures fields' == PutAll(fields, Pairs(cs, SelectTag))
  {
    fields' := fields;
    var i := 0;
    while i < |cs|
      invariant 0 <= i <= |cs|
      invariant fields' == PutAll(fields, Pairs(cs[..i], SelectTag))
    {
      var c := cs[i];
      PairsStep(cs, SelectTag, i);
      PutAllStep(fields, Pairs(cs[..i], SelectTag), Posted(c, SelectTag));
      if c.Select? && c.box.name != "" {
        fields' := Put(fields', c.box.name, SelectValue(c.box.options));
      }
      i := i + 1;
    }
    assert cs[..i] == cs;
  }

  /** `find_main_form` (app.py:20-64). */
  method FindMainForm(doc: Document) returns (r: Result<(string, FieldMap), Failure>)
    ensures doc.forms == [] <==> r == Failure(NoFormFound)
    ensures r.Failure? ==> r.error == NoFormFound
    ensures r.Success? ==>
      var form := doc.forms[MainFormIndex(doc.forms).value];
      r.value == (form.action, MainFields(form.controls))
  {
    var index := MainFormIndex(doc.forms);
    if index.None? {
      return Failure(NoFormFound);
    }
    var form := doc.forms[index.value];
    var cs := form.controls;
    var fields := AddInputs([], cs);
    fields := AddTextAreas(fields, cs);
    fields := AddSelects(fields, cs);
    PutAllConcat([], Pairs(cs, InputTag), Pairs(cs, TextAreaTag));
    PutAllConcat([], Pairs(cs, InputTag) + Pairs(cs, TextAreaTag), Pairs(cs, SelectTag));
    return Success((form.action, fields));
  }

  /** `extract_form_fields` (app.py:67-89): the first form, inputs only. */
  method ExtractFormFields(doc: Document) returns (r: Result<(string, FieldMap), Failure>)
    ensures doc.forms == [] <==> r == Failure(NoFormFound)
    ensures r.Failure? ==> r.error == NoFormFound
    ensures r.Success? ==> r.value == (doc.forms[0].action, InputFields(doc.forms[0].controls))
  {
    if doc.forms == [] {
      return Failure(NoFormFound);
    }
    var form := doc.forms[0];
    var fields := AddInputs([], form.controls);
    return Success((form.action, fields));
  }

  /** The two extractions read the same fields when the first form is the main form and
      has no named textarea or select. */
  lemma ExtractionsAgreeWithoutTextAreasOrSelects(forms: seq<Form>)
    requires forms != [] && MainFormIndex(forms) == Some(0)
    requires forall c :: c in forms[0].controls ==> !(c.TextArea? && c.name != "") && !(c.Select? && c.box.name != "")
    ensures MainFields(forms[0].controls) == InputFields(forms[0].controls)
  {
    var cs := forms[0].controls;
    NoPairsWithoutPosters(cs, TextAreaTag);
    NoPairsWithoutPosters(cs, SelectTag);
    assert Pairs(cs, InputTag) + Pairs(cs, TextAreaTag) + Pairs(cs, SelectTag) == Pairs(cs, InputTag);
  }

  lemma {:induction false} NoPairsWithoutPosters(cs: seq<Control>, tag: Tag)
    requires !tag.InputTag?
    requires forall c :: c in cs ==> !(c.TextArea? && c.name != "") && !(c.Select? && c.box.name != "")
    ensures Pairs(cs, tag) == []
  {
    if cs != [] {
      NoPairsWithoutPosters(cs[..|cs| - 1], tag);
      assert cs[|cs| - 1] in cs;
    }
  }

  /** `extract_state_fields` (app.py:92-98): the ASP.NET state fields, whose names start
      with "__", with their values, in the same order. */
  function StateFields(fields: FieldMap): (r: FieldMap)
    ensures forall k :: Get(r, k) == if "__" <= k then Get(fields, k) else None
    ensures forall i :: 0 <= i < |r| ==> "__" <= r[i].0
  {
    if fields == [] then []
    else
      var rest := StateFields(fields[1..]);
      if "__" <= fields[0].0 then
        var r := [fields[0]] + rest;
        assert r[1..] == rest;
        r
      else rest
  }

  /** The name filters of `choose_postcode_field` (app.py:105-109, 113). */
  predicate IsPostcodeName(k: string) {
    Contains(Lower(k), "postcode") && !Contains(Lower(k), "hidden") && !("__" <= k)
  }

  predicate IsTextName(k: string) {
    Contains(Lower(k), "$tb") || Contains(Lower(k), "txt")
  }

  /** `choose_postcode_field` (app.py:101-114): the first field name, in dict order, that
      mentions "postcode" (not "hidden", not a state field); failing any, the first that
      looks like a text box; `None` when neither kind exists. */
  function ChoosePostcodeField(fields: FieldMap): (r: Option<string>)
    ensures r.None? <==> forall i :: 0 <= i < |fields| ==> !IsPostcodeName(Keys(fields)[i]) && !IsTextName(Keys(fields)[i])
    ensures (exists i :: 0 <= i < |fields| && IsPostcodeName(Keys(fields)[i])) ==>
      exists i :: 0 <= i < |fields| && r == Some(Keys(fields)[i]) && IsPostcodeName(Keys(fields)[i])
        && forall j :: 0 <= j < i ==> !IsPostcodeName(Keys(fields)[j])
    ensures (forall i :: 0 <= i < |fields| ==> !IsPostcodeName(Keys(fields)[i])) && r.Some? ==>
      exists i :: 0 <= i < |fields| && r == Some(Keys(fields)[i]) && IsTextName(Keys(fields)[i])
        && forall j :: 0 <= j < i ==> !IsTextName(Keys(fields)[j])
  {
    var keys := Keys(fields);
    match Sequences.FirstIndex(keys, IsPostcodeName)
    case Some(i) => Some(keys[i])
    case None =>
      match Sequences.FirstIndex(keys, IsTextName)
      case Some(i) => Some(keys[i])
      case None => None
  }
}
