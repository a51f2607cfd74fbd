/**
 * The option-matching policies of the lookup: which address dropdown the address step
 * uses and which of its values it posts (app.py:188-242), which street the street search
 * picks (app.py:290-357), which address the street flow posts (app.py:386-399), and how
 * the street flow recognises the "select street" button (app.py:363-375).
 */
module Options {
  import opened Wrappers
  import opened Text
  import opened Dicts
  import opened Page
  import Sequences

  /** The option has a non-empty `value` attribute (`if opt.get("value")`). */
  predicate HasValue(o: OptionElem) {
    o.value.Some? && o.value.value != ""
  }

  /** The (text, value) pairs of the options with a non-empty value, in document order. */
  function ValuedPairs(opts: seq<OptionElem>): (ps: seq<(string, string)>)
    ensures forall i :: 0 <= i < |ps| ==> ps[i].1 != ""
  {
    if opts == [] then []
    else if HasValue(opts[0]) then [(opts[0].text, opts[0].value.value)] + ValuedPairs(opts[1..])
    else ValuedPairs(opts[1..])
  }

  /** Each pair comes from a valued option. */
  lemma {:induction false} ValuedPairsFrom(opts: seq<OptionElem>)
    ensures forall p :: p in ValuedPairs(opts) ==> exists j :: 0 <= j < |opts| && HasValue(opts[j]) && p == (opts[j].text, opts[j].value.value)
  {
    if opts != [] {
      ValuedPairsFrom(opts[1..]);
      forall p | p in ValuedPairs(opts)
        ensures exists j :: 0 <= j < |opts| && HasValue(opts[j]) && p == (opts[j].text, opts[j].value.value)
      {
        if p in ValuedPairs(opts[1..]) {
          var j :| 0 <= j < |opts[1..]| && HasValue(opts[1..][j]) && p == (opts[1..][j].text, opts[1..][j].value.value);
          assert opts[j + 1] == opts[1..][j];
        }
      }
    }
  }

  /** The text-to-value map of app.py:193 and app.py:199: one entry per distinct text,
      placed where that text first occurs, holding the value of its last valued option. */
  function AddressOptions(opts: seq<OptionElem>): Dict<string, string> {
    PutAll([], ValuedPairs(opts))
  }

  /** Every entry of the map comes from a valued option, so its value is never empty,
      and no text appears twice. */
  lemma AddressOptionsShape(opts: seq<OptionElem>)
    ensures forall i :: 0 <= i < |AddressOptions(opts)| ==> AddressOptions(opts)[i].1 != ""
    ensures forall i :: 0 <= i < |AddressOptions(opts)| ==>
      exists j :: 0 <= j < |opts| && HasValue(opts[j]) && AddressOptions(opts)[i] == (opts[j].text, opts[j].value.value)
    ensures Distinct(Keys(AddressOptions(opts)))
    ensures AddressOptions(opts) == [] <==> forall j :: 0 <= j < |opts| ==> !HasValue(opts[j])
  {
    var ps := ValuedPairs(opts);
    PutAllPairsFrom([], ps);
    ValuedPairsFrom(opts);
    PutAllKeepsKeysDistinct([], ps);
    PutAllEmpty(ps);
    if forall j :: 0 <= j < |opts| ==> !HasValue(opts[j]) {
      NoValuedPairs(opts);
    } else {
      var j :| 0 <= j < |opts| && HasValue(opts[j]);
      ValuedPairsHas(opts, j);
    }
  }

  /** The map's texts come in the order in which each text first appears among the valued
      options. */
  lemma AddressOptionsOrder(opts: seq<OptionElem>)
    ensures Keys(AddressOptions(opts)) == FirstOccurrences(Keys(ValuedPairs(opts)))
  {
    KeysOfPutAll(ValuedPairs(opts));
  }

  /** The text of every valued option is a key, and it holds the value of the last valued
      option with that text (a later option overwrites an earlier one). */
  lemma AddressOptionsLastWins(opts: seq<OptionElem>, j: int)
    requires 0 <= j < |opts| && HasValue(opts[j])
    requires forall k :: j < k < |opts| && HasValue(opts[k]) ==> opts[k].text != opts[j].text
    ensures Get(AddressOptions(opts), opts[j].text) == Some(opts[j].value.value)
  {
    var before, after := opts[..j], opts[j + 1..];
    assert opts == before + ([opts[j]] + after);
    ValuedPairsConcat(before, [opts[j]] + after);
    assert ([opts[j]] + after)[0] == opts[j] && ([opts[j]] + after)[1..] == after;
    var ps := ValuedPairs(opts);
    var m := |ValuedPairs(before)|;
    assert ps == ValuedPairs(before) + ([(opts[j].text, opts[j].value.value)] + ValuedPairs(after));
    ValuedPairsFrom(after);
    forall k | m < k < |ps| ensures ps[k].0 != opts[j].text {
      assert ps[k] in ValuedPairs(after) by {
        assert ps[k] == ValuedPairs(after)[k - m - 1];
      }
      var i :| 0 <= i < |after| && HasValue(after[i]) && ps[k] == (after[i].text, after[i].value.value);
      assert after[i] == opts[j + 1 + i];
    }
    assert LastWith(ps, opts[j].text, m);
    PutAllGet([], ps, opts[j].text);
  }

  lemma {:induction false} ValuedPairsConcat(a: seq<OptionElem>, b: seq<OptionElem>)
    ensures ValuedPairs(a + b) == ValuedPairs(a) + ValuedPairs(b)
  {
    if a != [] {
      ValuedPairsConcat(a[1..], b);
      assert (a + b)[0] == a[0] && (a + b)[1..] == a[1..] + b;
    } else {
      assert a + b == b;
    }
  }

  lemma {:induction false} NoValuedPairs(opts: seq<OptionElem>)
    requires forall j :: 0 <= j < |opts| ==> !HasValue(opts[j])
    ensures ValuedPairs(opts) == []
  {
    if opts != [] {
      NoValuedPairs(opts[1..]);
    }
  }

  lemma {:induction false} ValuedPairsHas(opts: seq<OptionElem>, j: int)
    requires 0 <= j < |opts| && HasValue(opts[j])
    ensures (opts[j].text, opts[j].value.value) in ValuedPairs(opts)
  {
    if j > 0 {
      ValuedPairsHas(opts[1..], j - 1);
    }
  }

  /** Every pair of the dictionary after a run of assignments is a pair it held before or
      one that was assigned. */
  lemma {:induction false} PutAllPairsFrom<V>(d: Dict<string, V>, ps: seq<(string, V)>)
    ensures forall i :: 0 <= i < |PutAll(d, ps)| ==> PutAll(d, ps)[i] in d || PutAll(d, ps)[i] in ps
  {
    if ps != [] {
      var init := ps[..|ps| - 1];
      PutAllPairsFrom(d, init);
      PutPairsFrom(PutAll(d, init), ps[|ps| - 1].0, ps[|ps| - 1].1);
      forall i | 0 <= i < |PutAll(d, ps)| ensures PutAll(d, ps)[i] in d || PutAll(d, ps)[i] in ps {
        var p := PutAll(d, ps)[i];
        if p != ps[|ps| - 1] {
          assert p in PutAll(d, init);
          var k :| 0 <= k < |PutAll(d, init)| && PutAll(d, init)[k] == p;
          assert p in d || p in init;
          if p in init {
            var m :| 0 <= m < |init| && init[m] == p;
            assert ps[m] == p;
          }
        }
      }
    }
  }

  lemma {:induction false} PutPairsFrom<V>(d: Dict<string, V>, k: string, v: V)
    ensures forall i :: 0 <= i < |Put(d, k, v)| ==> Put(d, k, v)[i] == (k, v) || Put(d, k, v)[i] in d
  {
    if d != [] && d[0].0 != k {
      PutPairsFrom(d[1..], k, v);
      forall i | 0 <= i < |Put(d, k, v)| ensures Put(d, k, v)[i] == (k, v) || Put(d, k, v)[i] in d {
        if i > 0 {
          assert Put(d, k, v)[i] == Put(d[1..], k, v)[i - 1];
          if Put(d, k, v)[i] in d[1..] {
            var m :| 0 <= m < |d[1..]| && d[1..][m] == Put(d, k, v)[i];
            assert d[m + 1] == Put(d, k, v)[i];
          }
        }
      }
    } else if d != [] {
      forall i | 0 <= i < |Put(d, k, v)| ensures Put(d, k, v)[i] == (k, v) || Put(d, k, v)[i] in d {
        if i > 0 {
          assert Put(d, k, v)[i] == d[i];
        }
      }
    }
  }

  lemma {:induction false} PutAllEmpty<V>(ps: seq<(string, V)>)
    ensures PutAll([], ps) == [] <==> ps == []
  {
    if ps != [] {
      var d := PutAll([], ps[..|ps| - 1]);
      PutGet(d, ps[|ps| - 1].0, ps[|ps| - 1].1, ps[|ps| - 1].0);
    }
  }

  /** `soup.find("select", id=...)`: the first select of the page with that id. */
  function SelectWithId(selects: seq<SelectBox>, id: string): (r: Option<SelectBox>)
    ensures r.Some? ==> r.value in selects && r.value.id == id
    ensures r.None? <==> forall i :: 0 <= i < |selects| ==> selects[i].id != id
    ensures r.Some? ==>
      exists i :: 0 <= i < |selects| && selects[i] == r.value && forall j :: 0 <= j < i ==> selects[j].id != id
  {
    match Sequences.FirstIndex(selects, (s: SelectBox) => s.id == id)
    case Some(i) => Some(selects[i])
    case None => None
  }

  /** The fallback of app.py:196-200: a named select with more than one option. */
  predicate IsListLike(s: SelectBox) {
    |s.options| > 1 && s.name != ""
  }

  /** `find_address_dropdown` (app.py:188-201): the dropdown's name and its text-to-value
      map. The first select with id "lstAddresses" wins when it has a name; otherwise the
      first named select with more than one option; `None` when there is neither. */
  function FindAddressDropdown(selects: seq<SelectBox>): (r: Option<(string, Dict<string, string>)>)
    ensures r.Some? ==> r.value.0 != ""
    ensures SelectWithId(selects, "lstAddresses").Some? && SelectWithId(selects, "lstAddresses").value.name != "" ==>
      var s := SelectWithId(selects, "lstAddresses").value;
      r == Some((s.name, AddressOptions(s.options)))
    ensures !(SelectWithId(selects, "lstAddresses").Some? && SelectWithId(selects, "lstAddresses").value.name != "") ==>
      (r.None? <==> forall i :: 0 <= i < |selects| ==> !IsListLike(selects[i]))
    ensures !(SelectWithId(selects, "lstAddresses").Some? && SelectWithId(selects, "lstAddresses").value.name != "") && r.Some? ==>
      exists i :: 0 <= i < |selects| && IsListLike(selects[i])
        && r.value == (selects[i].name, AddressOptions(selects[i].options))
        && forall j :: 0 <= j < i ==> !IsListLike(selects[j])
  {
    var explicit := SelectWithId(selects, "lstAddresses");
    if explicit.Some? && explicit.value.name != "" then
      Some((explicit.value.name, AddressOptions(explicit.value.options)))
    else
      match Sequences.FirstIndex(selects, IsListLike)
      case Some(i) => Some((selects[i].name, AddressOptions(selects[i].options)))
      case None => None
  }

  /** The option text contains the lower-cased query (`q in text.lower()`). */
  predicate TextMatches(text: string, q: string) {
    Contains(Lower(text), q)
  }

  /** The index of the first entry whose lower-cased text contains `q`. */
  function HintMatch(options: Dict<string, string>, q: string): (r: Option<nat>)
    ensures r.Some? ==> r.value < |options| && TextMatches(options[r.value].0, q)
    ensures r.Some? ==> forall j :: 0 <= j < r.value ==> !TextMatches(options[j].0, q)
    ensures r.None? <==> forall j :: 0 <= j < |options| ==> !TextMatches(options[j].0, q)
  {
    Sequences.FirstIndex(options, (p: (string, string)) => TextMatches(p.0, q))
  }

  /** The index of the first entry with a non-empty value. */
  function FirstValued(options: Dict<string, string>): (r: Option<nat>)
    ensures r.Some? ==> r.value < |options| && options[r.value].1 != ""
    ensures r.Some? ==> forall j :: 0 <= j < r.value ==> options[j].1 == ""
    ensures r.None? <==> forall j :: 0 <= j < |options| ==> options[j].1 == ""
  {
    Sequences.FirstIndex(options, (p: (string, string)) => p.1 != "")
  }

  /** The address choice of app.py:227-242 over the text-to-value map: with a hint, the
      value of the first entry whose lower-cased text contains the lower-cased hint; when
      that gives nothing, the first non-empty value; `None` when both give nothing. */
  function AddressChoice(options: Dict<string, string>, hint: string): Option<string> {
    var matched :=
      if hint == "" then ""
      else match HintMatch(options, Lower(hint))
        case Some(i) => options[i].1
        case None => "";
    if matched != "" then Some(matched)
    else match FirstValued(options)
      case Some(i) => Some(options[i].1)
      case None => None
  }

  /** The loops of app.py:227-242: a hint match first, then the first non-empty value. */
  method ChooseAddress(options: Dict<string, string>, hint: string) returns (r: Option<string>)
    ensures r == AddressChoice(options, hint)
  {
    var chosen := "";
    var q := Lower(hint);
    if hint != "" {
      var i := 0;
      while i < |options|
        invariant 0 <= i <= |options|
        invariant forall j :: 0 <= j < i ==> !TextMatches(options[j].0, q)
      {
        if TextMatches(options[i].0, q) {
          chosen := options[i].1;
          break;
        }
        i := i + 1;
      }
      assert chosen == match HintMatch(options, q)
        case Some(i) => options[i].1
        case None => "";
    }
    if chosen == "" && options != [] {
      var i := 0;
      while i < |options|
        invariant 0 <= i <= |options|
        invariant forall j :: 0 <= j < i ==> options[j].1 == ""
        invariant chosen == ""
      {
        if options[i].1 != "" {
          chosen := options[i].1;
          break;
        }
        i := i + 1;
      }
    }
    if chosen == "" {
      return None;
    }
    return Some(chosen);
  }

  /** The address choice never posts an empty value; it fails exactly when every value
      is empty (for the map of app.py:193, exactly when the dropdown has no valued option);
      a hint matching some text selects the value of the first such text, and otherwise
      the first entry's value is taken. */
  lemma AddressChoiceSpec(options: Dict<string, string>, hint: string)
    ensures AddressChoice(options, hint).Some? ==> AddressChoice(options, hint).value != ""
    ensures AddressChoice(options, hint).None? <==> forall i :: 0 <= i < |options| ==> options[i].1 == ""
    ensures hint != "" ==> forall i ::
      (0 <= i < |options| && TextMatches(options[i].0, Lower(hint)) && options[i].1 != ""
       && forall j :: 0 <= j < i ==> !TextMatches(options[j].0, Lower(hint))) ==>
      AddressChoice(options, hint) == Some(options[i].1)
    ensures (hint == "" || forall i :: 0 <= i < |options| ==> !TextMatches(options[i].0, Lower(hint))) ==>
      AddressChoice(options, hint) ==
        match FirstValued(options)
        case Some(i) => Some(options[i].1)
        case None => None
  {
    var m := HintMatch(options, Lower(hint));
    var f := FirstValued(options);
    if hint != "" {
      forall i | 0 <= i < |options| && TextMatches(options[i].0, Lower(hint)) && options[i].1 != ""
          && (forall j :: 0 <= j < i ==> !TextMatches(options[j].0, Lower(hint)))
        ensures AddressChoice(options, hint) == Some(options[i].1)
      {
        assert m == Some(i);
      }
    }
    if f.Some? {
      assert AddressChoice(options, hint).Some?;
    }
  }

  /** On the map of app.py:193/199, the first entry's value is taken unless the hint
      matches, and the step fails only when the dropdown offers no valued option. */
  lemma AddressChoiceOnDropdown(opts: seq<OptionElem>, hint: string)
    ensures var options := AddressOptions(opts);
      AddressChoice(options, hint).None? <==> forall j :: 0 <= j < |opts| ==> !HasValue(opts[j])
    ensures var options := AddressOptions(opts);
      options != [] && (hint == "" || forall i :: 0 <= i < |options| ==> !TextMatches(options[i].0, Lower(hint))) ==>
      AddressChoice(options, hint) == Some(options[0].1)
  {
    var options := AddressOptions(opts);
    AddressOptionsShape(opts);
    AddressChoiceSpec(options, hint);
    if options != [] {
      assert options[0].1 != "";
    }
  }

  /** `_opt_value` (app.py:310-315): the stripped `value` attribute, or the text when that
      is empty. */
  function OptValue(o: OptionElem): (v: string)
    ensures v == "" <==> Strip(o.value.GetOr("")) == "" && o.text == ""
    ensures Strip(o.value.GetOr("")) != "" ==> v == Strip(o.value.GetOr(""))
  {
    var v := Strip(o.value.GetOr(""));
    if v != "" then v else o.text
  }

  /** The outward code of the postcode hint: its first token, upper-cased (app.py:307). A
      hint of only whitespace makes app.py fail on `split()[0]`; callers check for it
      first. */
  function Outward(postcodeHint: string): (r: string)
    requires postcodeHint == "" || Words(postcodeHint) != []
    ensures postcodeHint == "" <==> r == ""
  {
    if postcodeHint == "" then "" else Upper(Words(postcodeHint)[0])
  }

  /** Strategy 1 (app.py:318-327): a non-empty value whose value or text mentions the
      outward code, upper-cased. */
  predicate OutwardMatch(o: OptionElem, outward: string) {
    OptValue(o) != "" && (Contains(Upper(OptValue(o)), outward) || Contains(Upper(o.text), outward))
  }

  /** Strategy 2 (app.py:330-339): a non-empty value whose lower-cased text mentions `q`. */
  predicate QueryMatch(o: OptionElem, q: string) {
    OptValue(o) != "" && Contains(Lower(o.text), q)
  }

  /** Strategy 3 (app.py:342-348): any non-empty value. */
  predicate AnyValue(o: OptionElem) {
    OptValue(o) != ""
  }

  /** The three strategies of the street choice, each a test on one option. */
  datatype Strategy =
    | ByOutward(outward: string)
    | ByQuery(q: string)
    | ByAnyValue

  predicate Passes(o: OptionElem, s: Strategy) {
    match s
    case ByOutward(outward) => OutwardMatch(o, outward)
    case ByQuery(q) => QueryMatch(o, q)
    case ByAnyValue => AnyValue(o)
  }

  /** The query of strategy 2: the address hint, else the street query, stripped and
      lower-cased. */
  function StreetQuery(addressHint: string, streetQuery: string): string {
    Lower(Strip(if addressHint != "" then addressHint else streetQuery))
  }

  /** The test of strategy `s`, as a function on options. */
  function Test(s: Strategy): OptionElem -> bool {
    o => Passes(o, s)
  }

  /** Without an address hint or a street query there is no query for strategy 2. */
  lemma NoStreetQuery()
    ensures StreetQuery("", "") == ""
  {
    assert Strip("") == "";
  }

  /** The index of the first option passing `s`. */
  function FirstPassing(opts: seq<OptionElem>, s: Strategy): (r: Option<nat>)
    ensures r.Some? ==> r.value < |opts| && Passes(opts[r.value], s)
    ensures r.Some? ==> forall j :: 0 <= j < r.value ==> !Passes(opts[j], s)
    ensures r.None? <==> forall j :: 0 <= j < |opts| ==> !Passes(opts[j], s)
  {
    Sequences.FirstIndex(opts, Test(s))
  }

  /** The `_opt_value` of the first option passing `s`: never empty, and `None` when no
      option passes. */
  function FirstValue(opts: seq<OptionElem>, s: Strategy): (r: Option<string>)
    ensures r.None? <==> forall j :: 0 <= j < |opts| ==> !Passes(opts[j], s)
    ensures r.Some? ==> r.value != "" && exists i :: 0 <= i < |opts| && Passes(opts[i], s) && r.value == OptValue(opts[i])
  {
    var i := FirstPassing(opts, s);
    if i.Some? then
      PassesValued(opts[i.value], s);
      Some(OptValue(opts[i.value]))
    else None
  }

  /** Every strategy asks for a non-empty `_opt_value`. */
  lemma PassesValued(o: OptionElem, s: Strategy)
    requires Passes(o, s)
    ensures OptValue(o) != ""
  {
  }

  /** `FirstValue` is what the loop over the strategy's test finds. */
  lemma FirstValueByTest(opts: seq<OptionElem>, s: Strategy)
    ensures FirstValue(opts, s).GetOr("")
      == match Sequences.FirstIndex(opts, Test(s)) case Some(i) => OptValue(opts[i]) case None => ""
  {
  }

  /** ... and it is that of the first one. */
  lemma FirstValueAt(opts: seq<OptionElem>, s: Strategy, i: nat)
    requires i < |opts| && Passes(opts[i], s)
    requires forall j :: 0 <= j < i ==> !Passes(opts[j], s)
    ensures FirstValue(opts, s) == Some(OptValue(opts[i]))
  {
    var r := FirstPassing(opts, s);
    assert r.Some?;
    assert !(r.value < i) && !(i < r.value);
  }

  /** The street choice of app.py:306-357: an outward-code match beats a query match,
      which beats the first option with a value; `None` when no option has a value. */
  function StreetChoice(opts: seq<OptionElem>, outward: string, q: string): Option<string> {
    var tier1 := OutwardTier(opts, outward);
    var tier2 := QueryTier(opts, q);
    if tier1.Some? then tier1
    else if tier2.Some? then tier2
    else FirstValue(opts, ByAnyValue)
  }

  /** Strategy 1, tried only with an outward code. */
  function OutwardTier(opts: seq<OptionElem>, outward: string): Option<string> {
    if outward != "" then FirstValue(opts, ByOutward(outward)) else None
  }

  /** Strategy 2, tried only with a query. */
  function QueryTier(opts: seq<OptionElem>, q: string): Option<string> {
    if q != "" then FirstValue(opts, ByQuery(q)) else None
  }

  /** One of the loops of app.py:318-348: the `_opt_value` of the first option passing
      the strategy's test, "" when none does. */
  method FirstValueOf(opts: seq<OptionElem>, p: OptionElem -> bool) returns (chosen: string)
    ensures chosen == match Sequences.FirstIndex(opts, p) case Some(i) => OptValue(opts[i]) case None => ""
  {
    chosen := "";
    var i := 0;
    while i < |opts|
      invariant 0 <= i <= |opts|
      invariant forall j :: 0 <= j < i ==> !p(opts[j])
    {
      if p(opts[i]) {
        Sequences.FirstIndexAt(opts, p, i);
        return OptValue(opts[i]);
      }
      i := i + 1;
    }
  }

  /** The three strategies of app.py:306-357 in order, each stopping at its first match. */
  method ChooseStreet(opts: seq<OptionElem>, postcodeHint: string, addressHint: string, streetQuery: string)
    returns (r: Option<string>)
    requires postcodeHint == "" || Words(postcodeHint) != []
    ensures r == StreetChoice(opts, Outward(postcodeHint), StreetQuery(addressHint, streetQuery))
  {
    var outward := if postcodeHint != "" then Upper(Words(postcodeHint)[0]) else "";
    var chosen := OutwardStep(opts, outward);
    if chosen == "" {
      chosen := QueryStep(opts, addressHint, streetQuery);
    }
    if chosen == "" {
      chosen := FirstValueOf(opts, Test(ByAnyValue));
      FirstValueByTest(opts, ByAnyValue);
    }
    if chosen == "" {
      return None;
    }
    return Some(chosen);
  }

  /** Strategy 1 of app.py:306-327: the outward code's loop, run when there is one. */
  method OutwardStep(opts: seq<OptionElem>, outward: string) returns (chosen: string)
    ensures chosen == OutwardTier(opts, outward).GetOr("")
  {
    chosen := "";
    if outward != "" {
      chosen := FirstValueOf(opts, Test(ByOutward(outward)));
      FirstValueByTest(opts, ByOutward(outward));
    }
  }

  /** Strategy 2 of app.py:329-339: the query's loop, run when the address hint or the
      street query gives a non-empty query. */
  method QueryStep(opts: seq<OptionElem>, addressHint: string, streetQuery: string) returns (chosen: string)
    ensures chosen == QueryTier(opts, StreetQuery(addressHint, streetQuery)).GetOr("")
  {
    chosen := "";
    if addressHint != "" || streetQuery != "" {
      var q := Lower(Strip(if addressHint != "" then addressHint else streetQuery));
      if q != "" {
        chosen := FirstValueOf(opts, Test(ByQuery(q)));
        FirstValueByTest(opts, ByQuery(q));
      }
    } else {
      NoStreetQuery();
    }
  }

  /** The street choice posts the `_opt_value` of some option, never an empty one, and
      fails exactly when every option's value and text are empty. */
  lemma StreetChoiceNonEmpty(opts: seq<OptionElem>, outward: string, q: string)
    ensures StreetChoice(opts, outward, q).Some? ==>
      StreetChoice(opts, outward, q).value != ""
      && exists i :: 0 <= i < |opts| && StreetChoice(opts, outward, q) == Some(OptValue(opts[i]))
    ensures StreetChoice(opts, outward, q).None? <==> forall i :: 0 <= i < |opts| ==> OptValue(opts[i]) == ""
  {
    var r := StreetChoice(opts, outward, q);
    var any := FirstValue(opts, ByAnyValue);
    AnyValueNone(opts);
    if any.None? {
      NoValueNoMatch(opts, ByOutward(outward));
      NoValueNoMatch(opts, ByQuery(q));
      assert r.None?;
    } else {
      assert r.Some?;
      var s :| s in {ByOutward(outward), ByQuery(q), ByAnyValue} && r == FirstValue(opts, s);
      FirstValueIsOption(opts, s);
    }
  }

  /** No option has a value exactly when strategy 3 finds nothing. */
  lemma AnyValueNone(opts: seq<OptionElem>)
    ensures FirstValue(opts, ByAnyValue).None? <==> forall i :: 0 <= i < |opts| ==> OptValue(opts[i]) == ""
  {
    assert forall i :: 0 <= i < |opts| ==> (Passes(opts[i], ByAnyValue) <==> OptValue(opts[i]) != "");
  }

  /** Without an option with a value, no strategy finds anything. */
  lemma NoValueNoMatch(opts: seq<OptionElem>, s: Strategy)
    requires FirstValue(opts, ByAnyValue).None?
    ensures FirstValue(opts, s).None?
  {
    forall j | 0 <= j < |opts| ensures !Passes(opts[j], s) {
      assert !Passes(opts[j], ByAnyValue);
      if Passes(opts[j], s) {
        PassesValued(opts[j], s);
      }
    }
  }

  /** What a strategy finds is the non-empty `_opt_value` of one of the options. */
  lemma FirstValueIsOption(opts: seq<OptionElem>, s: Strategy)
    requires FirstValue(opts, s).Some?
    ensures FirstValue(opts, s).value != ""
    ensures exists i :: 0 <= i < |opts| && FirstValue(opts, s) == Some(OptValue(opts[i]))
  {
  }

  /** The strategies rank as app.py orders them: the first outward-code match wins; with
      none, the first query match; with neither, the first option with a value. */
  lemma StreetChoiceTiers(opts: seq<OptionElem>, outward: string, q: string, i: nat)
    requires i < |opts|
    ensures outward != "" && OutwardMatch(opts[i], outward) && (forall j :: 0 <= j < i ==> !OutwardMatch(opts[j], outward)) ==>
      StreetChoice(opts, outward, q) == Some(OptValue(opts[i]))
    ensures ((outward == "" || forall j :: 0 <= j < |opts| ==> !OutwardMatch(opts[j], outward))
      && q != "" && QueryMatch(opts[i], q) && (forall j :: 0 <= j < i ==> !QueryMatch(opts[j], q))) ==>
      StreetChoice(opts, outward, q) == Some(OptValue(opts[i]))
    ensures ((outward == "" || forall j :: 0 <= j < |opts| ==> !OutwardMatch(opts[j], outward))
      && (q == "" || forall j :: 0 <= j < |opts| ==> !QueryMatch(opts[j], q))
      && AnyValue(opts[i]) && (forall j :: 0 <= j < i ==> !AnyValue(opts[j]))) ==>
      StreetChoice(opts, outward, q) == Some(OptValue(opts[i]))
  {
    if outward != "" && OutwardMatch(opts[i], outward) && (forall j :: 0 <= j < i ==> !OutwardMatch(opts[j], outward)) {
      FirstValueAt(opts, ByOutward(outward), i);
    }
    if (outward == "" || forall j :: 0 <= j < |opts| ==> !OutwardMatch(opts[j], outward))
      && q != "" && QueryMatch(opts[i], q) && (forall j :: 0 <= j < i ==> !QueryMatch(opts[j], q))
    {
      StreetChoiceByQuery(opts, outward, q, i);
    }
    if (outward == "" || forall j :: 0 <= j < |opts| ==> !OutwardMatch(opts[j], outward))
      && (q == "" || forall j :: 0 <= j < |opts| ==> !QueryMatch(opts[j], q))
      && AnyValue(opts[i]) && (forall j :: 0 <= j < i ==> !AnyValue(opts[j]))
    {
      StreetChoiceByAnyValue(opts, outward, q, i);
    }
  }

  lemma StreetChoiceByQuery(opts: seq<OptionElem>, outward: string, q: string, i: nat)
    requires i < |opts| && (outward == "" || forall j :: 0 <= j < |opts| ==> !OutwardMatch(opts[j], outward))
    requires q != "" && QueryMatch(opts[i], q) && (forall j :: 0 <= j < i ==> !QueryMatch(opts[j], q))
    ensures StreetChoice(opts, outward, q) == Some(OptValue(opts[i]))
  {
    OutwardTierNone(opts, outward);
    FirstValueAt(opts, ByQuery(q), i);
  }

  lemma StreetChoiceByAnyValue(opts: seq<OptionElem>, outward: string, q: string, i: nat)
    requires i < |opts| && (outward == "" || forall j :: 0 <= j < |opts| ==> !OutwardMatch(opts[j], outward))
    requires q == "" || forall j :: 0 <= j < |opts| ==> !QueryMatch(opts[j], q)
    requires AnyValue(opts[i]) && (forall j :: 0 <= j < i ==> !AnyValue(opts[j]))
    ensures StreetChoice(opts, outward, q) == Some(OptValue(opts[i]))
  {
    OutwardTierNone(opts, outward);
    QueryTierNone(opts, q);
    FirstValueAt(opts, ByAnyValue, i);
  }

  /** Strategy 1 finds nothing without an outward code or an option matching it. */
  lemma OutwardTierNone(opts: seq<OptionElem>, outward: string)
    requires outward == "" || forall j :: 0 <= j < |opts| ==> !OutwardMatch(opts[j], outward)
    ensures OutwardTier(opts, outward) == None
  {
    if outward != "" {
      assert forall j :: 0 <= j < |opts| ==> !Passes(opts[j], ByOutward(outward));
    }
  }

  /** Strategy 2 finds nothing without a query or an option matching it. */
  lemma QueryTierNone(opts: seq<OptionElem>, q: string)
    requires q == "" || forall j :: 0 <= j < |opts| ==> !QueryMatch(opts[j], q)
    ensures QueryTier(opts, q) == None
  {
    if q != "" {
      assert forall j :: 0 <= j < |opts| ==> !Passes(opts[j], ByQuery(q));
    }
  }

  /** `'street' in id.lower() or 'street' in name.lower()` with more than one option
      (app.py:294-299). */
  predicate IsStreetLike(s: SelectBox) {
    (Contains(Lower(s.id), "street") || Contains(Lower(s.name), "street")) && |s.options| > 1
  }

  /** The street list of app.py:291-299: the first select with id "streets_listbox",
      else the first street-like select with more than one option. */
  function LocateStreets(selects: seq<SelectBox>): (r: Option<SelectBox>)
    ensures SelectWithId(selects, "streets_listbox").Some? ==> r == SelectWithId(selects, "streets_listbox")
    ensures SelectWithId(selects, "streets_listbox").None? ==>
      (r.None? <==> forall i :: 0 <= i < |selects| ==> !IsStreetLike(selects[i]))
    ensures SelectWithId(selects, "streets_listbox").None? && r.Some? ==>
      exists i :: 0 <= i < |selects| && r.value == selects[i] && IsStreetLike(selects[i])
        && forall j :: 0 <= j < i ==> !IsStreetLike(selects[j])
  {
    var explicit := SelectWithId(selects, "streets_listbox");
    if explicit.Some? then explicit
    else
      match Sequences.FirstIndex(selects, IsStreetLike)
      case Some(i) => Some(selects[i])
      case None => None
  }

  /** The index of the first option whose lower-cased text contains `q`. */
  function TextMatch(opts: seq<OptionElem>, q: string): (r: Option<nat>)
    ensures r.Some? ==> r.value < |opts| && TextMatches(opts[r.value].text, q)
    ensures r.Some? ==> forall j :: 0 <= j < r.value ==> !TextMatches(opts[j].text, q)
    ensures r.None? <==> forall j :: 0 <= j < |opts| ==> !TextMatches(opts[j].text, q)
  {
    Sequences.FirstIndex(opts, (o: OptionElem) => TextMatches(o.text, q))
  }

  /** The address choice of the street flow (app.py:389-399): the `value` of the first
      option whose text contains the lower-cased hint (even when that value is empty or
      absent); when that gives nothing, the first option's `value`; `None` when the value
      found is absent or empty. */
  function StreetAddressChoice(opts: seq<OptionElem>, hint: string): Option<string> {
    var matched :=
      if hint == "" then None
      else match TextMatch(opts, Lower(hint))
        case Some(i) => opts[i].value
        case None => None;
    var chosen := if matched.GetOr("") != "" then matched else if opts != [] then opts[0].value else None;
    if chosen.GetOr("") != "" then chosen else None
  }

  /** The loop of app.py:389-399. */
  method ChooseStreetAddress(opts: seq<OptionElem>, hint: string) returns (r: Option<string>)
    ensures r == StreetAddressChoice(opts, hint)
  {
    var chosen: Option<string> := None;
    var q := Lower(hint);
    if hint != "" {
      var i := 0;
      while i < |opts|
        invariant 0 <= i <= |opts|
        invariant forall j :: 0 <= j < i ==> !TextMatches(opts[j].text, q)
        invariant chosen.None?
      {
        if TextMatches(opts[i].text, q) {
          chosen := opts[i].value;
          break;
        }
        i := i + 1;
      }
    }
    if chosen.GetOr("") == "" && opts != [] {
      chosen := opts[0].value;
    }
    if chosen.GetOr("") == "" {
      return None;
    }
    return chosen;
  }

  /** The street flow's address choice posts a non-empty value of some option, and
      without a hint match it is the first option's or nothing: it does not look past
      the first option. */
  lemma StreetAddressChoiceSpec(opts: seq<OptionElem>, hint: string)
    ensures StreetAddressChoice(opts, hint).Some? ==>
      StreetAddressChoice(opts, hint).value != ""
      && exists i :: 0 <= i < |opts| && opts[i].value == StreetAddressChoice(opts, hint)
    ensures opts == [] ==> StreetAddressChoice(opts, hint).None?
    ensures hint != "" ==> forall i ::
      (0 <= i < |opts| && TextMatches(opts[i].text, Lower(hint)) && HasValue(opts[i])
       && forall j :: 0 <= j < i ==> !TextMatches(opts[j].text, Lower(hint))) ==>
      StreetAddressChoice(opts, hint) == opts[i].value
    ensures opts != [] && (hint == "" || forall i :: 0 <= i < |opts| ==> !TextMatches(opts[i].text, Lower(hint))) ==>
      StreetAddressChoice(opts, hint) == if HasValue(opts[0]) then opts[0].value else None
    ensures hint != "" ==> forall i ::
      (0 <= i < |opts| && TextMatches(opts[i].text, Lower(hint)) && !HasValue(opts[i])
       && forall j :: 0 <= j < i ==> !TextMatches(opts[j].text, Lower(hint))) ==>
      StreetAddressChoice(opts, hint) == if HasValue(opts[0]) then opts[0].value else None
  {
    var m := TextMatch(opts, Lower(hint));
    if hint != "" {
      forall i | 0 <= i < |opts| && TextMatches(opts[i].text, Lower(hint)) && HasValue(opts[i])
          && (forall j :: 0 <= j < i ==> !TextMatches(opts[j].text, Lower(hint)))
        ensures StreetAddressChoice(opts, hint) == opts[i].value
      {
        assert m == Some(i);
      }
      forall i | 0 <= i < |opts| && TextMatches(opts[i].text, Lower(hint)) && !HasValue(opts[i])
          && (forall j :: 0 <= j < i ==> !TextMatches(opts[j].text, Lower(hint)))
        ensures StreetAddressChoice(opts, hint) == if HasValue(opts[0]) then opts[0].value else None
      {
        assert m == Some(i);
      }
    }
    var r := StreetAddressChoice(opts, hint);
    if r.Some? {
      if hint != "" && m.Some? && opts[m.value].value.GetOr("") != "" {
        assert opts[m.value].value == r;
      } else {
        assert opts[0].value == r;
      }
    }
  }

  /** A placeholder first option with an empty value makes the street flow fail even
      though a later option has a value, unlike the address step's choice. */
  lemma PlaceholderBlocksStreetAddress()
    ensures var opts := [OptionElem("Select an address", Some(""), false), OptionElem("1 High Street", Some("A1"), false)];
      StreetAddressChoice(opts, "").None? && AddressChoice(AddressOptions(opts), "") == Some("A1")
  {
    var opts := [OptionElem("Select an address", Some(""), false), OptionElem("1 High Street", Some("A1"), false)];
    assert ValuedPairs(opts[1..][1..]) == [];
    assert ValuedPairs(opts) == [("1 High Street", "A1")];
    assert AddressOptions(opts) == [("1 High Street", "A1")];
  }

  /** The street flow's default button name (app.py:364). */
  const SelectStreetButton := "ctl00$MainContent$btn_selectStreet"

  /** A submit input that app.py:369-372 takes for the "select street" button. */
  predicate IsSelectStreetButton(c: Control) {
    c.Input? && Lower(c.kind) == "submit"
    && (c.name == SelectStreetButton || Contains(Lower(c.name), "selectstreet")
        || Contains(Lower(c.value.GetOr("")), "select street"))
  }

  /** The button name app.py:373 settles on: the input's name, or the default when the
      input has none. */
  function ButtonName(c: Control): string
    requires c.Input?
  {
    if c.name != "" then c.name else SelectStreetButton
  }

  /** Button detection (app.py:364-375): the name of the first "select street" submit
      input of the page's first form, `None` when there is none. */
  function SelectStreetButtonIn(forms: seq<Form>): (r: Option<string>)
    ensures r.Some? ==> r.value != ""
    ensures r.None? <==> forms == [] || forall i :: 0 <= i < |forms[0].controls| ==> !IsSelectStreetButton(forms[0].controls[i])
    ensures r.Some? ==>
      exists i :: 0 <= i < |forms[0].controls| && IsSelectStreetButton(forms[0].controls[i])
        && r.value == ButtonName(forms[0].controls[i])
        && forall j :: 0 <= j < i ==> !IsSelectStreetButton(forms[0].controls[j])
  {
    if forms == [] then None
    else
      var cs := forms[0].controls;
      match Sequences.FirstIndex(cs, IsSelectStreetButton)
      case Some(i) => Some(ButtonName(cs[i]))
      case None => None
  }

  /** The loop of app.py:367-375, stopping at the first matching button. */
  method FindSelectStreetButton(forms: seq<Form>) returns (present: bool, name: string)
    ensures present <==> SelectStreetButtonIn(forms).Some?
    ensures name == SelectStreetButtonIn(forms).GetOr(SelectStreetButton)
  {
    name := SelectStreetButton;
    present := false;
    if forms != [] {
      var cs := forms[0].controls;
      var i := 0;
      while i < |cs|
        invariant 0 <= i <= |cs|
        invariant forall j :: 0 <= j < i ==> !IsSelectStreetButton(cs[j])
        invariant !present && name == SelectStreetButton
      {
        var c := cs[i];
        if c.Input? && Lower(c.kind) == "submit" {
          var nm := c.name;
          var lbl := c.value.GetOr("");
          if nm == SelectStreetButton || Contains(Lower(nm), "selectstreet") || Contains(Lower(lbl), "select street") {
            name := if nm != "" then nm else name;
            present := true;
            break;
          }
        }
        i := i + 1;
      }
    }
  }
}
