/**
 * `main` (app.py:459-511) without argument parsing and printing: the steps of the lookup
 * as a state machine driven by the responses the site gives, the fallback from the
 * address step to the street search, and the order of the collections reported.
 */
module Lookup {
  import opened Wrappers
  import opened Dicts
  import opened Page
  import opened StreetHint
  import opened BinDetails
  import opened Steps

  // ---- The order of the report (app.py:505-507) ----

  type Entry = (string, Date)

  /** `pref.get(name, 99)` (app.py:506). */
  function Pref(name: string): int {
    if name == "General" then 0 else if name == "Recycling" then 1 else if name == "Compost" then 2 else 99
  }

  /** The sort key `(date, pref)` of `a` is at most that of `b`, as Python compares tuples. */
  predicate InOrder(a: Entry, b: Entry) {
    DateLe(a.1, b.1) && (a.1 == b.1 ==> Pref(a.0) <= Pref(b.0))
  }

  /** Soonest first and, on the same day, General before Recycling before Compost before
      any other bin. */
  predicate Sorted(s: seq<Entry>) {
    forall i, j :: 0 <= i < j < |s| ==> InOrder(s[i], s[j])
  }

  /** `x` placed before the first entry whose key is not smaller than its own. */
  function Insert(x: Entry, s: seq<Entry>): (r: seq<Entry>)
    ensures multiset(r) == multiset(s) + multiset{x}
  {
    if s == [] || InOrder(x, s[0]) then [x] + s
    else
      assert s == [s[0]] + s[1..];
      [s[0]] + Insert(x, s[1..])
  }

  /** Inserting into a sorted sequence keeps it sorted. */
  lemma {:induction false} InsertSorted(x: Entry, s: seq<Entry>)
    requires Sorted(s)
    ensures Sorted(Insert(x, s))
  {
    var r := Insert(x, s);
    if s == [] || InOrder(x, s[0]) {
      forall j | 0 < j < |r| ensures InOrder(x, r[j]) {
        assert r[j] == s[j - 1];
      }
    } else {
      var rest := Insert(x, s[1..]);
      InsertSorted(x, s[1..]);
      assert r == [s[0]] + rest;
      forall j | 0 < j < |r| ensures InOrder(s[0], r[j]) {
        var e := r[j];
        assert e in multiset(rest);
        if e != x {
          assert e in multiset(s[1..]);
          var k :| 0 <= k < |s[1..]| && s[1..][k] == e;
          assert s[k + 1] == e;
        }
      }
    }
  }

  /** `sorted(items, key=...)` (app.py:507), an insertion sort that keeps entries with
      equal keys in their original order, as Python's sort does. */
  function SortEntries(es: seq<Entry>): (r: seq<Entry>)
    ensures Sorted(r)
    ensures multiset(r) == multiset(es)
  {
    if es == [] then []
    else
      assert es == [es[0]] + es[1..];
      InsertSorted(es[0], SortEntries(es[1..]));
      Insert(es[0], SortEntries(es[1..]))
  }

  /** Entries with the same sort key. */
  predicate SameKey(a: Entry, b: Entry) {
    a.1 == b.1 && Pref(a.0) == Pref(b.0)
  }

  /** The entries of `s` whose key is that of `y`, in their order in `s`. */
  function WithKeyOf(s: seq<Entry>, y: Entry): seq<Entry> {
    if s == [] then [] else (if SameKey(s[0], y) then [s[0]] else []) + WithKeyOf(s[1..], y)
  }

  lemma {:induction false} InsertStable(x: Entry, s: seq<Entry>, y: Entry)
    ensures WithKeyOf(Insert(x, s), y) == (if SameKey(x, y) then [x] else []) + WithKeyOf(s, y)
  {
    if s == [] || InOrder(x, s[0]) {
      assert ([x] + s)[1..] == s;
    } else {
      InsertStable(x, s[1..], y);
      var r := [s[0]] + Insert(x, s[1..]);
      assert r[1..] == Insert(x, s[1..]);
    }
  }

  /** The sort is stable: entries with equal keys keep their relative order. */
  lemma {:induction false} SortStable(es: seq<Entry>, y: Entry)
    ensures WithKeyOf(SortEntries(es), y) == WithKeyOf(es, y)
  {
    if es != [] {
      SortStable(es[1..], y);
      InsertStable(es[0], SortEntries(es[1..]), y);
    }
  }

  // ---- The steps (app.py:479-503) ----

  /** A request of the lookup: the GET of the start page, or a form submission. */
  datatype Request = FetchStart | Submit(post: Post)

  /** What the site answers: whether `raise_for_status` would pass, and the page. */
  datatype Response = Response(ok: bool, page: Document)

  /** How the lookup ends: the address and its collections in report order; a results
      panel without collections (its text is printed); no results panel; or an exception
      escaping `main`. */
  datatype Outcome =
    | Schedule(address: string, collections: seq<Entry>)
    | NoCollections
    | PanelMissing
    | Raised(failure: Failure)

  /** Where the lookup stands: the request it makes next, or how it ended. */
  datatype Stage =
    | OpenStart                                   // step 1: GET the start page
    | SubmitPostcode(post: Post)                  // step 1: POST the postcode
    | SubmitAddress(post: Post)                   // step 2: POST the chosen address
    | OpenStreetSearch(query: string)             // street flow: GET the start page
    | SubmitSearch(query: string, post: Post)     // street flow: POST the street search
    | SubmitStreet(post: Post)                    // street flow: POST the chosen street
    | SubmitStreetAddress(post: Post)             // street flow: POST the chosen address
    | Done(outcome: Outcome)

  function RequestOf(stage: Stage): Request
    requires !stage.Done?
  {
    match stage
    case OpenStart => FetchStart
    case OpenStreetSearch(_) => FetchStart
    case SubmitSearch(_, post) => Submit(post)
    case SubmitPostcode(post) => Submit(post)
    case SubmitAddress(post) => Submit(post)
    case SubmitStreet(post) => Submit(post)
    case SubmitStreetAddress(post) => Submit(post)
  }

  /** At most this many requests remain. */
  function Rank(stage: Stage): nat {
    match stage
    case OpenStart => 6
    case SubmitPostcode(_) => 5
    case OpenStreetSearch(_) => 4
    case SubmitSearch(_, _) => 3
    case SubmitStreet(_) => 2
    case SubmitAddress(_) => 1
    case SubmitStreetAddress(_) => 1
    case Done(_) => 0
  }

  /** The query of the street search: the street derived from the address hint, else
      the hint itself (app.py:488). */
  function FallbackQuery(hint: string): string {
    match StreetFromHint(hint)
    case Some(street) => street
    case None => hint
  }

  /** The street search runs exactly when the hint is not empty. */
  lemma FallbackQuerySpec(hint: string)
    ensures FallbackQuery(hint) == "" <==> hint == ""
    ensures StreetFromHint(hint).Some? ==> FallbackQuery(hint) == StreetFromHint(hint).value
    ensures StreetFromHint(hint).None? ==> FallbackQuery(hint) == hint
  {
    if StreetFromHint(hint).Some? {
      StreetFromHintShape(hint);
    }
  }

  /** The `except RuntimeError` of app.py:486-492: a RuntimeError of step 2 turns into the
      street search when there is a query; any other failure escapes. */
  function Recover(f: Failure, hint: string): Stage {
    if IsRuntimeError(f) && FallbackQuery(hint) != "" then OpenStreetSearch(FallbackQuery(hint))
    else Done(Raised(f))
  }

  /** The street search starts exactly on a RuntimeError with a non-empty address hint,
      and searches for a non-empty query; any other failure escapes unchanged. */
  lemma RecoverSpec(f: Failure, hint: string)
    ensures Recover(f, hint).OpenStreetSearch? <==> IsRuntimeError(f) && hint != ""
    ensures Recover(f, hint).OpenStreetSearch? ==>
      Recover(f, hint).query == FallbackQuery(hint) && Recover(f, hint).query != ""
    ensures !Recover(f, hint).OpenStreetSearch? ==> Recover(f, hint) == Done(Raised(f))
  {
    FallbackQuerySpec(hint);
  }

  /** The report of app.py:495-510 on the page finally reached. */
  function Report(page: Document): Outcome {
    match page.panel
    case None => PanelMissing
    case Some(strings) =>
      var lines := Lines(strings);
      var entries := Scan(Filtered(lines), 0, []);
      if entries == [] then NoCollections else Schedule(Address(lines), SortEntries(entries))
  }

  /** No panel is reported as such; a schedule holds every entry found on the panel, each
      bin once, soonest first and General before Recycling before Compost on the same day. */
  lemma ReportSpec(page: Document)
    ensures Report(page) == PanelMissing <==> page.panel.None?
    ensures page.panel.Some? ==>
      var entries := Scan(Filtered(Lines(page.panel.value)), 0, []);
      (Report(page) == NoCollections <==> entries == []) &&
      (Report(page).Schedule? ==>
        Report(page).address == Address(Lines(page.panel.value)) &&
        Report(page).collections != [] &&
        Sorted(Report(page).collections) &&
        multiset(Report(page).collections) == multiset(entries) &&
        Distinct(Keys(entries)))
  {
    if page.panel.Some? {
      ScanKeysDistinct(Filtered(Lines(page.panel.value)));
      var entries := Scan(Filtered(Lines(page.panel.value)), 0, []);
      if entries != [] {
        var sorted := SortEntries(entries);
        assert |sorted| == |multiset(sorted)| == |multiset(entries)| == |entries|;
      }
    }
  }

  /** Step 1 on the start page (app.py:163-183). */
  function AfterStart(response: Response, postcode: string): (next: Stage)
    ensures next.Done? || next.SubmitPostcode?
  {
    if !response.ok then Done(Raised(HttpError))
    else
      match PostcodeRequest(response.page, postcode)
      case Failure(f) => Done(Raised(f))
      case Success(post) => SubmitPostcode(post)
  }

  /** Step 2 on the page the postcode search returns (app.py:184-185, 210-249, 484-492). */
  function AfterPostcode(response: Response, hint: string): (next: Stage)
    ensures next.Done? || next.SubmitAddress? || next.OpenStreetSearch?
  {
    if !response.ok then Done(Raised(HttpError))
    else
      match AddressRequest(response.page, hint)
      case Failure(f) => Recover(f, hint)
      case Success(post) => SubmitAddress(post)
  }

  /** The postcode's results page leads to the street search exactly when it answers with
      success, the address step fails with a RuntimeError and the address hint is not empty. */
  lemma AfterPostcodeFallback(response: Response, hint: string)
    ensures AfterPostcode(response, hint).OpenStreetSearch? <==>
      response.ok && AddressRequest(response.page, hint).Failure? &&
      IsRuntimeError(AddressRequest(response.page, hint).error) && hint != ""
  {
    if response.ok && AddressRequest(response.page, hint).Failure? {
      RecoverSpec(AddressRequest(response.page, hint).error, hint);
    }
  }

  /** The street search on the start page (app.py:278-284). */
  function AfterStreetStart(response: Response, query: string): (next: Stage)
    ensures next.Done? || next.SubmitSearch?
  {
    if !response.ok then Done(Raised(HttpError))
    else
      match SearchRequest(response.page, query)
      case Failure(f) => Done(Raised(f))
      case Success(post) => SubmitSearch(query, post)
  }

  /** The street selection on the search results, whose status is not checked
      (app.py:286-380). */
  function AfterSearch(response: Response, postcode: string, hint: string, query: string): (next: Stage)
    ensures next.Done? || next.SubmitStreet?
  {
    match SelectStreetRequest(response.page, postcode, hint, query)
    case Failure(f) => Done(Raised(f))
    case Success(post) => SubmitStreet(post)
  }

  /** The address selection on the street's page, whose status is not checked either
      (app.py:381-403). */
  function AfterStreet(response: Response, hint: string): (next: Stage)
    ensures next.Done? || next.SubmitStreetAddress?
  {
    match StreetAddressRequest(response.page, hint)
    case Failure(f) => Done(Raised(f))
    case Success(post) => SubmitStreetAddress(post)
  }

  /** The last response, checked, and the report on its page (app.py:254-256, 404-406,
      494-510). */
  function AfterLast(response: Response): (next: Stage)
    ensures next.Done?
  {
    if !response.ok then Done(Raised(HttpError)) else Done(Report(response.page))
  }

  /** The next stage once `response` answers the request of `stage` (app.py:479-494). */
  function Advance(stage: Stage, response: Response, postcode: string, hint: string): Stage
    requires !stage.Done?
  {
    match stage
    case OpenStart => AfterStart(response, postcode)
    case SubmitPostcode(_) => AfterPostcode(response, hint)
    case SubmitAddress(_) => AfterLast(response)
    case OpenStreetSearch(query) => AfterStreetStart(response, query)
    case SubmitSearch(query, _) => AfterSearch(response, postcode, hint, query)
    case SubmitStreet(_) => AfterStreet(response, hint)
    case SubmitStreetAddress(_) => AfterLast(response)
  }

  /** Every step brings the lookup closer to its end: at most six requests are made. */
  lemma AdvanceRank(stage: Stage, response: Response, postcode: string, hint: string)
    requires !stage.Done?
    ensures Rank(Advance(stage, response, postcode, hint)) < Rank(stage)
  {
    match stage
    case OpenStart => AfterStartRank(response, postcode);
    case SubmitPostcode(_) => AfterPostcodeRank(response, hint);
    case SubmitAddress(_) => AfterLastRank(response);
    case OpenStreetSearch(query) => AfterStreetStartRank(response, query);
    case SubmitSearch(query, _) => AfterSearchRank(response, postcode, hint, query);
    case SubmitStreet(_) => AfterStreetRank(response, hint);
    case SubmitStreetAddress(_) => AfterLastRank(response);
  }

  lemma AfterStartRank(response: Response, postcode: string)
    ensures Rank(AfterStart(response, postcode)) < 6
  {
  }

  lemma AfterPostcodeRank(response: Response, hint: string)
    ensures Rank(AfterPostcode(response, hint)) < 5
  {
  }

  lemma AfterStreetStartRank(response: Response, query: string)
    ensures Rank(AfterStreetStart(response, query)) < 4
  {
  }

  lemma AfterSearchRank(response: Response, postcode: string, hint: string, query: string)
    ensures Rank(AfterSearch(response, postcode, hint, query)) < 3
  {
    match SelectStreetRequest(response.page, postcode, hint, query)
    case Failure(f) => assert AfterSearch(response, postcode, hint, query) == Done(Raised(f));
    case Success(post) => assert AfterSearch(response, postcode, hint, query) == SubmitStreet(post);
  }

  lemma AfterStreetRank(response: Response, hint: string)
    ensures Rank(AfterStreet(response, hint)) < 2
  {
    match StreetAddressRequest(response.page, hint)
    case Failure(f) => assert AfterStreet(response, hint) == Done(Raised(f));
    case Success(post) => assert AfterStreet(response, hint) == SubmitStreetAddress(post);
  }

  lemma AfterLastRank(response: Response)
    ensures Rank(AfterLast(response)) < 1
  {
  }

  /** The lookup from `stage` on, its `n`-th request answered by `site(n, request)`. */
  function Run(stage: Stage, n: nat, site: (nat, Request) -> Response, postcode: string, hint: string): Outcome
    decreases Rank(stage)
  {
    if stage.Done? then stage.outcome
    else
      var response := site(n, RequestOf(stage));
      AdvanceRank(stage, response, postcode, hint);
      Run(Advance(stage, response, postcode, hint), n + 1, site, postcode, hint)
  }

  /** `main` for the postcode and address hint given on the command line. Whatever the
      site answers, a schedule it reports is non-empty, sorted and names each bin once. */
  function LookupOutcome(postcode: string, hint: string, site: (nat, Request) -> Response): (o: Outcome)
    ensures WellReported(o)
  {
    RunWellReported(OpenStart, 0, site, postcode, hint);
    Run(OpenStart, 0, site, postcode, hint)
  }

  /** A start page that does not answer with success ends the lookup with the HTTP error,
      whatever the postcode and the hint. */
  lemma StartPageDown(postcode: string, hint: string, site: (nat, Request) -> Response)
    requires !site(0, FetchStart).ok
    ensures LookupOutcome(postcode, hint, site) == Raised(HttpError)
  {
    assert Advance(OpenStart, site(0, FetchStart), postcode, hint) == Done(Raised(HttpError));
  }

  /** When step 2 fails with a RuntimeError and the hint is empty, that failure escapes
      after exactly two requests and the street search never runs. */
  lemma NoHintNoFallback(postcode: string, site: (nat, Request) -> Response)
    requires site(0, FetchStart).ok
    requires PostcodeRequest(site(0, FetchStart).page, postcode).Success?
    requires var post := PostcodeRequest(site(0, FetchStart).page, postcode).value;
      site(1, Submit(post)).ok && AddressRequest(site(1, Submit(post)).page, "").Failure?
    ensures var post := PostcodeRequest(site(0, FetchStart).page, postcode).value;
      LookupOutcome(postcode, "", site) == Raised(AddressRequest(site(1, Submit(post)).page, "").error)
  {
    var post := PostcodeRequest(site(0, FetchStart).page, postcode).value;
    var f := AddressRequest(site(1, Submit(post)).page, "").error;
    RecoverSpec(f, "");
    assert Advance(OpenStart, site(0, FetchStart), postcode, "") == SubmitPostcode(post);
    assert Advance(SubmitPostcode(post), site(1, Submit(post)), postcode, "") == Done(Raised(f));
    assert Run(SubmitPostcode(post), 1, site, postcode, "") == Raised(f);
  }

  /** A reported schedule is non-empty, sorted into report order and names each bin once. */
  predicate WellReported(o: Outcome) {
    o.Schedule? ==> o.collections != [] && Sorted(o.collections) && Distinct(Keys(o.collections))
  }

  /** Every outcome a step can end the lookup with is well reported. */
  lemma AdvanceWellReported(stage: Stage, response: Response, postcode: string, hint: string)
    requires !stage.Done?
    ensures Advance(stage, response, postcode, hint).Done? ==> WellReported(Advance(stage, response, postcode, hint).outcome)
  {
    if (stage.SubmitAddress? || stage.SubmitStreetAddress?) && response.ok {
      assert Advance(stage, response, postcode, hint) == Done(Report(response.page));
      ReportWellReported(response.page);
    }
  }

  lemma ReportWellReported(page: Document)
    ensures WellReported(Report(page))
  {
    ReportSpec(page);
    if Report(page).Schedule? {
      var entries := Scan(Filtered(Lines(page.panel.value)), 0, []);
      SortKeepsKeysDistinct(entries);
    }
  }

  /** Inserting an entry adds its key and nothing else, and a new key keeps the keys
      distinct. */
  lemma {:induction false} InsertKeys(x: Entry, s: seq<Entry>)
    ensures forall k :: k in Keys(Insert(x, s)) <==> k == x.0 || k in Keys(s)
    ensures Distinct(Keys(s)) && x.0 !in Keys(s) ==> Distinct(Keys(Insert(x, s)))
  {
    KeysOfCons(x, s);
    DistinctCons(x.0, Keys(s));
    if s != [] && !InOrder(x, s[0]) {
      var rest := Insert(x, s[1..]);
      InsertKeys(x, s[1..]);
      assert s == [s[0]] + s[1..];
      KeysOfCons(s[0], s[1..]);
      KeysOfCons(s[0], rest);
      DistinctCons(s[0].0, Keys(s[1..]));
      DistinctCons(s[0].0, Keys(rest));
    }
  }

  lemma DistinctCons<T>(k: T, t: seq<T>)
    ensures Distinct([k] + t) <==> k !in t && Distinct(t)
  {
    var u := [k] + t;
    assert forall i :: 0 <= i < |t| ==> u[i + 1] == t[i];
    if k in t {
      var i :| 0 <= i < |t| && t[i] == k;
      assert u[0] == u[i + 1];
    }
    if !Distinct(t) {
      var i, j :| 0 <= i < j < |t| && t[i] == t[j];
      assert u[i + 1] == u[j + 1];
    }
  }

  /** Sorting a dictionary's entries keeps their keys, each once. */
  lemma {:induction false} SortKeepsKeysDistinct(es: seq<Entry>)
    ensures forall k :: k in Keys(SortEntries(es)) <==> k in Keys(es)
    ensures Distinct(Keys(es)) ==> Distinct(Keys(SortEntries(es)))
  {
    if es != [] {
      var rest := SortEntries(es[1..]);
      SortKeepsKeysDistinct(es[1..]);
      InsertKeys(es[0], rest);
      assert SortEntries(es) == Insert(es[0], rest);
      assert es == [es[0]] + es[1..];
      KeysOfCons(es[0], es[1..]);
      DistinctCons(es[0].0, Keys(es[1..]));
    }
  }

  /** `main` never reports an empty, unsorted or repetitive schedule, whatever the site
      answers. */
  lemma {:induction false} RunWellReported(stage: Stage, n: nat, site: (nat, Request) -> Response, postcode: string, hint: string)
    requires stage.Done? ==> WellReported(stage.outcome)
    ensures WellReported(Run(stage, n, site, postcode, hint))
    decreases Rank(stage)
  {
    if !stage.Done? {
      var response := site(n, RequestOf(stage));
      AdvanceRank(stage, response, postcode, hint);
      AdvanceWellReported(stage, response, postcode, hint);
      RunWellReported(Advance(stage, response, postcode, hint), n + 1, site, postcode, hint);
    }
  }
}
