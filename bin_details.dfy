/**
 * The results panel: `normalize_bin_name` (app.py:409-421) and `parse_bin_details`
 * (app.py:424-456), which reads the address and one next-collection date per bin from the
 * text strings of the panel.
 */
module BinDetails {
  import opened Wrappers
  import opened Text
  import opened Dicts
  import opened Windows
  import Sequences

  /** A calendar date as `datetime.strptime` returns it (the time of day is always 0). */
  datatype Date = Date(year: int, month: int, day: int)

  /** Chronological order of dates. */
  predicate DateLe(a: Date, b: Date) {
    a.year < b.year || (a.year == b.year && (a.month < b.month || (a.month == b.month && a.day <= b.day)))
  }

  predicate IsLeap(y: int) {
    y % 4 == 0 && (y % 100 != 0 || y % 400 == 0)
  }

  function DaysIn(y: int, m: int): int {
    if m == 2 then (if IsLeap(y) then 29 else 28)
    else if m == 4 || m == 6 || m == 9 || m == 11 then 30
    else 31
  }

  predicate IsValidDate(d: Date) {
    1 <= d.year && 1 <= d.month <= 12 && 1 <= d.day <= DaysIn(d.year, d.month)
  }

  function DigitValue(c: char): int
    requires IsDigit(c)
  {
    c as int - '0' as int
  }

  /** `%a` in the C locale: a weekday abbreviation, in any case. */
  predicate IsWeekdayToken(t: string) {
    Lower(t) in {"mon", "tue", "wed", "thu", "fri", "sat", "sun"}
  }

  /** `%b` in the C locale: a month abbreviation, in any case, and its number. */
  function MonthOfToken(t: string): (m: Option<int>)
    ensures m.Some? ==> 1 <= m.value <= 12
  {
    var l := Lower(t);
    if |l| != 3 then None else MonthOfLetters(l[0], l[1], l[2])
  }

  /** The month whose lower-case abbreviation is `a`, `b`, `c`. */
  function MonthOfLetters(a: char, b: char, c: char): (m: Option<int>)
    ensures m.Some? ==> 1 <= m.value <= 12
    ensures m.Some? ==> IsLower(a) && IsLower(b) && IsLower(c)
  {
    var abc := (a, b, c);
    if abc == ('j', 'a', 'n') then Some(1) else if abc == ('f', 'e', 'b') then Some(2)
    else if abc == ('m', 'a', 'r') then Some(3) else if abc == ('a', 'p', 'r') then Some(4)
    else if abc == ('m', 'a', 'y') then Some(5) else if abc == ('j', 'u', 'n') then Some(6)
    else if abc == ('j', 'u', 'l') then Some(7) else if abc == ('a', 'u', 'g') then Some(8)
    else if abc == ('s', 'e', 'p') then Some(9) else if abc == ('o', 'c', 't') then Some(10)
    else if abc == ('n', 'o', 'v') then Some(11) else if abc == ('d', 'e', 'c') then Some(12)
    else None
  }

  /** `%d`: one of "1".."9", "01".."09", "10".."29", "30", "31", and its value. */
  function DayOfToken(t: string): (d: Option<int>)
    ensures d.Some? ==> 1 <= d.value <= 31
    ensures d.Some? ==> 1 <= |t| <= 2 && forall i :: 0 <= i < |t| ==> IsDigit(t[i])
  {
    if |t| == 1 && '1' <= t[0] <= '9' then Some(DigitValue(t[0]))
    else if |t| == 2 && IsDigit(t[0]) && IsDigit(t[1])
      && ((t[0] == '3' && t[1] <= '1') || '1' <= t[0] <= '2' || (t[0] == '0' && t[1] != '0'))
    then Some(10 * DigitValue(t[0]) + DigitValue(t[1]))
    else None
  }

  /** `%Y`: exactly four digits, and their value. */
  function YearOfToken(t: string): (y: Option<int>)
    ensures y.Some? ==> 0 <= y.value <= 9999
    ensures y.Some? ==> |t| == 4 && forall i :: 0 <= i < |t| ==> IsDigit(t[i])
  {
    if |t| == 4 && IsDigit(t[0]) && IsDigit(t[1]) && IsDigit(t[2]) && IsDigit(t[3])
    then Some(1000 * DigitValue(t[0]) + 100 * DigitValue(t[1]) + 10 * DigitValue(t[2]) + DigitValue(t[3]))
    else None
  }

  /** `datetime.strptime(" ".join(s.split()), "%a %b %d %Y")` (app.py:447): after
      collapsing, the string is four single-space separated tokens, a weekday (not checked
      against the date), a month, a day and a year, naming a real date; `None` where
      strptime raises. */
  function ParseDate(s: string): (r: Option<Date>)
    ensures r.Some? ==> IsValidDate(r.value)
  {
    var ws := Words(Collapse(s));
    if |ws| != 4 || !IsWeekdayToken(ws[0]) then None
    else
      var m, d, y := MonthOfToken(ws[1]), DayOfToken(ws[2]), YearOfToken(ws[3]);
      if m.None? || d.None? || y.None? then None
      else
        var date := Date(y.value, m.value, d.value);
        if IsValidDate(date) then Some(date) else None
  }

  /** Collapsing the whitespace first makes no difference to what parses: the date
      string's own tokens decide. */
  lemma ParseDateTokens(s: string)
    ensures Words(Collapse(s)) == Words(s)
    ensures ParseDate(Collapse(s)) == ParseDate(s)
  {
    WordsOfJoin(Words(s));
    CollapseIdempotent(s);
    ParseDateSameTokens(Collapse(s), s);
  }

  /** A date string parses to `d` exactly when its tokens are a weekday, then the month,
      day and year of `d`, and `d` is a real date. */
  lemma ParseDateSpec(s: string, d: Date)
    ensures ParseDate(s) == Some(d) <==>
      var ws := Words(s);
      |ws| == 4 && IsWeekdayToken(ws[0]) && MonthOfToken(ws[1]) == Some(d.month)
      && DayOfToken(ws[2]) == Some(d.day) && YearOfToken(ws[3]) == Some(d.year) && IsValidDate(d)
  {
    ParseDateTokens(s);
  }

  /** `%b` as the site prints it. */
  function MonthAbbrev(m: int): string
    requires 1 <= m <= 12
  {
    ["Jan", "Feb", "Mar", "Apr", "May", "Jun", "Jul", "Aug", "Sep", "Oct", "Nov", "Dec"][m - 1]
  }

  /** Every printed month abbreviation parses back to its month. */
  lemma MonthAbbrevParses(m: int)
    requires 1 <= m <= 12
    ensures MonthOfToken(MonthAbbrev(m)) == Some(m)
  {
    var t := MonthAbbrev(m);
    assert |t| == 3;
    var l := Lower(t);
    assert l[0] == LowerChar(t[0]) && l[1] == t[1] && l[2] == t[2];
  }

  function Digit(n: int): (c: char)
    requires 0 <= n <= 9
    ensures IsDigit(c) && DigitValue(c) == n
  {
    ('0' as int + n) as char
  }

  /** `%d`: the day as two digits. */
  function DayDigits(d: int): (t: string)
    requires 1 <= d <= 31
    ensures DayOfToken(t) == Some(d)
  {
    [Digit(d / 10), Digit(d % 10)]
  }

  /** `%Y`: the year as four digits. */
  function YearDigits(y: int): (t: string)
    requires 0 <= y <= 9999
    ensures YearOfToken(t) == Some(y)
  {
    var q1, e := y / 10, y % 10;
    var q2, c := q1 / 10, q1 % 10;
    var a, b := q2 / 10, q2 % 10;
    assert y == 1000 * a + 100 * b + 10 * c + e;
    [Digit(a), Digit(b), Digit(c), Digit(e)]
  }

  /** `d.strftime("%a %b %d %Y")` with weekday token `w`. */
  function FormatDate(w: string, d: Date): string
    requires 1 <= d.month <= 12 && 1 <= d.day <= 31 && 0 <= d.year <= 9999
  {
    Join([w, MonthAbbrev(d.month), DayDigits(d.day), YearDigits(d.year)])
  }

  /** Parsing a printed date gives that date back: the parse is tied to the date the
      string names, not just to some valid date. */
  lemma ParseFormatDate(w: string, d: Date)
    requires IsWeekdayToken(w) && IsValidDate(d) && d.year <= 9999
    ensures ParseDate(FormatDate(w, d)) == Some(d)
  {
    var m, dd, y := MonthAbbrev(d.month), DayDigits(d.day), YearDigits(d.year);
    MonthAbbrevParses(d.month);
    AcceptedTokensAreWords(w, m, dd, y);
    WordsOfJoin([w, m, dd, y]);
    ParseDateSpec(FormatDate(w, d), d);
  }

  /** Tokens the date parser accepts hold no whitespace. */
  lemma AcceptedTokensAreWords(w: string, m: string, d: string, y: string)
    requires IsWeekdayToken(w) && MonthOfToken(m).Some? && DayOfToken(d).Some? && YearOfToken(y).Some?
    ensures AllWords([w, m, d, y])
  {
    WeekdayIsWord(w);
    MonthTokenIsWord(m);
    DigitsAreWord(d);
    DigitsAreWord(y);
    assert AllWords([y]) by { assert [y][1..] == []; }
    assert AllWords([d, y]) by { assert [d, y][1..] == [y]; }
    assert AllWords([m, d, y]) by { assert [m, d, y][1..] == [d, y]; }
    assert [w, m, d, y][1..] == [m, d, y];
  }

  lemma DigitsAreWord(t: string)
    requires t != [] && forall i :: 0 <= i < |t| ==> IsDigit(t[i])
    ensures IsWord(t)
  {
  }

  lemma MonthTokenIsWord(m: string)
    requires MonthOfToken(m).Some?
    ensures IsWord(m)
  {
    forall i | 0 <= i < |m| ensures !IsSpace(m[i]) {
      assert Lower(m)[i] == LowerChar(m[i]);
    }
  }

  lemma WeekdayIsWord(w: string)
    requires IsWeekdayToken(w)
    ensures IsWord(w)
  {
    forall i | 0 <= i < |w| ensures !IsSpace(w[i]) {
      assert Lower(w)[i] == LowerChar(w[i]);
    }
  }

  lemma ParseDateSameTokens(x: string, y: string)
    requires Words(Collapse(x)) == Words(Collapse(y))
    ensures ParseDate(x) == ParseDate(y)
  {
  }

  /** The bin name after its suffixes are removed (app.py:410-413). */
  function Residue(raw: string): string {
    Strip(RemoveAll(RemoveAll(RemoveAll(Strip(raw), " bin"), " Bin"), " waste"))
  }

  /** `normalize_bin_name` (app.py:409-421). */
  function NormalizeBinName(raw: string): string {
    BinCategory(Residue(raw))
  }

  /** The known mappings of app.py:414-421, applied to the residue `r`. */
  function BinCategory(r: string): string {
    var l := Lower(r);
    if "general" <= l then "General"
    else if "recycling" <= l then "Recycling"
    else if "compost" <= l || "brown" <= l then "Compost"
    else Title(r)
  }

  /** A name maps to General, Recycling or Compost exactly when its residue starts with
      the matching keyword in any case (general, then recycling, then compost or brown);
      every other name is its residue title-cased, which differs from it in letter case only. */
  lemma NormalizeBinNameSpec(raw: string)
    ensures NormalizeBinName(raw) == "General" <==> "general" <= Lower(Residue(raw))
    ensures NormalizeBinName(raw) == "Recycling" <==>
      !("general" <= Lower(Residue(raw))) && "recycling" <= Lower(Residue(raw))
    ensures NormalizeBinName(raw) == "Compost" <==>
      !("general" <= Lower(Residue(raw))) && !("recycling" <= Lower(Residue(raw)))
      && ("compost" <= Lower(Residue(raw)) || "brown" <= Lower(Residue(raw)))
    ensures NormalizeBinName(raw) !in {"General", "Recycling", "Compost"} ==>
      NormalizeBinName(raw) == Title(Residue(raw)) && Lower(NormalizeBinName(raw)) == Lower(Residue(raw))
  {
    BinCategorySpec(Residue(raw));
  }

  lemma BinCategorySpec(r: string)
    ensures BinCategory(r) == "General" <==> "general" <= Lower(r)
    ensures BinCategory(r) == "Recycling" <==> !("general" <= Lower(r)) && "recycling" <= Lower(r)
    ensures BinCategory(r) == "Compost" <==>
      !("general" <= Lower(r)) && !("recycling" <= Lower(r)) && ("compost" <= Lower(r) || "brown" <= Lower(r))
    ensures BinCategory(r) !in {"General", "Recycling", "Compost"} ==>
      BinCategory(r) == Title(r) && Lower(BinCategory(r)) == Lower(r)
  {
    var l := Lower(r);
    assert "General" != "Compost" by { assert "General"[0] != "Compost"[0]; }
    if "general" <= l {
    } else if "recycling" <= l {
    } else if "compost" <= l || "brown" <= l {
    } else {
      LowerOfTitle(r);
      CategoryNames();
      assert BinCategory(r) == Title(r) && Lower(Title(r)) == l;
    }
  }

  /** A normalised name is a fixed point of title-casing. */
  lemma NormalizeBinNameTitled(raw: string)
    ensures Title(NormalizeBinName(raw)) == NormalizeBinName(raw)
  {
    BinCategoryTitled(Residue(raw));
  }

  lemma BinCategoryTitled(r: string)
    ensures Title(BinCategory(r)) == BinCategory(r)
  {
    var l := Lower(r);
    CategoryNames();
    if !("general" <= l) && !("recycling" <= l) && !("compost" <= l || "brown" <= l) {
      TitleIdempotent(r);
    }
  }

  /** The three category names, lower-cased and title-cased. */
  lemma CategoryNames()
    ensures Lower("General") == "general" && Lower("Recycling") == "recycling" && Lower("Compost") == "compost"
    ensures Title("General") == "General" && Title("Recycling") == "Recycling" && Title("Compost") == "Compost"
  {
    CategoryName("General", "general");
    CategoryName("Recycling", "recycling");
    CategoryName("Compost", "compost");
  }

  /** A capitalised category name: lower-cased to `l`, and its own title case. */
  lemma CategoryName(w: string, l: string)
    requires w in {"General", "Recycling", "Compost"}
    requires l == (if w == "General" then "general" else if w == "Recycling" then "recycling" else "compost")
    ensures Lower(w) == l && Title(w) == w
  {
    TitleLiteral(w);
    assert |Lower(w)| == |l|;
    forall i | 0 <= i < |l| ensures Lower(w)[i] == l[i] {
      assert i == 0 ==> LowerChar(w[0]) == l[0];
    }
  }

  /** A capitalised word of letters is its own title case. */
  lemma TitleLiteral(w: string)
    requires w != [] && IsUpper(w[0]) && forall i :: 1 <= i < |w| ==> IsLower(w[i])
    ensures Title(w) == w
  {
    TitleFromLower(w[1..]);
    assert w == [w[0]] + w[1..];
  }

  lemma {:induction false} TitleFromLower(w: string)
    requires forall i :: 0 <= i < |w| ==> IsLower(w[i])
    ensures TitleFrom(w, true) == w
  {
    if w != [] {
      TitleFromLower(w[1..]);
      assert w == [w[0]] + w[1..];
    }
  }

  /** `[s.strip() for s in pnl.stripped_strings if s and s.strip()]` (app.py:426). */
  function Lines(strings: seq<string>): (ls: seq<string>)
    ensures |ls| <= |strings|
    ensures forall i :: 0 <= i < |ls| ==> ls[i] != "" && !IsSpace(ls[i][0]) && !IsSpace(ls[i][|ls[i]| - 1])
  {
    if strings == [] then []
    else
      var rest := Lines(strings[1..]);
      var s := strings[0];
      if s != "" && Strip(s) != "" then [Strip(s)] + rest else rest
  }

  /** The lines keep the order and multiplicity of the strings: each string contributes
      its stripped self when that is not empty, and nothing otherwise. */
  lemma {:induction false} LinesConcat(a: seq<string>, b: seq<string>)
    ensures Lines(a + b) == Lines(a) + Lines(b)
  {
    if a != [] {
      var h := if Strip(a[0]) == "" then [] else [Strip(a[0])];
      var t, lt, lb := a[1..], Lines(a[1..]), Lines(b);
      LinesConcat(t, b);
      LinesHead(a);
      LinesHead(a + b);
      Sequences.ConcatTail(a, b);
      assert Lines(a + b) == h + (lt + lb);
      assert Lines(a) == h + lt;
      Sequences.ConcatAssoc(h, lt, lb);
    } else {
      assert a + b == b;
    }
  }

  /** A single string gives its stripped self, or nothing when that is empty. */
  lemma LinesOne(x: string)
    ensures Lines([x]) == if Strip(x) == "" then [] else [Strip(x)]
  {
    LinesHead([x]);
    assert [x][1..] == [];
  }

  lemma LinesHead(a: seq<string>)
    requires a != []
    ensures Lines(a) == (if Strip(a[0]) == "" then [] else [Strip(a[0])]) + Lines(a[1..])
  {
  }

  /** The address of app.py:427-429: the first line up to its first comma, title-cased;
      "" when there are no lines. */
  function Address(lines: seq<string>): string {
    Title(BeforeComma(if lines != [] then lines[0] else ""))
  }

  /** The address is title-cased, holds no comma and, up to letter case, is the start of
      the first line. */
  lemma AddressSpec(lines: seq<string>)
    ensures lines == [] ==> Address(lines) == ""
    ensures ',' !in Address(lines)
    ensures lines != [] ==>
      |Address(lines)| <= |lines[0]| && Lower(Address(lines)) == Lower(lines[0][..|Address(lines)|])
      && (|Address(lines)| == |lines[0]| || lines[0][|Address(lines)|] == ',')
    ensures Title(Address(lines)) == Address(lines)
  {
    var b := BeforeComma(if lines != [] then lines[0] else "");
    LowerOfTitle(b);
    TitleIdempotent(b);
    TitleKeepsNonLetters(b, false);
    if lines != [] {
      assert lines[0][..|b|] == b;
    }
  }

  /** Title-casing never introduces or removes a comma. */
  lemma {:induction false} TitleKeepsNonLetters(s: string, afterLetter: bool)
    ensures ',' in TitleFrom(s, afterLetter) <==> ',' in s
  {
    if s != [] {
      TitleKeepsNonLetters(s[1..], IsLetter(s[0]));
      assert s == [s[0]] + s[1..];
      var t := TitleFrom(s, afterLetter);
      assert t == [t[0]] + TitleFrom(s[1..], IsLetter(s[0]));
      assert t[0] == ',' <==> s[0] == ',';
    }
  }

  /** The header labels of the results table (app.py:432). */
  predicate IsHeader(x: string) {
    Lower(x) in {"type of bin", "day(s)", "how often?", "next collection"}
  }

  /** `[x for x in lines if x.lower() not in headers]` (app.py:433). */
  function Filtered(lines: seq<string>): (f: seq<string>)
    ensures |f| <= |lines|
    ensures forall i :: 0 <= i < |f| ==> !IsHeader(f[i]) && f[i] in lines
    ensures forall x :: x in lines && !IsHeader(x) ==> x in f
  {
    if lines == [] then []
    else
      var rest := Filtered(lines[1..]);
      assert forall x :: x in lines[1..] ==> x in lines;
      if IsHeader(lines[0]) then rest else [lines[0]] + rest
  }

  /** The filter keeps the order and multiplicity of the lines: each line stays exactly
      when it is not a header label. */
  lemma {:induction false} FilteredConcat(a: seq<string>, b: seq<string>)
    ensures Filtered(a + b) == Filtered(a) + Filtered(b)
  {
    if a != [] {
      FilteredConcat(a[1..], b);
      FilteredHead(a);
      FilteredHead(a + b);
      Sequences.ConcatTail(a, b);
      var h := if IsHeader(a[0]) then [] else [a[0]];
      Sequences.ConcatAssoc(h, Filtered(a[1..]), Filtered(b));
    } else {
      assert a + b == b;
    }
  }

  /** A single line stays exactly when it is not a header label. */
  lemma FilteredOne(x: string)
    ensures Filtered([x]) == if IsHeader(x) then [] else [x]
  {
    FilteredHead([x]);
    assert [x][1..] == [];
  }

  lemma FilteredHead(a: seq<string>)
    requires a != []
    ensures Filtered(a) == (if IsHeader(a[0]) then [] else [a[0]]) + Filtered(a[1..])
  {
  }

  /** The bin-name heuristic of app.py:444. */
  predicate IsBinName(name: string) {
    var l := Lower(name);
    Contains(l, "bin") || Contains(l, "general") || Contains(l, "recycling") || Contains(l, "compost") || Contains(l, "brown")
  }

  /** What the window of four tokens at `i` yields (app.py:443-450): the normalised name
      and the date when its name passes the heuristic and its fourth token parses as a
      date, `None` otherwise. The second and third tokens (day and frequency) are unused. */
  function Window(f: seq<string>, i: nat): (r: Option<(string, Date)>)
    requires i + 3 < |f|
    ensures r.Some? <==> IsBinName(f[i]) && ParseDate(f[i + 3]).Some?
    ensures r.Some? ==> r.value == (NormalizeBinName(f[i]), ParseDate(f[i + 3]).value)
  {
    var date := ParseDate(f[i + 3]);
    if IsBinName(f[i]) && date.Some? then Some((NormalizeBinName(f[i]), date.value)) else None
  }

  /** `Window` for every index of the token list. */
  function WindowStep(f: seq<string>): nat -> Option<(string, Date)> {
    (j: nat) => if j + 3 < |f| then Window(f, j) else None
  }

  /** The loop of app.py:437-454 over the filtered tokens `f`, from index `i` with the
      entries `acc` found so far. */
  function Scan(f: seq<string>, i: nat, acc: Dict<string, Date>): Dict<string, Date> {
    ScanOf(|f|, WindowStep(f), i, acc)
  }

  /** The indices at which the loop takes a window. */
  function Starts(f: seq<string>): (s: seq<nat>)
    ensures forall k :: 0 <= k < |s| ==> s[k] + 3 < |f| && Window(f, s[k]).Some?
  {
    var s := StartsOf(|f|, WindowStep(f), 0);
    assert forall k :: 0 <= k < |s| ==> WindowStep(f)(s[k]).Some?;
    s
  }

  /** No bin name appears twice among the entries. */
  lemma ScanKeysDistinct(f: seq<string>)
    ensures Distinct(Keys(Scan(f, 0, [])))
  {
    ScanOfKeysDistinct(|f|, WindowStep(f));
  }

  /** `parse_bin_details` (app.py:424-456): the address and the bin entries of the panel's
      text strings. */
  method ParseBinDetails(strings: seq<string>) returns (address: string, entries: Dict<string, Date>)
    ensures address == Address(Lines(strings))
    ensures entries == Scan(Filtered(Lines(strings)), 0, [])
  {
    var lines := Lines(strings);
    address := Address(lines);
    var filtered := Filtered(lines);
    entries := [];
    var i := 0;
    while i + 3 < |filtered|
      invariant Scan(filtered, i, entries) == Scan(filtered, 0, [])
      decreases |filtered| - i
    {
      var name := filtered[i];
      var date := ParseDate(filtered[i + 3]);
      assert WindowStep(filtered)(i) == Window(filtered, i);
      if IsBinName(name) && date.Some? {
        entries := Put(entries, NormalizeBinName(name), date.value);
        i := i + 4;
        continue;
      }
      i := i + 1;
    }
  }
}
