/**
 * `derive_street_from_hint` (app.py:259-266): the street part of an address hint, found by
 * dropping leading house numbers and flat markers from its tokens.
 */
module StreetHint {
  import opened Wrappers
  import opened Text

  /** A token the loop of app.py:264 drops: "FLAT", "APPT" or "APT" in any case and with
      any trailing dots, or any token holding a digit ("2A", "12"). */
  predicate IsMarker(t: string) {
    Upper(TrimDots(t)) in {"FLAT", "APPT", "APT"} || HasDigit(t)
  }

  /** The tokens left once the leading markers are dropped. */
  function DropMarkers(ws: seq<string>): (r: seq<string>)
    ensures |r| <= |ws| && r == ws[|ws| - |r|..]
  {
    if ws != [] && IsMarker(ws[0]) then DropMarkers(ws[1..]) else ws
  }

  /** What is dropped are markers. */
  lemma {:induction false} DropMarkersDropsMarkers(ws: seq<string>)
    ensures forall i :: 0 <= i < |ws| - |DropMarkers(ws)| ==> IsMarker(ws[i])
  {
    if ws != [] && IsMarker(ws[0]) {
      DropMarkersDropsMarkers(ws[1..]);
      forall i | 1 <= i < |ws| - |DropMarkers(ws)| ensures IsMarker(ws[i]) {
        assert ws[i] == ws[1..][i - 1];
      }
    }
  }

  /** What is left does not start with a marker. */
  lemma {:induction false} DropMarkersStopsAtWord(ws: seq<string>)
    ensures DropMarkers(ws) == [] || !IsMarker(DropMarkers(ws)[0])
  {
    if ws != [] && IsMarker(ws[0]) {
      DropMarkersStopsAtWord(ws[1..]);
    }
  }

  /** What `derive_street_from_hint` returns: `None` for an empty hint or one made only of
      markers, else the remaining tokens joined by single spaces. */
  function StreetFromHint(hint: string): Option<string> {
    if hint == "" then None
    else
      var rest := DropMarkers(Words(Strip(hint)));
      if rest == [] then None else Some(Join(rest))
  }

  /** The loop of app.py:263-266, popping leading markers one at a time. */
  method DeriveStreetFromHint(hint: string) returns (r: Option<string>)
    ensures r == StreetFromHint(hint)
  {
    if hint == "" {
      return None;
    }
    var parts := Words(Strip(hint));
    while parts != [] && IsMarker(parts[0])
      invariant DropMarkers(parts) == DropMarkers(Words(Strip(hint)))
      decreases |parts|
    {
      parts := parts[1..];
    }
    if parts == [] {
      return None;
    }
    return Some(Join(parts));
  }

  /** The derived street is the suffix of the hint's tokens that starts at the first
      non-marker token, joined by single spaces; it is `None` exactly when the hint is
      empty or every token is a marker. */
  lemma StreetFromHintSpec(hint: string)
    ensures StreetFromHint(hint).None? <==>
      hint == "" || forall i :: 0 <= i < |Words(Strip(hint))| ==> IsMarker(Words(Strip(hint))[i])
    ensures StreetFromHint(hint).Some? ==>
      var ws := Words(Strip(hint));
      exists n :: 0 <= n < |ws| && StreetFromHint(hint).value == Join(ws[n..])
        && !IsMarker(ws[n]) && forall i :: 0 <= i < n ==> IsMarker(ws[i])
  {
    if hint != "" {
      var ws := Words(Strip(hint));
      var rest := DropMarkers(ws);
      DropMarkersDropsMarkers(ws);
      DropMarkersStopsAtWord(ws);
      assert StreetFromHint(hint) == if rest == [] then None else Some(Join(rest));
      if rest != [] {
        var n := |ws| - |rest|;
        assert rest[0] == ws[n];
        assert rest == ws[n..];
        assert !(forall i :: 0 <= i < |ws| ==> IsMarker(ws[i]));
      }
    }
  }

  /** The derived street's first token is not a marker, and it holds no whitespace run
      longer than one space nor any at either end. */
  lemma StreetFromHintShape(hint: string)
    requires StreetFromHint(hint).Some?
    ensures Words(StreetFromHint(hint).value) != []
    ensures !IsMarker(Words(StreetFromHint(hint).value)[0])
    ensures Strip(StreetFromHint(hint).value) == StreetFromHint(hint).value
    ensures Collapse(StreetFromHint(hint).value) == StreetFromHint(hint).value
  {
    StreetFromHintRest(hint);
    var ws := Words(Strip(hint));
    var rest := DropMarkers(ws);
    DropMarkersStopsAtWord(ws);
    DropMarkersKeepsWords(ws);
    WordsOfJoin(rest);
    StripOfJoin(rest);
  }

  /** A derived street joins the tokens left after the markers. */
  lemma StreetFromHintRest(hint: string)
    requires StreetFromHint(hint).Some?
    ensures DropMarkers(Words(Strip(hint))) != []
    ensures StreetFromHint(hint) == Some(Join(DropMarkers(Words(Strip(hint)))))
  {
  }

  lemma {:induction false} DropMarkersKeepsWords(ws: seq<string>)
    requires AllWords(ws)
    ensures AllWords(DropMarkers(ws))
  {
    if ws != [] && IsMarker(ws[0]) {
      DropMarkersKeepsWords(ws[1..]);
    }
  }

  /** Deriving the street of a derived street gives it back unchanged. */
  lemma StreetFromHintIdempotent(hint: string)
    requires StreetFromHint(hint).Some?
    ensures StreetFromHint(StreetFromHint(hint).value) == StreetFromHint(hint)
  {
    StreetFromHintRest(hint);
    var ws := Words(Strip(hint));
    DropMarkersStopsAtWord(ws);
    DropMarkersKeepsWords(ws);
    StreetOfJoin(DropMarkers(ws));
  }

  /** Words that do not start with a marker, joined, are their own street. */
  lemma StreetOfJoin(ws: seq<string>)
    requires ws != [] && AllWords(ws) && !IsMarker(ws[0])
    ensures StreetFromHint(Join(ws)) == Some(Join(ws))
  {
    var s := Join(ws);
    WordsOfJoin(ws);
    StripOfJoin(ws);
    JoinEnds(ws);
    assert s != "";
    assert Words(Strip(s)) == ws;
    assert DropMarkers(ws) == ws;
  }

  /** The tokens of "Flat 3B 12 High Street". */
  lemma FlatTokens(hint: string)
    requires hint == "Flat 3B 12 High Street"
    ensures Words(Strip(hint)) == ["Flat", "3B", "12", "High", "Street"]
  {
    var ws := ["Flat", "3B", "12", "High", "Street"];
    FlatJoin(ws);
    FlatAllWords(ws);
    WordsOfJoin(ws);
    StripOfJoin(ws);
  }

  lemma FlatJoin(ws: seq<string>)
    requires ws == ["Flat", "3B", "12", "High", "Street"]
    ensures Join(ws) == "Flat 3B 12 High Street"
  {
    assert Join(ws[4..]) == "Street";
    assert Join(ws[3..]) == "High Street";
    assert Join(ws[2..]) == "12 High Street";
    assert Join(ws[1..]) == "3B 12 High Street";
  }

  lemma FlatAllWords(ws: seq<string>)
    requires ws == ["Flat", "3B", "12", "High", "Street"]
    ensures AllWords(ws)
  {
    assert IsWord("Street") && IsWord("High") && IsWord("12") && IsWord("3B") && IsWord("Flat");
    assert AllWords(ws[4..]);
    assert AllWords(ws[3..]);
    assert AllWords(ws[2..]);
    assert AllWords(ws[1..]);
  }

  /** "Flat", "3B" and "12" are markers, "High" is not. */
  lemma FlatMarkers()
    ensures IsMarker("Flat") && IsMarker("3B") && IsMarker("12") && !IsMarker("High")
  {
    assert Upper("Flat") == "FLAT" by {
      var u := Upper("Flat");
      assert u[0] == 'F' && u[1] == 'L' && u[2] == 'A' && u[3] == 'T';
    }
    assert IsDigit("3B"[0]);
    assert IsDigit("12"[0]);
    assert Upper("High")[1] == 'I';
  }

  lemma DropThreeMarkers(ws: seq<string>)
    requires |ws| > 3 && IsMarker(ws[0]) && IsMarker(ws[1]) && IsMarker(ws[2]) && !IsMarker(ws[3])
    ensures DropMarkers(ws) == ws[3..]
  {
    var a := ws[1..];
    var b := a[1..];
    var c := b[1..];
    assert a[0] == ws[1] && b[0] == ws[2] && c == ws[3..] && c[0] == ws[3];
    DropMarkersStep(ws);
    DropMarkersStep(a);
    DropMarkersStep(b);
    DropMarkersStop(c);
  }

  lemma DropMarkersStep(ws: seq<string>)
    requires ws != [] && IsMarker(ws[0])
    ensures DropMarkers(ws) == DropMarkers(ws[1..])
  {
  }

  lemma DropMarkersStop(ws: seq<string>)
    requires ws != [] && !IsMarker(ws[0])
    ensures DropMarkers(ws) == ws
  {
  }

  /** Dropping the markers of those tokens leaves "High Street". */
  lemma FlatDrop(ws: seq<string>)
    requires ws == ["Flat", "3B", "12", "High", "Street"]
    ensures DropMarkers(ws) == ["High", "Street"] && Join(DropMarkers(ws)) == "High Street"
  {
    FlatMarkers();
    DropThreeMarkers(ws);
  }

  /** "Flat 3B 12 High Street" gives "High Street". */
  lemma FlatExample(hint: string)
    requires hint == "Flat 3B 12 High Street"
    ensures StreetFromHint(hint) == Some("High Street")
  {
    FlatTokens(hint);
    FlatDrop(Words(Strip(hint)));
  }
}
