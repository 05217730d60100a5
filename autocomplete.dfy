/**
 * The pure core of the station autocomplete: the case-insensitive prefix
 * filter over the station list and the split of each match into a bold
 * prefix and a plain remainder (`showSuggestions` in script.js).
 */
module Autocomplete {

  /** ASCII upper-casing of one character; every other character is kept. */
  function UpperChar(c: char): char
  {
    if 'a' <= c <= 'z' then (c as int - 32) as char else c
  }

  /** `toUpperCase`, restricted to ASCII so that it keeps the length. */
  function Upper(s: string): (u: string)
    ensures |u| == |s|
    ensures forall i :: 0 <= i < |u| ==> !('a' <= u[i] <= 'z')
    ensures forall i :: 0 <= i < |s| && !('a' <= s[i] <= 'z') ==> u[i] == s[i]
    ensures forall i :: 0 <= i < |s| && 'a' <= s[i] <= 'z' ==> u[i] as int == s[i] as int - 32
  {
    seq(|s|, i requires 0 <= i < |s| => UpperChar(s[i]))
  }

  /**
   * The filter test for one station; `val` is the input already upper-cased.
   * An empty `val` lets every station through.
   */
  predicate Matches(val: string, station: string)
    ensures val == [] ==> Matches(val, station)
    ensures Matches(val, station) ==> |val| <= |station|
  {
    val == [] || val <= Upper(station)
  }

  /** The stations that pass the filter, in the order of the list. */
  function Filter(val: string, stations: seq<string>): (r: seq<string>)
    ensures |r| <= |stations|
    ensures forall k :: 0 <= k < |r| ==> Matches(val, r[k])
  {
    if stations == [] then []
    else (if Matches(val, stations[0]) then [stations[0]] else []) + Filter(val, stations[1..])
  }

  /** `a` is obtained from `b` by dropping some of its elements. */
  predicate IsSubsequence<T(==)>(a: seq<T>, b: seq<T>)
    decreases |b|
  {
    if b == [] then a == []
    else (a != [] && a[0] == b[0] && IsSubsequence(a[1..], b[1..])) || IsSubsequence(a, b[1..])
  }

  /**
   * One rendered suggestion: the `<strong>` part, the plain part after it,
   * and the station name kept in the hidden input.
   */
  datatype Suggestion = Suggestion(bold: string, rest: string, value: string)

  /**
   * `substr(0, |val|)` and `substr(|val|)`; JavaScript clamps a count past
   * the end of the string, so a short name gives an empty remainder.
   */
  function Highlight(val: string, station: string): (s: Suggestion)
    ensures s.value == station
    ensures s.bold + s.rest == station
    ensures |s.bold| == if |val| <= |station| then |val| else |station|
  {
    var n := if |val| <= |station| then |val| else |station|;
    Suggestion(station[..n], station[n..], station)
  }

  /** The items of the panel that `showSuggestions` builds for `val`. */
  function Suggestions(val: string, stations: seq<string>): (r: seq<Suggestion>)
    ensures |r| == |Filter(val, stations)| && |r| <= |stations|
    ensures forall k :: 0 <= k < |r| ==>
      r[k].value == Filter(val, stations)[k] && r[k].bold + r[k].rest == r[k].value
      && |r[k].bold| == |val|
  {
    var matches := Filter(val, stations);
    seq(|matches|, k requires 0 <= k < |matches| => Highlight(val, matches[k]))
  }

  /** Upper-casing commutes with taking a prefix. */
  lemma UpperPrefix(s: string, n: nat)
    requires n <= |s|
    ensures Upper(s[..n]) == Upper(s)[..n]
  {
  }

  /** `a` and `b` spell the same text, up to the case of ASCII letters. */
  predicate SameIgnoringCase(a: string, b: string)
  {
    |a| == |b| &&
    forall i :: 0 <= i < |a| ==>
      a[i] == b[i]
      || ('a' <= a[i] <= 'z' && b[i] as int == a[i] as int - 32)
      || ('a' <= b[i] <= 'z' && a[i] as int == b[i] as int - 32)
  }

  /** The filter is case-insensitive: inputs that differ only in letter case suggest the same stations. */
  lemma FilterCaseInsensitive(a: string, b: string, stations: seq<string>)
    requires SameIgnoringCase(a, b)
    ensures Filter(Upper(a), stations) == Filter(Upper(b), stations)
    ensures Suggestions(Upper(a), stations) == Suggestions(Upper(b), stations)
  {
    assert Upper(a) == Upper(b);
  }

  /** The `!val ||` guard is redundant: the empty string prefixes every name. */
  lemma MatchesIsPrefix(val: string, station: string)
    ensures Matches(val, station) <==> val <= Upper(station)
  {
  }

  /** Filtering a list extended by one station extends the result by at most that station. */
  lemma {:induction false} FilterSnoc(val: string, stations: seq<string>, x: string)
    ensures Filter(val, stations + [x])
         == Filter(val, stations) + (if Matches(val, x) then [x] else [])
  {
    if stations == [] {
      assert stations + [x] == [x];
    } else {
      assert (stations + [x])[1..] == stations[1..] + [x];
      FilterSnoc(val, stations[1..], x);
    }
  }

  /** The suggestions keep the list's order: they form a subsequence of it. */
  lemma {:induction false} FilterIsSubsequence(val: string, stations: seq<string>)
    ensures IsSubsequence(Filter(val, stations), stations)
  {
    if stations != [] {
      FilterIsSubsequence(val, stations[1..]);
      var r := Filter(val, stations);
      if Matches(val, stations[0]) {
        assert r[0] == stations[0] && r[1..] == Filter(val, stations[1..]);
      } else {
        assert r == Filter(val, stations[1..]);
      }
    }
  }

  /** A station is suggested exactly when it is in the list and passes the filter. */
  lemma {:induction false} FilterMembership(val: string, stations: seq<string>, s: string)
    ensures s in Filter(val, stations) <==> s in stations && Matches(val, s)
  {
    if stations != [] {
      FilterMembership(val, stations[1..], s);
      assert stations == [stations[0]] + stations[1..];
    }
  }

  /** Every occurrence of a matching station is kept, so the count of each name is kept. */
  lemma {:induction false} FilterCount(val: string, stations: seq<string>, s: string)
    requires Matches(val, s)
    ensures multiset(Filter(val, stations))[s] == multiset(stations)[s]
  {
    if stations != [] {
      FilterCount(val, stations[1..], s);
      assert stations == [stations[0]] + stations[1..];
    }
  }

  /** An empty input (the click-to-browse path passes "") lists every station, in order. */
  lemma {:induction false} FilterEmptyInput(stations: seq<string>)
    ensures Filter(Upper(""), stations) == stations
  {
    if stations != [] {
      FilterEmptyInput(stations[1..]);
      assert stations == [stations[0]] + stations[1..];
    }
  }

  /**
   * For a matching station the bold part is exactly the first |val|
   * characters, it upper-cases to `val`, and bold and plain part give back
   * the name.
   */
  lemma HighlightOfMatch(val: string, station: string)
    requires Matches(val, station)
    ensures var s := Highlight(val, station);
      |s.bold| == |val| && Upper(s.bold) == val && s.bold + s.rest == station
  {
    if val != [] {
      UpperPrefix(station, |val|);
    }
  }

  /** Each panel item is the highlight of the matching station at the same position. */
  lemma SuggestionsAt(val: string, stations: seq<string>, k: nat)
    requires k < |Filter(val, stations)|
    ensures |Suggestions(val, stations)| == |Filter(val, stations)|
    ensures var s := Suggestions(val, stations)[k];
      s.value == Filter(val, stations)[k] && s.bold + s.rest == s.value
      && Upper(s.bold) == val && s.value in stations
  {
    var matches := Filter(val, stations);
    HighlightOfMatch(val, matches[k]);
    FilterMembership(val, stations, matches[k]);
  }

  /**
   * The `forEach` loop of `showSuggestions`: one item per matching station,
   * appended in list order.
   */
  method BuildItems(val: string, stations: seq<string>) returns (items: seq<Suggestion>)
    ensures items == Suggestions(val, stations)
  {
    items := [];
    for i := 0 to |stations|
      invariant items == Suggestions(val, stations[..i])
    {
      assert stations[..i + 1] == stations[..i] + [stations[i]];
      FilterSnoc(val, stations[..i], stations[i]);
      if Matches(val, stations[i]) {
        items := items + [Highlight(val, stations[i])];
      }
    }
    assert stations[..|stations|] == stations;
  }

  /** Example: "no" picks both "North" stations, with the first two letters bold. */
  lemma ExampleNo()
    ensures Filter(Upper("no"), ["Central", "North Ave", "Northgate"]) == ["North Ave", "Northgate"]
    ensures Highlight(Upper("no"), "North Ave") == Suggestion("No", "rth Ave", "North Ave")
    ensures Highlight(Upper("no"), "Northgate") == Suggestion("No", "rthgate", "Northgate")
  {
    var val := Upper("no");
    assert val == "NO";
    var list := ["Central", "North Ave", "Northgate"];
    assert Upper("Central")[0] == 'C';
    assert !Matches(val, "Central");
    assert Upper("North Ave")[..2] == "NO";
    assert Matches(val, "North Ave");
    assert Upper("Northgate")[..2] == "NO";
    assert Matches(val, "Northgate");
    assert list[1..][1..][1..] == [];
    assert Filter(val, list[1..][1..]) == ["Northgate"];
    assert Filter(val, list[1..]) == ["North Ave", "Northgate"];
  }
}
