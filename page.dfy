/**
 * The page of script.js as a state machine: the station input, the open
 * suggestion panels, the results and error areas, the chart handle, and the
 * event handlers that change them. The document is a plain record of fields;
 * the network is replaced by a log of the analysis requests issued and by
 * the responses given to the handlers as parameters.
 */
module Page {
  import opened Wrappers
  import opened Autocomplete
  import opened Results

  /** An open `.autocomplete-items` panel; `id` stands for the element's identity. */
  datatype Panel = Panel(id: nat, items: seq<Suggestion>)

  /**
   * The element passed to `closeAllLists`: none at all, the station input,
   * a panel element itself, or anything else (an item inside a panel is not
   * the panel, so it is `Elsewhere`).
   */
  datatype Target = NoTarget | InputBox | PanelBox(id: nat) | Elsewhere

  /** What the results area shows. */
  datatype ResultsView = Empty | Loading | Shown(table: Table)

  const StationsError: string := "Error: Could not fetch station list. Is the API running?"

  function AnalysisError(station: string): string
  {
    "Error: Could not get analysis for \"" + station + "\"."
  }

  /** The guard of `getAnalysis`: an empty station name issues no request. */
  predicate ShouldRequest(station: string)
    ensures ShouldRequest(station) <==> |station| > 0
  {
    station != ""
  }

  /** `closeAllLists(t)` leaves a panel open only when `t` is the input or that very panel. */
  predicate Spared(t: Target, p: Panel)
  {
    t == InputBox || t == PanelBox(p.id)
  }

  /**
   * The intended meaning of `closeAllLists(t)`: keep, in document order, the
   * panels `t` spares. The loop achieves it when at most one panel is open
   * (`LiveCloseAtMostOne`).
   */
  function Survivors(panels: seq<Panel>, t: Target): (r: seq<Panel>)
    ensures |r| <= |panels|
  {
    if panels == [] then []
    else (if Spared(t, panels[0]) then [panels[0]] else []) + Survivors(panels[1..], t)
  }

  /** Under `Survivors`, a panel stays exactly when it was open and the target spares it. */
  lemma {:induction false} SurvivorsMembership(panels: seq<Panel>, t: Target, p: Panel)
    ensures p in Survivors(panels, t) <==> p in panels && Spared(t, p)
  {
    if panels != [] {
      SurvivorsMembership(panels[1..], t, p);
      assert panels == [panels[0]] + panels[1..];
    }
  }

  /** `closeAllLists(stationInput)` removes nothing. */
  lemma {:induction false} SurvivorsOfInput(panels: seq<Panel>)
    ensures Survivors(panels, InputBox) == panels
  {
    if panels != [] {
      SurvivorsOfInput(panels[1..]);
      assert panels == [panels[0]] + panels[1..];
    }
  }

  /** Under `Survivors`, no argument or a target that is neither the input nor a panel removes every panel. */
  lemma {:induction false} SurvivorsOfNothing(panels: seq<Panel>, t: Target)
    requires t == NoTarget || t == Elsewhere
    ensures Survivors(panels, t) == []
  {
    if panels != [] {
      SurvivorsOfNothing(panels[1..], t);
    }
  }

  /**
   * The loop of `closeAllLists(t)` from index `i` on, as written: it removes
   * `x[i]` from the live collection, which shifts the later panels down, and
   * then still moves on to `i + 1`.
   */
  function LiveClose(panels: seq<Panel>, i: nat, t: Target): (r: seq<Panel>)
    ensures |r| <= |panels|
    ensures forall p :: p in r ==> p in panels
    decreases |panels| - i
  {
    if i >= |panels| then panels
    else if Spared(t, panels[i]) then LiveClose(panels, i + 1, t)
    else LiveClose(panels[..i] + panels[i + 1..], i + 1, t)
  }

  /** With at most one panel open, the loop leaves exactly the spared panels. */
  lemma LiveCloseAtMostOne(panels: seq<Panel>, t: Target)
    requires |panels| <= 1
    ensures LiveClose(panels, 0, t) == Survivors(panels, t)
  {
    if |panels| == 1 {
      assert panels[..0] + panels[1..] == [];
    }
  }

  /**
   * With two panels and no argument the loop removes the first, then stops,
   * so the second stays open. The code never has two panels open.
   */
  lemma LiveCloseSkipsSecond(p0: Panel, p1: Panel)
    ensures LiveClose([p0, p1], 0, NoTarget) == [p1]
    ensures Survivors([p0, p1], NoTarget) == []
  {
    assert [p0, p1][..0] + [p0, p1][1..] == [p1];
  }

  class Page {
    /** The station list `initializeAutocomplete` was given. */
    var stations: seq<string>
    /** Whether `initializeAutocomplete` ran, i.e. the input and document listeners exist. */
    var ready: bool
    /** `stationInput.value`. */
    var value: string
    /** The open panels, in document order. */
    var panels: seq<Panel>
    /** The identity the next created panel gets. */
    var nextId: nat
    /** The station names of the analysis requests issued, oldest first. */
    var requests: seq<string>
    var results: ResultsView
    var errorText: string
    /** `analysisChart`: the data of the current chart instance, if any. */
    var chart: Option<ChartData>
    /** How many chart instances exist that were not destroyed. */
    var liveCharts: nat

    /**
     * At most one panel is open; a panel's identity is older than `nextId`;
     * every item names a known station; no panel opens before the listeners
     * exist; and the chart handle is the only live chart.
     */
    ghost predicate Valid()
      reads this
    {
      |panels| <= 1
      && (forall p :: p in panels ==> p.id < nextId)
      && (forall p, k :: p in panels && 0 <= k < |p.items| ==> p.items[k].value in stations)
      && (!ready ==> panels == [])
      && liveCharts == (if chart.Some? then 1 else 0)
    }

    /** The page right after `DOMContentLoaded`, before the station list arrives. */
    constructor ()
      ensures Valid()
      ensures stations == [] && !ready && value == "" && panels == [] && requests == []
      ensures results == Empty && errorText == "" && chart == None
    {
      stations := [];
      ready := false;
      value := "";
      panels := [];
      nextId := 0;
      requests := [];
      results := Empty;
      errorText := "";
      chart := None;
      liveCharts := 0;
    }

    /**
     * The end of `loadStations`: `response` is the parsed station list, or
     * None for a network error or a non-success status. Only on success are
     * the stations stored and the listeners attached.
     */
    method LoadStations(response: Option<seq<string>>)
      requires Valid() && !ready
      modifies this`stations, this`ready, this`errorText
      ensures Valid()
      ensures response.Some? ==> stations == response.value && ready && errorText == old(errorText)
      ensures response.None? ==> stations == old(stations) && !ready && errorText == StationsError
    {
      if response.Some? {
        stations := response.value;
        ready := true;
      } else {
        errorText := StationsError;
      }
    }

    /**
     * `closeAllLists(t)`: the loop removes from the live collection while it
     * indexes it. With at most one panel open, that is "keep only the
     * panels `t` spares".
     */
    method CloseAllLists(t: Target)
      requires Valid()
      modifies this`panels
      ensures Valid()
      ensures panels == LiveClose(old(panels), 0, t)
      ensures panels == Survivors(old(panels), t)
    {
      var i := 0;
      while i < |panels|
        invariant LiveClose(panels, i, t) == LiveClose(old(panels), 0, t)
        invariant forall p :: p in panels ==> p in old(panels)
        invariant |panels| <= |old(panels)|
        invariant Valid()
        decreases |panels| - i
      {
        if !Spared(t, panels[i]) {
          panels := panels[..i] + panels[i + 1..];
        }
        i := i + 1;
      }
      LiveCloseAtMostOne(old(panels), t);
    }

    /**
     * `showSuggestions(input)`: close every panel, then open one new panel
     * holding the suggestions for the upper-cased input.
     */
    method ShowSuggestions(input: string)
      requires Valid() && ready
      modifies this`panels, this`nextId
      ensures Valid()
      ensures |panels| == 1 && panels[0].id == old(nextId) && nextId == old(nextId) + 1
      ensures panels[0].items == Suggestions(Upper(input), stations)
    {
      var val := Upper(input);
      CloseAllLists(NoTarget);
      SurvivorsOfNothing(old(panels), NoTarget);
      var items := BuildItems(val, stations);
      forall k | 0 <= k < |items|
        ensures items[k].value in stations
      {
        SuggestionsAt(val, stations, k);
      }
      panels := panels + [Panel(nextId, items)];
      nextId := nextId + 1;
    }

    /** The input's `input` listener: the value changes, and a fresh panel replaces any open one. */
    method Type(text: string)
      requires Valid()
      modifies this`value, this`panels, this`nextId
      ensures Valid() && value == text
      ensures ready ==>
        |panels| == 1 && panels[0].items == Suggestions(Upper(text), stations)
        && panels[0].id == old(nextId) && nextId == old(nextId) + 1
      ensures !ready ==> panels == old(panels) && nextId == old(nextId)
    {
      value := text;
      if ready {
        ShowSuggestions(value);
      }
    }

    /** The input's `click` listener: open the full list only when no panel is open. */
    method OnInputClick()
      requires Valid()
      modifies this`panels, this`nextId
      ensures Valid()
      ensures ready && old(panels) == [] ==>
        |panels| == 1 && panels[0].items == Suggestions(Upper(""), stations)
        && panels[0].id == old(nextId) && nextId == old(nextId) + 1
        && |panels[0].items| == |stations|
        && forall k :: 0 <= k < |stations| ==>
             panels[0].items[k] == Suggestion("", stations[k], stations[k])
      ensures !(ready && old(panels) == []) ==> panels == old(panels) && nextId == old(nextId)
    {
      if ready && panels == [] {
        ShowSuggestions("");
        FilterEmptyInput(stations);
      }
    }

    /** The document's `click` listener: `closeAllLists(e.target)`. */
    method OnDocumentClick(t: Target)
      requires Valid()
      modifies this`panels
      ensures Valid()
      ensures panels == if ready then Survivors(old(panels), t) else old(panels)
      ensures t == InputBox ==> panels == old(panels)
      ensures forall p :: p in old(panels) && t == PanelBox(p.id) ==> panels == old(panels)
      ensures t == NoTarget || t == Elsewhere ==> panels == []
    {
      if ready {
        CloseAllLists(t);
        SurvivorsOfInput(old(panels));
        SurvivorsOfNothing(old(panels), NoTarget);
        SurvivorsOfNothing(old(panels), Elsewhere);
        if |old(panels)| == 1 {
          SurvivorsMembership(old(panels), t, old(panels)[0]);
          assert old(panels) == [old(panels)[0]];
        }
      }
    }

    /** `getAnalysis`: with a non-empty input, show the placeholder, clear the error, issue a request. */
    method GetAnalysis()
      requires Valid()
      modifies this`results, this`errorText, this`requests
      ensures Valid()
      ensures ShouldRequest(value) ==>
        requests == old(requests) + [value] && results == Loading && errorText == ""
      ensures !ShouldRequest(value) ==>
        requests == old(requests) && results == old(results) && errorText == old(errorText)
    {
      var station := value;
      if !ShouldRequest(station) {
        return;
      }
      results := Loading;
      errorText := "";
      requests := requests + [station];
    }

    /**
     * The click listener of item `k` of the open panel: copy its station
     * name into the input, close every panel, and ask for the analysis.
     */
    method SelectItem(k: nat)
      requires Valid() && |panels| == 1 && k < |panels[0].items|
      modifies this`value, this`panels, this`results, this`errorText, this`requests
      ensures Valid()
      ensures value == old(panels)[0].items[k].value && value in stations
      ensures panels == []
      ensures ShouldRequest(value) ==>
        requests == old(requests) + [value] && results == Loading && errorText == ""
      ensures !ShouldRequest(value) ==>
        requests == old(requests) && results == old(results) && errorText == old(errorText)
    {
      value := panels[0].items[k].value;
      CloseAllLists(NoTarget);
      SurvivorsOfNothing(old(panels), NoTarget);
      GetAnalysis();
    }

    /**
     * A click on the station input: its own listener runs, then the click
     * reaches the document's listener with the input as target. An open
     * panel stays open; with none open the full list appears.
     */
    method ClickInput()
      requires Valid()
      modifies this`panels, this`nextId
      ensures Valid()
      ensures ready && old(panels) == [] ==>
        |panels| == 1 && panels[0].items == Suggestions(Upper(""), stations)
        && panels[0].id == old(nextId) && nextId == old(nextId) + 1
        && |panels[0].items| == |stations|
        && forall k :: 0 <= k < |stations| ==>
             panels[0].items[k] == Suggestion("", stations[k], stations[k])
      ensures !(ready && old(panels) == []) ==> panels == old(panels) && nextId == old(nextId)
    {
      OnInputClick();
      OnDocumentClick(InputBox);
    }

    /**
     * A click on item `k`: the item's listener runs, then the document's
     * listener with the item as target, which finds nothing left to close.
     */
    method ClickItem(k: nat)
      requires Valid() && |panels| == 1 && k < |panels[0].items|
      modifies this`value, this`panels, this`results, this`errorText, this`requests
      ensures Valid()
      ensures value == old(panels)[0].items[k].value && panels == []
      ensures ShouldRequest(value) ==>
        requests == old(requests) + [value] && results == Loading && errorText == ""
      ensures !ShouldRequest(value) ==>
        requests == old(requests) && results == old(results) && errorText == old(errorText)
    {
      SelectItem(k);
      OnDocumentClick(Elsewhere);
    }

    /**
     * A click on the analysis button: its listener runs `getAnalysis`, then
     * the click reaches the document's listener with the button as target,
     * which closes any open panel.
     */
    method ClickAnalysisButton()
      requires Valid()
      modifies this`panels, this`results, this`errorText, this`requests
      ensures Valid()
      ensures ready ==> panels == []
      ensures !ready ==> panels == old(panels)
      ensures ShouldRequest(value) ==>
        requests == old(requests) + [value] && results == Loading && errorText == ""
      ensures !ShouldRequest(value) ==>
        requests == old(requests) && results == old(results) && errorText == old(errorText)
    {
      GetAnalysis();
      OnDocumentClick(Elsewhere);
    }

    /**
     * `displayResults`: show the table, destroy the previous chart if there
     * is one, and create the chart for `data`.
     */
    method DisplayResults(station: string, data: seq<Row>)
      requires Valid()
      modifies this`results, this`chart, this`liveCharts
      ensures Valid()
      ensures results.Shown? && results.table.station == station
      ensures |results.table.rows| == |data|
      ensures forall k :: 0 <= k < |data| ==> results.table.rows[k] == Cells(data[k])
      ensures chart == Some(Chart(data)) && liveCharts == 1
    {
      var table := BuildTable(station, data);
      results := Shown(table);
      if chart.Some? {
        liveCharts := liveCharts - 1;
      }
      chart := Some(Chart(data));
      liveCharts := liveCharts + 1;
    }

    /**
     * The rest of `getAnalysis` once the response for `station` arrives:
     * `response` is the parsed rows, or None for a network error or a
     * non-success status, which clears the results and reports the station.
     */
    method ReceiveAnalysis(station: string, response: Option<seq<Row>>)
      requires Valid() && station in requests
      modifies this`results, this`errorText, this`chart, this`liveCharts
      ensures Valid()
      ensures response.None? ==>
        results == Empty && errorText == AnalysisError(station) && chart == old(chart)
      ensures response.Some? ==>
        results.Shown? && results.table.station == station
        && |results.table.rows| == |response.value|
        && (forall k :: 0 <= k < |response.value| ==> results.table.rows[k] == Cells(response.value[k]))
        && chart == Some(Chart(response.value)) && errorText == old(errorText)
    {
      if response.None? {
        results := Empty;
        errorText := AnalysisError(station);
      } else {
        DisplayResults(station, response.value);
      }
    }
  }
}
