/**
 * The birth-chart screen: it loads the user's chart once, then shows a
 * spinner, an error, or the chart page with the wheel (only when there are
 * planets to place), the Sun and Moon signs, and one row per planet with its
 * retrograde mark.
 */
module ChartView {
  import opened Wrappers
  import opened JsBuiltins
  import opened VedicChart
  import opened ApiErrors

  /** The placeholder shown for a key sign whose planet is missing (an em dash). */
  const NoSign: string := "—"

  const LoadFailed: string := "Could not load birth chart."

  /** `retroLabel`: the mark appended to a retrograde planet's name. */
  function RetroLabel(p: Planet): (r: string)
    ensures r != "" <==> p.retrograde
    ensures r != "" ==> r == " (R)"
  {
    if p.retrograde then " (R)" else ""
  }

  /** `findPlanet`: the first planet with the given name, if any. */
  function FindPlanet(planets: seq<Planet>, name: string): (r: Option<Planet>)
    ensures r.None? <==> forall i :: 0 <= i < |planets| ==> planets[i].name != name
    ensures r.Some? ==> exists i :: 0 <= i < |planets| && planets[i] == r.value && r.value.name == name &&
                                    forall j :: 0 <= j < i ==> planets[j].name != name
  {
    Find(planets, (p: Planet) => p.name == name)
  }

  /** The planet found is the first one carrying the name. */
  lemma FindPlanetFirst(planets: seq<Planet>, name: string, i: nat)
    requires i < |planets| && planets[i].name == name
    requires forall j :: 0 <= j < i ==> planets[j].name != name
    ensures FindPlanet(planets, name) == Some(planets[i])
  {
    var r := FindPlanet(planets, name);
    var k :| 0 <= k < |planets| && planets[k] == r.value && r.value.name == name &&
             forall j :: 0 <= j < k ==> planets[j].name != name;
    assert k == i;
  }

  /** A key sign: the sign of the named planet, or the placeholder when it is missing. */
  function KeySign(planets: seq<Planet>, name: string): (r: string)
    ensures (forall i :: 0 <= i < |planets| ==> planets[i].name != name) ==> r == NoSign
  {
    match FindPlanet(planets, name)
    case Some(p) => p.sign
    case None => NoSign
  }

  /** With a planet of that name, the key sign is the first such planet's sign. */
  lemma KeySignOfFirst(planets: seq<Planet>, name: string, i: nat)
    requires i < |planets| && planets[i].name == name
    requires forall j :: 0 <= j < i ==> planets[j].name != name
    ensures KeySign(planets, name) == planets[i].sign
  {
    FindPlanetFirst(planets, name, i);
  }

  /** The houses the screen hands to the wheel: none at all without planets. */
  function ScreenHouses(planets: seq<Planet>): (r: seq<House>)
    ensures planets == [] ==> r == []
    ensures planets != [] ==> r == Houses(planets)
  {
    if |planets| > 0 then Houses(planets) else []
  }

  /** The wheel is drawn exactly when the chart has planets, and then it has twelve houses. */
  lemma WheelShownIffPlanets(planets: seq<Planet>)
    ensures |ScreenHouses(planets)| > 0 <==> planets != []
    ensures planets != [] ==> |ScreenHouses(planets)| == 12
  {
  }

  /**
   * The wheel the screen draws is never anchored on the "Aries" fallback of
   * the house builder: a chart with planets gets the twelve houses, its
   * ascendant is one of the planets' signs, and when that sign is a zodiac
   * sign the first house shows it.
   */
  lemma ScreenWheelAnchoredOnAPlanet(planets: seq<Planet>)
    requires planets != []
    ensures |ScreenHouses(planets)| == 12
    ensures exists i :: 0 <= i < |planets| && AscendantSign(planets) == planets[i].sign
    ensures AscendantSign(planets) in ZodiacSigns ==>
              ScreenHouses(planets)[0].sign == Some(AscendantSign(planets))
    ensures (forall i :: 0 <= i < |planets| ==> planets[i].sign in ZodiacSigns) ==>
              exists i :: 0 <= i < |planets| && ScreenHouses(planets)[0].sign == Some(planets[i].sign)
  {
    var k :| 0 <= k < |planets| && AscendantSign(planets) == planets[k].sign;
    if AscendantSign(planets) in ZodiacSigns {
      HouseOneIsAscendant(planets);
      assert ScreenHouses(planets)[0].sign == Some(planets[k].sign);
    }
  }

  // ------------------------------------------------------------------ screen

  /** What the screen renders. */
  datatype View =
    | Spinner
    | ErrorMessage(text: string)
    | ChartPage(houses: seq<House>, sunSign: string, moonSign: string, rows: seq<TableRow>)

  /** A row of the planet table: the name cell and the position cell's sign. */
  datatype TableRow = TableRow(name: string, sign: string)

  /**
   * A row of the planet table: the planet's name with its retrograde mark
   * after it, and the planet's sign in the position cell.
   */
  function Row(p: Planet): (r: TableRow)
    ensures |r.name| >= |p.name| && r.name[..|p.name|] == p.name && r.name[|p.name|..] == RetroLabel(p)
    ensures |r.name| > |p.name| <==> p.retrograde
    ensures r.sign == p.sign
  {
    TableRow(p.name + RetroLabel(p), p.sign)
  }

  /** The planet table: one row per planet, in the chart's order. */
  function Rows(planets: seq<Planet>): (r: seq<TableRow>)
    ensures |r| == |planets| && forall i :: 0 <= i < |planets| ==> r[i] == Row(planets[i])
  {
    seq(|planets|, i requires 0 <= i < |planets| => Row(planets[i]))
  }

  /** The screen's state: the loading flag, the error text and the chart's planets, once loaded. */
  datatype ScreenState = ScreenState(loading: bool, error: string, chart: Option<seq<Planet>>)

  const Initial: ScreenState := ScreenState(true, "", None)

  /** The loading effect settles: the chart is stored, or the error is set; loading ends either way. */
  function Loaded(st: ScreenState, result: Outcome<seq<Planet>>): (r: ScreenState)
    ensures !r.loading
    ensures result.Resolved? ==> r.chart == Some(result.value) && r.error == st.error
    ensures result.Rejected? ==> r.chart == st.chart && r.error == LoadFailed
  {
    match result
    case Resolved(planets) => st.(chart := Some(planets), loading := false)
    case Rejected(_) => st.(error := LoadFailed, loading := false)
  }

  /** The render: a spinner while loading, the error when there is no chart, else the chart page. */
  function Render(st: ScreenState): (v: View)
    ensures st.loading <==> v.Spinner?
    ensures v.ErrorMessage? <==> !st.loading && st.error != "" && st.chart.None?
    ensures v.ChartPage? ==> |v.rows| == |(if st.chart.Some? then st.chart.value else [])|
  {
    if st.loading then Spinner
    else if st.error != "" && st.chart.None? then ErrorMessage(st.error)
    else
      var planets := if st.chart.Some? then st.chart.value else [];
      ChartPage(ScreenHouses(planets), KeySign(planets, "Sun"), KeySign(planets, "Moon"),
                Rows(planets))
  }

  /** A failed load shows the error message and nothing of a chart. */
  lemma FailedLoadShowsError(detail: Option<string>)
    ensures Render(Loaded(Initial, Rejected(detail))) == ErrorMessage(LoadFailed)
  {
  }

  /**
   * A loaded chart shows its page: the wheel exactly when there are planets,
   * one row per planet in order, and the placeholder for a missing Sun or Moon.
   */
  lemma LoadedChartPage(planets: seq<Planet>)
    ensures var v := Render(Loaded(Initial, Resolved(planets)));
            v.ChartPage? &&
            (|v.houses| > 0 <==> planets != []) &&
            |v.rows| == |planets| &&
            (forall i :: 0 <= i < |planets| ==> v.rows[i] == Row(planets[i])) &&
            ((forall i :: 0 <= i < |planets| ==> planets[i].name != "Sun") ==> v.sunSign == NoSign) &&
            ((forall i :: 0 <= i < |planets| ==> planets[i].name != "Moon") ==> v.moonSign == NoSign)
  {
    assert Render(Loaded(Initial, Resolved(planets))) ==
           ChartPage(ScreenHouses(planets), KeySign(planets, "Sun"), KeySign(planets, "Moon"), Rows(planets));
  }

  /** An empty chart shows an empty page: no wheel, no rows and both placeholders. */
  lemma EmptyChartPage()
    ensures Render(Loaded(Initial, Resolved([]))) == ChartPage([], NoSign, NoSign, [])
  {
  }
}
