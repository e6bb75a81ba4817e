/**
 * House assignment of the North-Indian Vedic chart (`buildHouses`): a flat
 * planet list becomes exactly twelve houses, house 1 anchored on the
 * Ascendant sign and the signs following cyclically; every planet whose
 * sign is recognised becomes an occupant of the house holding that sign.
 */
module VedicChart {
  import opened Wrappers
  import opened JsBuiltins

  /** The twelve signs in canonical order; a sign's index is its position here. */
  const ZodiacSigns: seq<string> := [
    "Aries", "Taurus", "Gemini", "Cancer",
    "Leo", "Virgo", "Libra", "Scorpio",
    "Sagittarius", "Capricorn", "Aquarius", "Pisces"
  ]

  /** Three-letter label of each sign, as drawn on the chart. */
  const SignAbbr: map<string, string> := map[
    "Aries" := "Ari", "Taurus" := "Tau", "Gemini" := "Gem", "Cancer" := "Can",
    "Leo" := "Leo", "Virgo" := "Vir", "Libra" := "Lib", "Scorpio" := "Sco",
    "Sagittarius" := "Sag", "Capricorn" := "Cap", "Aquarius" := "Aqu", "Pisces" := "Pis"
  ]

  /** Two-letter code of each well-known body. */
  const PlanetAbbr: map<string, string> := map[
    "Sun" := "Su", "Moon" := "Mo", "Mars" := "Ma", "Mercury" := "Me",
    "Jupiter" := "Ju", "Venus" := "Ve", "Saturn" := "Sa", "Rahu" := "Ra",
    "Ketu" := "Ke", "Uranus" := "Ur", "Neptune" := "Ne", "Pluto" := "Pl"
  ]

  /** A placement as the chart API delivers it (longitude and degree are not used here). */
  datatype Planet = Planet(name: string, sign: string, retrograde: bool)

  /**
   * One house of the chart. `sign` is None where the component stores
   * JavaScript's `undefined` (house 1 when the Ascendant sign is not recognised).
   */
  datatype House = House(house: int, sign: Option<string>, planets: seq<string>)

  // ------------------------------------------------------------ sign lookup

  function IndexFrom(signs: seq<string>, s: string, from: nat): (k: int)
    requires from <= |signs|
    ensures k == -1 || from <= k < |signs|
    ensures k == -1 <==> forall j :: from <= j < |signs| ==> signs[j] != s
    ensures k >= 0 ==> signs[k] == s && forall j :: from <= j < k ==> signs[j] != s
    decreases |signs| - from
  {
    if from == |signs| then -1
    else if signs[from] == s then from
    else IndexFrom(signs, s, from + 1)
  }

  /** `ZODIAC_SIGNS.indexOf(s)`: the sign's index, or -1 if `s` is not a sign name. */
  function SignIndex(s: string): (k: int)
    ensures -1 <= k < 12
    ensures k == -1 <==> s !in ZodiacSigns
    ensures k >= 0 ==> ZodiacSigns[k] == s
  {
    IndexFrom(ZodiacSigns, s, 0)
  }

  /** `ZODIAC_SIGNS[k]`: reading outside 0..11 yields `undefined`. */
  function ZodiacAt(k: int): (r: Option<string>)
    ensures r.Some? <==> 0 <= k < 12
    ensures r.Some? ==> r.value == ZodiacSigns[k]
  {
    if 0 <= k < 12 then Some(ZodiacSigns[k]) else None
  }

  /** The twelve names are pairwise different, so a sign's index is unique. */
  lemma SignsDistinct()
    ensures forall i, j :: 0 <= i < j < 12 ==> ZodiacSigns[i] != ZodiacSigns[j]
  {
  }

  // ------------------------------------------------------------- the anchor

  predicate IsAscendantName(name: string) {
    name == "Ascendant" || name == "Lagna"
  }

  /** The test `buildHouses` hands to `planets.find`. */
  predicate IsAscendantEntry(p: Planet) {
    IsAscendantName(p.name)
  }

  /**
   * The sign house 1 is anchored on: that of the first entry named
   * "Ascendant" or "Lagna", else that of the first planet, else "Aries".
   */
  function AscendantSign(planets: seq<Planet>): (r: string)
    ensures planets == [] ==> r == "Aries"
    ensures planets != [] ==> exists i :: 0 <= i < |planets| && r == planets[i].sign
  {
    match Find(planets, IsAscendantEntry)
    case Some(a) => a.sign
    case None => if planets != [] then planets[0].sign else "Aries"
  }

  /** `ascIdx`: the anchor's sign index, -1 when the anchor is not a sign name. */
  function AscIndex(planets: seq<Planet>): (k: int)
    ensures -1 <= k < 12
  {
    SignIndex(AscendantSign(planets))
  }

  /** `ZODIAC_SIGNS[(ascIdx + i) % 12]` with JavaScript's truncated remainder. */
  function SignOfHouse(ascIdx: int, i: nat): Option<string>
    requires -1 <= ascIdx < 12 && i < 12
  {
    ZodiacAt(JsRem(ascIdx + i, 12))
  }

  // ------------------------------------------------------------- placement

  /** `((pIdx - ascIdx + 12) % 12) + 1`: always a house number 1..12. */
  function HouseNumber(pIdx: int, ascIdx: int): (h: int)
    requires 0 <= pIdx < 12 && -1 <= ascIdx < 12
    ensures 1 <= h <= 12
  {
    JsRem(pIdx - ascIdx + 12, 12) + 1
  }

  /** `PLANET_ABBR[name] ?? name.slice(0, 2)`. */
  function Abbreviation(name: string): (r: string)
    ensures r == Prefix(name, 2)
  {
    if name in PlanetAbbr then PlanetAbbr[name] else Prefix(name, 2)
  }

  /**
   * The occupant string pushed for a planet: its code, then "R" when
   * retrograde. The code is the name's first two characters, so the string
   * has at most three.
   */
  function Occupant(p: Planet): (r: string)
    ensures r == Prefix(p.name, 2) + (if p.retrograde then "R" else "")
    ensures |r| <= 3
    ensures p.retrograde ==> r[|r| - 1] == 'R'
  {
    Abbreviation(p.name) + (if p.retrograde then "R" else "")
  }

  /** The house a planet is pushed into, or None when the loop skips it. */
  function Placement(p: Planet, ascIdx: int): (r: Option<int>)
    requires -1 <= ascIdx < 12
    ensures r.Some? <==> !IsAscendantName(p.name) && p.sign in ZodiacSigns
    ensures r.Some? ==> 1 <= r.value <= 12
  {
    if IsAscendantName(p.name) then None
    else
      var pIdx := SignIndex(p.sign);
      if pIdx == -1 then None else Some(HouseNumber(pIdx, ascIdx))
  }

  /** The occupants of house `h`: the planets placed there, in input order. */
  function Occupants(planets: seq<Planet>, ascIdx: int, h: int): (r: seq<string>)
    requires -1 <= ascIdx < 12
    ensures |r| <= |planets|
  {
    if planets == [] then []
    else
      var p := planets[|planets| - 1];
      Occupants(planets[..|planets| - 1], ascIdx, h) +
        (if Placement(p, ascIdx) == Some(h) then [Occupant(p)] else [])
  }

  /** Appending one planet appends at most its own occupant string to house `h`. */
  lemma OccupantsSnoc(planets: seq<Planet>, p: Planet, ascIdx: int, h: int)
    requires -1 <= ascIdx < 12
    ensures Occupants(planets + [p], ascIdx, h) ==
            Occupants(planets, ascIdx, h) + (if Placement(p, ascIdx) == Some(h) then [Occupant(p)] else [])
  {
    assert (planets + [p])[..|planets|] == planets;
  }

  /** The twelve houses once the planets `planets` have been pushed, anchored at `ascIdx`. */
  function Filled(planets: seq<Planet>, ascIdx: int): (r: seq<House>)
    requires -1 <= ascIdx < 12
    ensures |r| == 12
  {
    seq(12, i requires 0 <= i < 12 => House(i + 1, SignOfHouse(ascIdx, i), Occupants(planets, ascIdx, i + 1)))
  }

  /** What `buildHouses(planets)` returns. */
  function Houses(planets: seq<Planet>): (r: seq<House>)
    ensures |r| == 12
    ensures forall i :: 0 <= i < 12 ==> r[i].house == i + 1
  {
    Filled(planets, AscIndex(planets))
  }

  lemma HouseAt(planets: seq<Planet>, i: nat)
    requires i < 12
    ensures Houses(planets)[i] ==
      House(i + 1, SignOfHouse(AscIndex(planets), i), Occupants(planets, AscIndex(planets), i + 1))
  {
  }

  /** One loop step, seen from house `i + 1`. */
  lemma FilledSnocAt(planets: seq<Planet>, p: Planet, ascIdx: int, i: nat)
    requires -1 <= ascIdx < 12 && i < 12
    ensures var before := Filled(planets, ascIdx)[i];
            Filled(planets + [p], ascIdx)[i] ==
            before.(planets := before.planets + (if Placement(p, ascIdx) == Some(i + 1) then [Occupant(p)] else []))
  {
    FilledAt(planets, ascIdx, i);
    FilledAt(planets + [p], ascIdx, i);
    OccupantsSnoc(planets, p, ascIdx, i + 1);
  }

  /** House `i + 1` of the filled table. */
  lemma FilledAt(planets: seq<Planet>, ascIdx: int, i: nat)
    requires -1 <= ascIdx < 12 && i < 12
    ensures Filled(planets, ascIdx)[i] == House(i + 1, SignOfHouse(ascIdx, i), Occupants(planets, ascIdx, i + 1))
  {
  }

  /** One loop step: a placed planet's occupant string goes to the end of its house. */
  lemma FilledSnoc(planets: seq<Planet>, p: Planet, ascIdx: int)
    requires -1 <= ascIdx < 12
    ensures Placement(p, ascIdx).None? ==> Filled(planets + [p], ascIdx) == Filled(planets, ascIdx)
    ensures Placement(p, ascIdx).Some? ==>
      var h := Placement(p, ascIdx).value;
      var before := Filled(planets, ascIdx);
      Filled(planets + [p], ascIdx) == before[h - 1 := before[h - 1].(planets := before[h - 1].planets + [Occupant(p)])]
  {
    var before := Filled(planets, ascIdx);
    var after := Filled(planets + [p], ascIdx);
    var placed := Placement(p, ascIdx);
    forall i | 0 <= i < 12
      ensures after[i] == before[i].(planets := before[i].planets + (if placed == Some(i + 1) then [Occupant(p)] else []))
    {
      FilledSnocAt(planets, p, ascIdx, i);
    }
    if placed.Some? {
      var h := placed.value;
      var expected := before[h - 1 := before[h - 1].(planets := before[h - 1].planets + [Occupant(p)])];
      forall i | 0 <= i < 12 ensures after[i] == expected[i] {
        if i != h - 1 {
          assert before[i].planets + [] == before[i].planets;
        }
      }
      assert after == expected;
    } else {
      forall i | 0 <= i < 12 ensures after[i] == before[i] {
        assert before[i].planets + [] == before[i].planets;
      }
      assert after == before;
    }
  }

  // ---------------------------------------------------------- buildHouses

  /** The twelve houses `buildHouses` starts from: numbered, signed, and empty. */
  method EmptyHouses(ascIdx: int) returns (arr: array<House>)
    requires -1 <= ascIdx < 12
    ensures fresh(arr) && arr[..] == Filled([], ascIdx)
  {
    arr := new House[12](i requires 0 <= i < 12 => House(i + 1, SignOfHouse(ascIdx, i), []));
    forall i | 0 <= i < 12 ensures arr[..][i] == Filled([], ascIdx)[i] {
      assert Occupants([], ascIdx, i + 1) == [];
      assert arr[i] == House(i + 1, SignOfHouse(ascIdx, i), []);
    }
  }

  /** One pass of the loop: the planet's occupant string, if it is placed, goes to the end of its house. */
  method PushOccupant(arr: array<House>, ghost done: seq<Planet>, p: Planet, ascIdx: int)
    requires -1 <= ascIdx < 12 && arr[..] == Filled(done, ascIdx)
    modifies arr
    ensures arr[..] == Filled(done + [p], ascIdx)
  {
    FilledSnoc(done, p, ascIdx);
    if IsAscendantName(p.name) {
      return;
    }
    var pIdx := SignIndex(p.sign);
    if pIdx == -1 {
      return;
    }
    var houseNum := HouseNumber(pIdx, ascIdx);
    var abbr := Abbreviation(p.name);
    assert Placement(p, ascIdx) == Some(houseNum);
    assert abbr + (if p.retrograde then "R" else "") == Occupant(p);
    arr[houseNum - 1] := arr[houseNum - 1].(planets := arr[houseNum - 1].planets +
                                            [abbr + (if p.retrograde then "R" else "")]);
  }

  /**
   * `buildHouses`: allocate twelve empty houses, then push each placed
   * planet's occupant string into its house, in one pass over the input.
   */
  method BuildHouses(planets: seq<Planet>) returns (houses: seq<House>)
    ensures houses == Houses(planets)
  {
    var ascSign := AscendantSign(planets);
    var ascIdx := SignIndex(ascSign);

    var arr := EmptyHouses(ascIdx);
    PlaceAll(arr, planets, ascIdx);
    houses := arr[..];
  }

  /** The loop of `buildHouses`: push every planet of the input, in order. */
  method PlaceAll(arr: array<House>, planets: seq<Planet>, ascIdx: int)
    requires -1 <= ascIdx < 12 && arr[..] == Filled([], ascIdx)
    modifies arr
    ensures arr[..] == Filled(planets, ascIdx)
  {
    assert planets[..0] == [];
    for k := 0 to |planets|
      invariant arr[..] == Filled(planets[..k], ascIdx)
    {
      assert planets[..k + 1] == planets[..k] + [planets[k]];
      PushOccupant(arr, planets[..k], planets[k], ascIdx);
    }
    assert planets[..|planets|] == planets;
  }

  // ================================================================ properties

  /** Two different sign indices name two different signs. */
  lemma SignNamesDiffer(x: int, y: int)
    requires 0 <= x < 12 && 0 <= y < 12 && x != y
    ensures ZodiacSigns[x] != ZodiacSigns[y]
  {
    SignsDistinct();
  }

  /** With a recognised anchor `a`, house `i + 1` carries sign `(a + i) mod 12`. */
  lemma SignOfHouseRecognised(a: int, i: nat)
    requires 0 <= a < 12 && i < 12
    ensures SignOfHouse(a, i) == Some(ZodiacSigns[(a + i) % 12])
  {
  }

  /** Table lookup for a recognised anchor `a`: house 1 carries sign `a` itself. */
  lemma SignOfHouseZero(a: int)
    requires 0 <= a < 12
    ensures SignOfHouse(a, 0) == Some(ZodiacSigns[a])
  {
    assert JsRem(a + 0, 12) == a;
  }

  /** A recognised sign name anchors house 1 on itself. */
  lemma AnchorSignOfHouse(s: string)
    requires SignIndex(s) >= 0
    ensures SignOfHouse(SignIndex(s), 0) == Some(s)
  {
    SignOfHouseZero(SignIndex(s));
  }

  /** The sign field of house `i + 1`, as `buildHouses` sets it. */
  lemma HouseSignAt(planets: seq<Planet>, i: nat)
    requires i < 12
    ensures Houses(planets)[i].sign == SignOfHouse(AscIndex(planets), i)
  {
    HouseAt(planets, i);
  }

  /** With a recognised Ascendant the signs follow it cyclically from house 1. */
  lemma SignsCycleFromAscendant(planets: seq<Planet>)
    requires AscIndex(planets) >= 0
    ensures var a := AscIndex(planets);
      forall i :: 0 <= i < 12 ==> Houses(planets)[i].sign == Some(ZodiacSigns[(a + i) % 12])
  {
    var a := AscIndex(planets);
    forall i | 0 <= i < 12 ensures Houses(planets)[i].sign == Some(ZodiacSigns[(a + i) % 12]) {
      HouseSignAt(planets, i);
      SignOfHouseRecognised(a, i);
    }
  }

  /** With a recognised Ascendant, house 1 carries exactly the Ascendant's sign. */
  lemma HouseOneIsAscendant(planets: seq<Planet>)
    requires AscIndex(planets) >= 0
    ensures Houses(planets)[0].sign == Some(AscendantSign(planets))
  {
    HouseSignAt(planets, 0);
    AnchorSignOfHouse(AscendantSign(planets));
  }

  /** Cyclic positions `(a + i) mod 12` and `(a + j) mod 12` differ for different houses. */
  lemma CyclicPositionsDiffer(a: int, i: int, j: int)
    requires 0 <= a < 12 && 0 <= i < j < 12
    ensures ZodiacSigns[(a + i) % 12] != ZodiacSigns[(a + j) % 12]
  {
    SignNamesDiffer((a + i) % 12, (a + j) % 12);
  }

  /** With a recognised Ascendant no sign appears in two houses. */
  lemma SignsDistinctAcrossHouses(planets: seq<Planet>)
    requires AscIndex(planets) >= 0
    ensures forall i, j :: 0 <= i < j < 12 ==> Houses(planets)[i].sign != Houses(planets)[j].sign
  {
    var a := AscIndex(planets);
    forall i, j | 0 <= i < j < 12 ensures Houses(planets)[i].sign != Houses(planets)[j].sign {
      HouseSignAt(planets, i);
      HouseSignAt(planets, j);
      SignOfHouseRecognised(a, i);
      SignOfHouseRecognised(a, j);
      CyclicPositionsDiffer(a, i, j);
    }
  }

  /** Sign `k` sits at cyclic position `i = (k - a + 12) mod 12` from a recognised anchor `a`. */
  lemma HouseOfSign(a: int, k: int, i: nat)
    requires 0 <= a < 12 && 0 <= k < 12 && i == (k - a + 12) % 12
    ensures i < 12 && SignOfHouse(a, i) == Some(ZodiacSigns[k])
  {
    assert (a + i) % 12 == k;
    SignOfHouseRecognised(a, i);
  }

  /** With a recognised Ascendant, sign `k` is the sign of house `((k - a + 12) mod 12) + 1`. */
  lemma HouseHoldingSign(planets: seq<Planet>, k: int, i: nat)
    requires AscIndex(planets) >= 0 && 0 <= k < 12 && i == (k - AscIndex(planets) + 12) % 12
    ensures i < 12 && Houses(planets)[i].sign == Some(ZodiacSigns[k])
  {
    HouseOfSign(AscIndex(planets), k, i);
    HouseSignAt(planets, i);
  }

  /** With a recognised Ascendant every sign appears, sign `k` in house `((k - a + 12) mod 12) + 1`. */
  lemma EverySignHasAHouse(planets: seq<Planet>)
    requires AscIndex(planets) >= 0
    ensures var a := AscIndex(planets);
      forall k :: 0 <= k < 12 ==> Houses(planets)[(k - a + 12) % 12].sign == Some(ZodiacSigns[k])
  {
    forall k | 0 <= k < 12
      ensures Houses(planets)[(k - AscIndex(planets) + 12) % 12].sign == Some(ZodiacSigns[k])
    {
      HouseHoldingSign(planets, k, (k - AscIndex(planets) + 12) % 12);
    }
  }

  /** Table lookup for the unrecognised anchor -1: house 1 reads index -1, house `i + 1` sign `i - 1`. */
  lemma SignOfHouseUnrecognised(i: nat)
    requires i < 12
    ensures i == 0 ==> SignOfHouse(-1, i) == None
    ensures i > 0 ==> SignOfHouse(-1, i) == Some(ZodiacSigns[i - 1])
  {
  }

  /**
   * An anchor that is not a sign name gives `ascIdx = -1`: house 1's sign is
   * `ZODIAC_SIGNS[-1]`, i.e. undefined, and houses 2..12 get Aries..Aquarius.
   */
  lemma UnrecognisedAscendantSigns(planets: seq<Planet>)
    requires AscendantSign(planets) !in ZodiacSigns
    ensures Houses(planets)[0].sign == None
    ensures forall i :: 1 <= i < 12 ==> Houses(planets)[i].sign == Some(ZodiacSigns[i - 1])
  {
    assert AscIndex(planets) == -1;
    forall i | 0 <= i < 12
      ensures i == 0 ==> Houses(planets)[i].sign == None
      ensures i > 0 ==> Houses(planets)[i].sign == Some(ZodiacSigns[i - 1])
    {
      HouseSignAt(planets, i);
      SignOfHouseUnrecognised(i);
    }
  }

  /** House `h` holds exactly the occupant strings of the planets placed in `h`. */
  lemma OccupantsMembership(planets: seq<Planet>, ascIdx: int, h: int, x: string)
    requires -1 <= ascIdx < 12
    ensures x in Occupants(planets, ascIdx, h) <==>
            exists i :: 0 <= i < |planets| && Placement(planets[i], ascIdx) == Some(h) && Occupant(planets[i]) == x
  {
    if x in Occupants(planets, ascIdx, h) {
      PlanetOfOccupant(planets, ascIdx, h, x);
    }
    if exists i :: 0 <= i < |planets| && Placement(planets[i], ascIdx) == Some(h) && Occupant(planets[i]) == x {
      var i :| 0 <= i < |planets| && Placement(planets[i], ascIdx) == Some(h) && Occupant(planets[i]) == x;
      OccupantOfPlanet(planets, ascIdx, h, i);
    }
  }

  /** A planet placed in house `h` leaves its occupant string there. */
  lemma {:induction false} OccupantOfPlanet(planets: seq<Planet>, ascIdx: int, h: int, i: nat)
    requires -1 <= ascIdx < 12 && i < |planets| && Placement(planets[i], ascIdx) == Some(h)
    ensures Occupant(planets[i]) in Occupants(planets, ascIdx, h)
  {
    var init := planets[..|planets| - 1];
    if i < |planets| - 1 {
      assert init[i] == planets[i];
      OccupantOfPlanet(init, ascIdx, h, i);
    }
  }

  /** Every occupant string of house `h` comes from a planet placed there. */
  lemma {:induction false} PlanetOfOccupant(planets: seq<Planet>, ascIdx: int, h: int, x: string)
    requires -1 <= ascIdx < 12 && x in Occupants(planets, ascIdx, h)
    ensures exists i :: 0 <= i < |planets| && Placement(planets[i], ascIdx) == Some(h) && Occupant(planets[i]) == x
  {
    var init := planets[..|planets| - 1];
    if x in Occupants(init, ascIdx, h) {
      PlanetOfOccupant(init, ascIdx, h, x);
      var i :| 0 <= i < |init| && Placement(init[i], ascIdx) == Some(h) && Occupant(init[i]) == x;
      assert planets[i] == init[i];
    } else {
      assert Placement(planets[|planets| - 1], ascIdx) == Some(h);
    }
  }


  /** Occupants keep input order: the occupant list of a concatenation is the concatenation. */
  lemma {:induction false} OccupantsAppend(ps: seq<Planet>, qs: seq<Planet>, ascIdx: int, h: int)
    requires -1 <= ascIdx < 12
    ensures Occupants(ps + qs, ascIdx, h) == Occupants(ps, ascIdx, h) + Occupants(qs, ascIdx, h)
  {
    if qs == [] {
      assert ps + qs == ps;
    } else {
      var q := qs[|qs| - 1];
      var init := qs[..|qs| - 1];
      assert ps + qs == (ps + init) + [q];
      OccupantsAppend(ps, init, ascIdx, h);
      OccupantsSnoc(ps + init, q, ascIdx, h);
      OccupantsSnoc(init, q, ascIdx, h);
      assert init + [q] == qs;
    }
  }

  /** For a recognised anchor the house number is the cyclic distance from the anchor, plus one. */
  lemma HouseNumberCyclic(pIdx: int, a: int)
    requires 0 <= pIdx < 12 && 0 <= a < 12
    ensures HouseNumber(pIdx, a) - 1 == (pIdx - a + 12) % 12
  {
  }

  /** With a recognised anchor `a`, the house numbered for sign index `k` carries sign `k`. */
  lemma HouseNumberSign(k: int, a: int)
    requires 0 <= k < 12 && 0 <= a < 12
    ensures SignOfHouse(a, HouseNumber(k, a) - 1) == Some(ZodiacSigns[k])
  {
    HouseNumberCyclic(k, a);
    HouseOfSign(a, k, HouseNumber(k, a) - 1);
  }

  /** A placed planet goes to the house numbered from its own sign's index. */
  lemma PlacementIsHouseNumber(p: Planet, a: int)
    requires -1 <= a < 12 && Placement(p, a).Some?
    ensures 0 <= SignIndex(p.sign) < 12 && ZodiacSigns[SignIndex(p.sign)] == p.sign
    ensures Placement(p, a).value == HouseNumber(SignIndex(p.sign), a)
  {
  }

  /** A placed planet's house carries the planet's sign, for any recognised anchor `a`. */
  lemma PlacementSign(p: Planet, a: int)
    requires 0 <= a < 12 && Placement(p, a).Some?
    ensures SignOfHouse(a, Placement(p, a).value - 1) == Some(p.sign)
  {
    PlacementIsHouseNumber(p, a);
    HouseNumberSign(SignIndex(p.sign), a);
  }

  /**
   * Every placed planet sits in a house numbered 1..12 (see `Placement`),
   * and with a recognised Ascendant that house carries the planet's own sign.
   */
  lemma PlacedPlanetMatchesHouseSign(planets: seq<Planet>, p: Planet)
    requires AscIndex(planets) >= 0
    requires Placement(p, AscIndex(planets)).Some?
    ensures Houses(planets)[Placement(p, AscIndex(planets)).value - 1].sign == Some(p.sign)
  {
    PlacementSign(p, AscIndex(planets));
    HouseSignAt(planets, Placement(p, AscIndex(planets)).value - 1);
  }

  /** The planets `buildHouses` places: not an Ascendant/Lagna entry, and a recognised sign. */
  function Placed(planets: seq<Planet>): (r: seq<Planet>)
    ensures |r| <= |planets|
  {
    if planets == [] then []
    else
      var p := planets[|planets| - 1];
      Placed(planets[..|planets| - 1]) +
        (if !IsAscendantName(p.name) && p.sign in ZodiacSigns then [p] else [])
  }

  /** Number of occupant strings across a list of houses. */
  function OccupantCount(houses: seq<House>): nat {
    if houses == [] then 0
    else OccupantCount(houses[..|houses| - 1]) + |houses[|houses| - 1].planets|
  }

  /** Houses without occupants hold no occupant strings. */
  lemma {:induction false} OccupantCountEmpty(houses: seq<House>)
    requires forall j :: 0 <= j < |houses| ==> houses[j].planets == []
    ensures OccupantCount(houses) == 0
  {
    if houses != [] {
      OccupantCountEmpty(houses[..|houses| - 1]);
    }
  }

  /** Replacing one house changes the total by the difference of its occupant counts. */
  lemma {:induction false} OccupantCountUpdate(houses: seq<House>, j: nat, h: House)
    requires j < |houses|
    ensures OccupantCount(houses[j := h]) + |houses[j].planets| == OccupantCount(houses) + |h.planets|
  {
    var n := |houses| - 1;
    if j < n {
      assert houses[j := h][..n] == houses[..n][j := h];
      OccupantCountUpdate(houses[..n], j, h);
    } else {
      assert houses[j := h][..n] == houses[..n];
    }
  }

  /** Occupant count of the twelve houses after pushing the planets `planets`. */
  lemma {:induction false} FilledConserves(planets: seq<Planet>, ascIdx: int)
    requires -1 <= ascIdx < 12
    ensures OccupantCount(Filled(planets, ascIdx)) == |Placed(planets)|
  {
    if planets == [] {
      forall j | 0 <= j < 12 ensures Filled([], ascIdx)[j].planets == [] {
      }
      OccupantCountEmpty(Filled([], ascIdx));
    } else {
      var init := planets[..|planets| - 1];
      var p := planets[|planets| - 1];
      assert planets == init + [p];
      FilledConserves(init, ascIdx);
      FilledSnoc(init, p, ascIdx);
      var before := Filled(init, ascIdx);
      if Placement(p, ascIdx).Some? {
        var h := Placement(p, ascIdx).value;
        OccupantCountUpdate(before, h - 1, before[h - 1].(planets := before[h - 1].planets + [Occupant(p)]));
      }
    }
  }

  /**
   * Occupants are conserved: the twelve houses together hold one occupant
   * string per placed planet (duplicates included), and no more.
   */
  lemma OccupantsConserved(planets: seq<Planet>)
    ensures OccupantCount(Houses(planets)) == |Placed(planets)|
  {
    FilledConserves(planets, AscIndex(planets));
  }

  /** The anchor is the sign of the FIRST entry named "Ascendant" or "Lagna". */
  lemma AnchorIsFirstAscendantEntry(planets: seq<Planet>, i: nat)
    requires i < |planets| && IsAscendantName(planets[i].name)
    requires forall j :: 0 <= j < i ==> !IsAscendantName(planets[j].name)
    ensures AscendantSign(planets) == planets[i].sign
  {
    var r := Find(planets, IsAscendantEntry);
    assert IsAscendantEntry(planets[i]);
    var j :| 0 <= j < |planets| && planets[j] == r.value && IsAscendantEntry(planets[j]) &&
             forall k :: 0 <= k < j ==> !IsAscendantEntry(planets[k]);
    assert j == i;
  }

  /** Without an entry named "Ascendant" or "Lagna" the first planet's sign is the anchor. */
  lemma FirstPlanetIsAnchor(planets: seq<Planet>)
    requires planets != []
    requires forall j :: 0 <= j < |planets| ==> !IsAscendantName(planets[j].name)
    ensures AscendantSign(planets) == planets[0].sign
  {
    assert forall j :: 0 <= j < |planets| ==> !IsAscendantEntry(planets[j]);
  }

  /** A planet in the anchor's own sign is placed in house 1. */
  lemma AnchorSignPlacedInHouseOne(p: Planet, a: int)
    requires 0 <= a < 12 && !IsAscendantName(p.name) && SignIndex(p.sign) == a
    ensures Placement(p, a) == Some(1)
  {
    HouseNumberSelf(a);
  }

  /** The anchor's own sign is house 1. */
  lemma HouseNumberSelf(a: int)
    requires 0 <= a < 12
    ensures HouseNumber(a, a) == 1
  {
  }

  /** A single planet contributes exactly its own occupant string to the house it is placed in. */
  lemma OccupantsSingle(p: Planet, ascIdx: int, h: int)
    requires -1 <= ascIdx < 12 && Placement(p, ascIdx) == Some(h)
    ensures Occupants([p], ascIdx, h) == [Occupant(p)]
  {
    OccupantsSnoc([], p, ascIdx, h);
    assert [] + [p] == [p];
  }

  /** A planet placed in house `h` ahead of all others is the first occupant of `h`. */
  lemma FirstOccupant(planets: seq<Planet>, ascIdx: int, h: int)
    requires -1 <= ascIdx < 12 && planets != [] && Placement(planets[0], ascIdx) == Some(h)
    ensures |Occupants(planets, ascIdx, h)| > 0 && Occupants(planets, ascIdx, h)[0] == Occupant(planets[0])
  {
    OccupantsAppend([planets[0]], planets[1..], ascIdx, h);
    assert [planets[0]] + planets[1..] == planets;
    OccupantsSingle(planets[0], ascIdx, h);
  }

  /**
   * Without an Ascendant entry the first planet is the anchor, and when its
   * sign is recognised it is the first occupant of house 1.
   */
  lemma FirstPlanetAnchorsHouseOne(planets: seq<Planet>)
    requires planets != [] && planets[0].sign in ZodiacSigns
    requires forall j :: 0 <= j < |planets| ==> !IsAscendantName(planets[j].name)
    ensures Houses(planets)[0].sign == Some(planets[0].sign)
    ensures |Houses(planets)[0].planets| > 0 && Houses(planets)[0].planets[0] == Occupant(planets[0])
  {
    FirstPlanetIsAnchor(planets);
    HouseOneIsAscendant(planets);
    AnchorSignPlacedInHouseOne(planets[0], AscIndex(planets));
    FirstOccupant(planets, AscIndex(planets), 1);
    HouseAt(planets, 0);
  }

  /** Empty input: twelve empty houses anchored at the Aries fallback. */
  lemma EmptyInputHouses()
    ensures Houses([])[0].sign == Some("Aries")
    ensures forall i :: 0 <= i < 12 ==> Houses([])[i].planets == []
    ensures forall i :: 0 <= i < 12 ==> Houses([])[i].sign == Some(ZodiacSigns[i])
  {
    assert AscIndex([]) == 0;
    forall i | 0 <= i < 12 ensures Houses([])[i].planets == [] && Houses([])[i].sign == Some(ZodiacSigns[i]) {
      HouseAt([], i);
    }
  }

  /** With an "Ascendant" entry in Virgo the anchor index is 5. */
  lemma VirgoRisingAnchor(ps: seq<Planet>)
    requires ps == [Planet("Sun", "Leo", false), Planet("Ascendant", "Virgo", false)]
    ensures AscendantSign(ps) == "Virgo" && AscIndex(ps) == 5
  {
    AnchorIsFirstAscendantEntry(ps, 1);
    assert ZodiacSigns[5] == "Virgo";
  }

  /** The Sun in Leo, Virgo rising: placed in house 12 under the code "Su"; the Ascendant entry is skipped. */
  lemma SunInLeoPlacement()
    ensures Placement(Planet("Sun", "Leo", false), 5) == Some(12)
    ensures Placement(Planet("Ascendant", "Virgo", false), 5) == None
    ensures Occupant(Planet("Sun", "Leo", false)) == "Su"
  {
    assert ZodiacSigns[4] == "Leo";
  }

  /** Only the Sun occupies a house, and it occupies house 12. */
  lemma SunOnlyOccupant(ps: seq<Planet>, h: int)
    requires ps == [Planet("Sun", "Leo", false), Planet("Ascendant", "Virgo", false)]
    ensures Occupants(ps, 5, h) == (if h == 12 then ["Su"] else [])
  {
    var sun := Planet("Sun", "Leo", false);
    var asc := Planet("Ascendant", "Virgo", false);
    SunInLeoPlacement();
    OccupantsSnoc([sun], asc, 5, h);
    OccupantsSnoc([], sun, 5, h);
    assert [sun] + [asc] == ps && [] + [sun] == [sun];
  }

  /** Sun in Leo with Virgo rising: house 1 is Virgo and house 12, where the Sun goes, is Leo. */
  lemma VirgoRisingSigns(ps: seq<Planet>)
    requires ps == [Planet("Sun", "Leo", false), Planet("Ascendant", "Virgo", false)]
    ensures Houses(ps)[0].sign == Some("Virgo") && Houses(ps)[11].sign == Some("Leo")
  {
    VirgoRisingAnchor(ps);
    HouseOneIsAscendant(ps);
    SunInLeoPlacement();
    PlacedPlanetMatchesHouseSign(ps, ps[0]);
  }

  /** Sun in Leo with Virgo rising: the Sun's code is the only occupant, in house 12. */
  lemma VirgoRisingOccupants(ps: seq<Planet>)
    requires ps == [Planet("Sun", "Leo", false), Planet("Ascendant", "Virgo", false)]
    ensures forall i :: 0 <= i < 12 ==> Houses(ps)[i].planets == (if i == 11 then ["Su"] else [])
  {
    VirgoRisingAnchor(ps);
    forall i | 0 <= i < 12 ensures Houses(ps)[i].planets == (if i == 11 then ["Su"] else []) {
      HouseAt(ps, i);
      SunOnlyOccupant(ps, i + 1);
    }
  }

  /** Sun in Leo with Virgo rising: house 1 is Virgo and the Sun ("Su") lands in house 12, alone. */
  lemma SunInLeoVirgoRising()
    ensures var hs := Houses([Planet("Sun", "Leo", false), Planet("Ascendant", "Virgo", false)]);
      hs[0].sign == Some("Virgo") && hs[11].sign == Some("Leo") && hs[11].planets == ["Su"] &&
      forall i :: 0 <= i < 11 ==> hs[i].planets == []
  {
    var ps := [Planet("Sun", "Leo", false), Planet("Ascendant", "Virgo", false)];
    VirgoRisingSigns(ps);
    VirgoRisingOccupants(ps);
  }
}
