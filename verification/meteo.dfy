/** The weather-table helpers the three Streamlit front ends share: the
    linear ISA temperature, the eight-sector compass name of a wind
    direction, the hour filter and its index, and the table rows for the
    four altitudes sorted from the highest down. */
module Meteo {
  import opened Wrappers
  import PyList
  import Vent

  // ---------------------------------------------------------------------
  // ISA temperature

  /** T0 = 288.15 K and the lapse rate 0.0065 K per metre. */
  const T0: real := 288.15
  const LapseRate: real := 0.0065

  /** `temperature_standard(h)`: the ISA temperature in kelvin at altitude h. */
  function TemperatureStandard(h: real): (t: real)
    ensures h == 0.0 ==> t == 288.15
    ensures h > 0.0 ==> t < 288.15
    ensures h < 0.0 ==> t > 288.15
  {
    T0 - LapseRate * h
  }

  /** The temperature falls as the altitude rises, and only then, by exactly
      0.0065 K per metre. */
  lemma TemperatureDecreasing(h1: real, h2: real)
    ensures TemperatureStandard(h1) > TemperatureStandard(h2) <==> h1 < h2
    ensures TemperatureStandard(h2) - TemperatureStandard(h1) == -0.0065 * (h2 - h1)
  {}

  // ---------------------------------------------------------------------
  // Compass names

  const Directions: seq<string> := ["Nord", "Nord-Est", "Est", "Sud-Est", "Sud", "Sud-Ouest", "Ouest", "Nord-Ouest"]

  /** Python's `a % 360` on numbers: the remainder has the sign of 360, so
      it lies in [0, 360) whatever the sign of a. */
  function Mod360(a: real): (r: real)
    ensures 0.0 <= r < 360.0
    ensures exists q: int {:trigger q as real} :: a == 360.0 * q as real + r
  {
    var q := (a / 360.0).Floor;
    assert a == 360.0 * q as real + (a - 360.0 * q as real);
    a - 360.0 * q as real
  }

  /** `int((angle + 22.5) % 360 / 45)`: `int` truncates toward zero, which is
      the floor here since the quotient is never negative. */
  function SectorIndex(angle: real): (i: int)
    ensures 0 <= i < 8
    ensures 45.0 * i as real <= Mod360(angle + 22.5) < 45.0 * (i + 1) as real
  {
    (Mod360(angle + 22.5) / 45.0).Floor
  }

  /** `angle_de_direction` / `angle_vers_direction` / `angle_to_direction`. */
  function AngleToDirection(angle: real): (name: string)
    ensures name in Directions
  {
    Directions[SectorIndex(angle)]
  }

  /** Sector i holds exactly the angles whose shifted remainder lies in
      [45 i, 45 (i + 1)). */
  lemma SectorIndexMeaning(angle: real, i: int)
    requires 0 <= i < 8
    ensures SectorIndex(angle) == i <==> 45.0 * i as real <= Mod360(angle + 22.5) < 45.0 * (i + 1) as real
  {
    var j := SectorIndex(angle);
    if j < i {
      assert 45.0 * (j + 1) as real <= 45.0 * i as real;
    } else if j > i {
      assert 45.0 * (i + 1) as real <= 45.0 * j as real;
    }
  }

  /** The remainder of a number and of the number plus 360 agree. */
  lemma Mod360Periodic(a: real)
    ensures Mod360(a + 360.0) == Mod360(a)
  {
    var q := (a / 360.0).Floor;
    assert (a + 360.0) / 360.0 == a / 360.0 + 1.0;
    assert ((a + 360.0) / 360.0).Floor == q + 1;
  }

  /** Adding a full turn does not change the compass name. */
  lemma DirectionPeriodic(angle: real)
    ensures SectorIndex(angle + 360.0) == SectorIndex(angle)
    ensures AngleToDirection(angle + 360.0) == AngleToDirection(angle)
  {
    assert angle + 360.0 + 22.5 == (angle + 22.5) + 360.0;
    Mod360Periodic(angle + 22.5);
  }

  /** The boundary k * 45 + 22.5 belongs to the following sector. */
  lemma BoundaryGoesToNextSector(k: nat)
    requires k < 8
    ensures SectorIndex(45.0 * k as real + 22.5) == (k + 1) % 8
  {
    var a := 45.0 * k as real + 22.5;
    assert a + 22.5 == 45.0 * (k + 1) as real;
    if k < 7 {
      assert ((a + 22.5) / 360.0).Floor == 0;
      assert Mod360(a + 22.5) == 45.0 * (k + 1) as real;
    } else {
      assert ((a + 22.5) / 360.0).Floor == 1;
      assert Mod360(a + 22.5) == 0.0;
    }
    SectorIndexMeaning(a, (k + 1) % 8);
  }

  lemma KnownDirections()
    ensures AngleToDirection(0.0) == "Nord"
    ensures AngleToDirection(22.5) == "Nord-Est"
    ensures AngleToDirection(90.0) == "Est"
    ensures AngleToDirection(180.0) == "Sud"
    ensures AngleToDirection(270.0) == "Ouest"
    ensures AngleToDirection(350.0) == "Nord"
  {
    assert (22.5 / 360.0).Floor == 0;
    assert Mod360(22.5) == 22.5;
    SectorIndexMeaning(0.0, 0);
    BoundaryGoesToNextSector(0);
    assert (112.5 / 360.0).Floor == 0;
    assert Mod360(112.5) == 112.5;
    SectorIndexMeaning(90.0, 2);
    assert (202.5 / 360.0).Floor == 0;
    assert Mod360(202.5) == 202.5;
    SectorIndexMeaning(180.0, 4);
    assert (292.5 / 360.0).Floor == 0;
    assert Mod360(292.5) == 292.5;
    SectorIndexMeaning(270.0, 6);
    assert (372.5 / 360.0).Floor == 1;
    assert Mod360(372.5) == 12.5;
    SectorIndexMeaning(350.0, 0);
  }

  // ---------------------------------------------------------------------
  // Hours

  /** A parsed `datetime`: its date (a day number) and its time of day. */
  datatype Stamp = Stamp(date: int, clock: int)

  /** `[h for h in heures_disponibles_dt if h.date() == date]`. */
  function HoursOfDay(times: seq<Stamp>, date: int): (r: seq<Stamp>)
    ensures |r| <= |times|
    ensures forall h :: h in r <==> h in times && h.date == date
  {
    if times == [] then []
    else (if times[0].date == date then [times[0]] else []) + HoursOfDay(times[1..], date)
  }

  /** One hour is kept exactly when it falls on the chosen date. */
  lemma HoursOfDaySingle(h: Stamp, date: int)
    ensures HoursOfDay([h], date) == if h.date == date then [h] else []
  {}

  /** The filter distributes over concatenation: it keeps the order of the
      full list and every repetition of a kept hour. */
  lemma {:induction false} HoursOfDayAppend(a: seq<Stamp>, b: seq<Stamp>, date: int)
    ensures HoursOfDay(a + b, date) == HoursOfDay(a, date) + HoursOfDay(b, date)
  {
    if a == [] {
      assert a + b == b;
    } else {
      assert (a + b)[0] == a[0];
      assert (a + b)[1..] == a[1..] + b;
      HoursOfDayAppend(a[1..], b, date);
    }
  }

  /** `heures_disponibles_dt.index(heure_selectionnee)` for an hour picked
      from the filtered list: the first position of that hour in the full
      list, whose date is the selected one. */
  lemma SelectedIndex(times: seq<Stamp>, date: int, chosen: Stamp)
    requires chosen in HoursOfDay(times, date)
    ensures PyList.IndexOf(times, chosen).Some?
    ensures var i := PyList.IndexOf(times, chosen).value;
            times[i] == chosen && times[i].date == date
            && forall j :: 0 <= j < i ==> times[j] != chosen
  {}

  // ---------------------------------------------------------------------
  // Table rows

  /** `altitudes = [10, 80, 120, 180]`. */
  const DisplayAltitudes: seq<nat> := [10, 80, 120, 180]

  /** The JSON numbers (or nulls) of the `hourly` fields. */
  type Fields = map<string, seq<Option<real>>>

  /** What Python raises while the table is built. */
  datatype WeatherError = KeyError(key: string) | IndexError

  /** One row: the altitude, the speed and the direction (None where the
      value is falsy), the compass name, and the ISA temperature in degrees
      Celsius. */
  datatype Row = Row(altitude: nat, speed: Option<real>, direction: Option<real>,
                     directionName: Option<string>, temperatureC: real)

  /** `hourly.get(key, [None])[index]`: a missing field falls back to the
      one-element list [None], and indexing raises IndexError (None here). */
  function GetOrNone(fields: Fields, key: string, index: int): (r: Option<Option<real>>)
    ensures key in fields ==> r == PyList.Index(fields[key], index)
    ensures key !in fields ==> (r.Some? <==> index == 0 || index == -1)
    ensures key !in fields && r.Some? ==> r.value.None?
  {
    PyList.Index(if key in fields then fields[key] else [None], index)
  }

  /** Python truthiness of a JSON number: null and 0 are false. */
  predicate Truthy(v: Option<real>)
  {
    v.Some? && v.value != 0.0
  }

  /** The row for altitude alt: read the speed then the direction. */
  function MakeRow(fields: Fields, alt: nat, index: int): (r: Result<Row, WeatherError>)
    ensures r.Success? <==> GetOrNone(fields, Vent.SpeedKey(alt), index).Some?
                            && GetOrNone(fields, Vent.DirectionKey(alt), index).Some?
    ensures r.Success? ==> r.value.altitude == alt
    ensures r.Success? ==>
              var s := GetOrNone(fields, Vent.SpeedKey(alt), index).value;
              var d := GetOrNone(fields, Vent.DirectionKey(alt), index).value;
              r.value.speed == (if Truthy(s) then s else None)
              && r.value.direction == (if Truthy(d) then d else None)
    ensures r.Success? ==> (r.value.direction.Some? <==> r.value.directionName.Some?)
    ensures r.Success? && r.value.direction.Some? ==>
              r.value.direction.value != 0.0 && r.value.directionName == Some(AngleToDirection(r.value.direction.value))
    ensures r.Success? ==> r.value.temperatureC == TemperatureStandard(alt as real) - 273.15
  {
    var speed := GetOrNone(fields, Vent.SpeedKey(alt), index);
    var direction := GetOrNone(fields, Vent.DirectionKey(alt), index);
    if speed.None? || direction.None? then Failure(IndexError)
    else
      var s := speed.value;
      var d := direction.value;
      Success(Row(alt,
                  if Truthy(s) then s else None,
                  if Truthy(d) then d else None,
                  if Truthy(d) then Some(AngleToDirection(d.value)) else None,
                  TemperatureStandard(alt as real) - 273.15))
  }

  /** The rows for alts in order, or the first error. */
  function RowsOf(fields: Fields, alts: seq<nat>, index: int): Result<seq<Row>, WeatherError>
    decreases |alts|
  {
    if alts == [] then Success([])
    else
      match RowsOf(fields, alts[..|alts| - 1], index)
      case Failure(e) => Failure(e)
      case Success(rows) =>
        match MakeRow(fields, alts[|alts| - 1], index)
        case Failure(e) => Failure(e)
        case Success(row) => Success(rows + [row])
  }

  /** The table is built exactly when every altitude's two fields can be
      read, with one row per altitude, in order. */
  lemma {:induction false} RowsSucceed(fields: Fields, alts: seq<nat>, index: int)
    ensures RowsOf(fields, alts, index).Success? <==> forall i :: 0 <= i < |alts| ==> MakeRow(fields, alts[i], index).Success?
    ensures RowsOf(fields, alts, index).Success? ==>
              |RowsOf(fields, alts, index).value| == |alts|
              && forall i :: 0 <= i < |alts| ==> RowsOf(fields, alts, index).value[i] == MakeRow(fields, alts[i], index).value
    decreases |alts|
  {
    if alts != [] {
      var init := alts[..|alts| - 1];
      RowsSucceed(fields, init, index);
      assert forall i :: 0 <= i < |init| ==> init[i] == alts[i];
    }
  }

  /** The only error the rows can raise is IndexError. */
  lemma {:induction false} RowsFail(fields: Fields, alts: seq<nat>, index: int)
    ensures RowsOf(fields, alts, index).Failure? ==> RowsOf(fields, alts, index).error == IndexError
    decreases |alts|
  {
    if alts != [] {
      RowsFail(fields, alts[..|alts| - 1], index);
    }
  }

  /** Both of the above. */
  lemma RowsMeaning(fields: Fields, alts: seq<nat>, index: int)
    ensures RowsOf(fields, alts, index).Success? <==> forall i :: 0 <= i < |alts| ==> MakeRow(fields, alts[i], index).Success?
    ensures RowsOf(fields, alts, index).Success? ==>
              |RowsOf(fields, alts, index).value| == |alts|
              && forall i :: 0 <= i < |alts| ==> RowsOf(fields, alts, index).value[i] == MakeRow(fields, alts[i], index).value
    ensures RowsOf(fields, alts, index).Failure? ==> RowsOf(fields, alts, index).error == IndexError
  {
    RowsSucceed(fields, alts, index);
    RowsFail(fields, alts, index);
  }

  /** A missing wind field read at an hour index above 0 raises IndexError. */
  lemma MissingFieldRaises(fields: Fields, alt: nat, index: int)
    requires Vent.SpeedKey(alt) !in fields && index > 0
    ensures MakeRow(fields, alt, index) == Failure(IndexError)
  {}

  lemma {:induction false} RowsPrefixFailure(fields: Fields, alts: seq<nat>, k: nat, index: int)
    requires k <= |alts| && RowsOf(fields, alts[..k], index).Failure?
    ensures RowsOf(fields, alts, index) == RowsOf(fields, alts[..k], index)
    decreases |alts| - k
  {
    if k < |alts| {
      assert alts[..k + 1][..k] == alts[..k];
      RowsPrefixFailure(fields, alts, k + 1, index);
    } else {
      assert alts[..k] == alts;
    }
  }

  /** The `for alt in altitudes` loop appending one row per altitude. */
  method BuildRows(fields: Fields, index: int) returns (r: Result<seq<Row>, WeatherError>)
    ensures r == RowsOf(fields, DisplayAltitudes, index)
  {
    var rows: seq<Row> := [];
    var j := 0;
    while j < |DisplayAltitudes|
      invariant 0 <= j <= |DisplayAltitudes|
      invariant RowsOf(fields, DisplayAltitudes[..j], index) == Success(rows)
    {
      var alt := DisplayAltitudes[j];
      assert DisplayAltitudes[..j + 1][..j] == DisplayAltitudes[..j];
      var vitesse := GetOrNone(fields, Vent.SpeedKey(alt), index);
      var direction := GetOrNone(fields, Vent.DirectionKey(alt), index);
      if vitesse.None? || direction.None? {
        RowsPrefixFailure(fields, DisplayAltitudes, j + 1, index);
        return Failure(IndexError);
      }
      var s := vitesse.value;
      var d := direction.value;
      var row := Row(alt,
                     if Truthy(s) then s else None,
                     if Truthy(d) then d else None,
                     if Truthy(d) then Some(AngleToDirection(d.value)) else None,
                     TemperatureStandard(alt as real) - 273.15);
      assert MakeRow(fields, alt, index) == Success(row);
      rows := rows + [row];
      j := j + 1;
    }
    assert DisplayAltitudes[..j] == DisplayAltitudes;
    r := Success(rows);
  }

  // ---------------------------------------------------------------------
  // Sort by altitude, descending

  predicate Descending(rows: seq<Row>)
  {
    forall i, j :: 0 <= i < j < |rows| ==> rows[i].altitude >= rows[j].altitude
  }

  /** Put r before the first row that is not higher than it (r came first
      in the input, so this keeps equal altitudes in input order). */
  function Insert(r: Row, sorted: seq<Row>): seq<Row>
  {
    if sorted == [] || sorted[0].altitude <= r.altitude then [r] + sorted
    else [sorted[0]] + Insert(r, sorted[1..])
  }

  /** `rows.sort(key=lambda x: x['Altitude (m)'], reverse=True)` on a value. */
  function SortByAltitude(rows: seq<Row>): seq<Row>
  {
    if rows == [] then [] else Insert(rows[0], SortByAltitude(rows[1..]))
  }

  /** Insert brings in no altitude above a bound that r and sorted respect. */
  lemma {:induction false} InsertBounded(r: Row, sorted: seq<Row>, bound: int)
    requires r.altitude <= bound && forall i :: 0 <= i < |sorted| ==> sorted[i].altitude <= bound
    ensures forall i :: 0 <= i < |Insert(r, sorted)| ==> Insert(r, sorted)[i].altitude <= bound
  {
    if sorted != [] && sorted[0].altitude > r.altitude {
      InsertBounded(r, sorted[1..], bound);
    }
  }

  /** Insert adds exactly r. */
  lemma {:induction false} InsertPermutes(r: Row, sorted: seq<Row>)
    ensures multiset(Insert(r, sorted)) == multiset(sorted) + multiset{r}
    ensures |Insert(r, sorted)| == |sorted| + 1
  {
    if sorted != [] && sorted[0].altitude > r.altitude {
      InsertPermutes(r, sorted[1..]);
      assert sorted == [sorted[0]] + sorted[1..];
    }
  }

  lemma ConsDescending(h: Row, rows: seq<Row>)
    requires Descending(rows) && forall i :: 0 <= i < |rows| ==> rows[i].altitude <= h.altitude
    ensures Descending([h] + rows)
  {
    var s := [h] + rows;
    forall i, j | 0 <= i < j < |s| ensures s[i].altitude >= s[j].altitude {
      if i > 0 {
        assert s[i] == rows[i - 1] && s[j] == rows[j - 1];
      } else {
        assert s[j] == rows[j - 1];
      }
    }
  }

  lemma {:induction false} InsertSorted(r: Row, sorted: seq<Row>)
    requires Descending(sorted)
    ensures Descending(Insert(r, sorted))
    ensures multiset(Insert(r, sorted)) == multiset(sorted) + multiset{r}
    ensures |Insert(r, sorted)| == |sorted| + 1
  {
    InsertPermutes(r, sorted);
    if sorted == [] || sorted[0].altitude <= r.altitude {
      ConsDescending(r, sorted);
    } else {
      var tail := sorted[1..];
      InsertSorted(r, tail);
      InsertBounded(r, tail, sorted[0].altitude);
      ConsDescending(sorted[0], Insert(r, tail));
    }
  }

  /** The sort yields a permutation of its input, highest altitude first. */
  lemma {:induction false} SortByAltitudeSorted(rows: seq<Row>)
    ensures Descending(SortByAltitude(rows))
    ensures multiset(SortByAltitude(rows)) == multiset(rows)
    ensures |SortByAltitude(rows)| == |rows|
  {
    if rows != [] {
      SortByAltitudeSorted(rows[1..]);
      InsertSorted(rows[0], SortByAltitude(rows[1..]));
      assert rows == [rows[0]] + rows[1..];
    }
  }

  /** A row lower than every sorted row goes to the end. */
  lemma {:induction false} InsertLowest(r: Row, sorted: seq<Row>)
    requires forall i :: 0 <= i < |sorted| ==> sorted[i].altitude > r.altitude
    ensures Insert(r, sorted) == sorted + [r]
  {
    if sorted != [] {
      InsertLowest(r, sorted[1..]);
      assert [sorted[0]] + (sorted[1..] + [r]) == sorted + [r];
    }
  }

  function Reverse(rows: seq<Row>): (r: seq<Row>)
    ensures |r| == |rows|
    ensures forall i :: 0 <= i < |rows| ==> r[i] == rows[|rows| - 1 - i]
  {
    if rows == [] then [] else Reverse(rows[1..]) + [rows[0]]
  }

  /** Rows in strictly increasing altitude come out reversed. */
  lemma {:induction false} SortIncreasingReverses(rows: seq<Row>)
    requires forall i, j :: 0 <= i < j < |rows| ==> rows[i].altitude < rows[j].altitude
    ensures SortByAltitude(rows) == Reverse(rows)
  {
    if rows != [] {
      var tail := rows[1..];
      SortIncreasingReverses(tail);
      forall i | 0 <= i < |tail| ensures Reverse(tail)[i].altitude > rows[0].altitude {
        assert Reverse(tail)[i] == rows[|rows| - 1 - i];
      }
      InsertLowest(rows[0], Reverse(tail));
    }
  }

  lemma DisplayRowsIncreasing(rows: seq<Row>)
    requires |rows| == 4 && forall i :: 0 <= i < 4 ==> rows[i].altitude == DisplayAltitudes[i]
    ensures forall i, j :: 0 <= i < j < |rows| ==> rows[i].altitude < rows[j].altitude
  {}

  /** Rows built for 10, 80, 120, 180 come out as 180, 120, 80, 10: the
      input reversed. */
  lemma SortedTableOrder(rows: seq<Row>)
    requires |rows| == 4 && forall i :: 0 <= i < 4 ==> rows[i].altitude == DisplayAltitudes[i]
    ensures SortByAltitude(rows) == [rows[3], rows[2], rows[1], rows[0]]
  {
    DisplayRowsIncreasing(rows);
    SortIncreasingReverses(rows);
    assert Reverse(rows) == [rows[3], rows[2], rows[1], rows[0]];
  }

  /** The table `afficher_meteo` / `afficher` shows: the rows built at the
      hour index, sorted. */
  function Table(fields: Fields, index: int): Result<seq<Row>, WeatherError>
  {
    match RowsOf(fields, DisplayAltitudes, index)
    case Failure(e) => Failure(e)
    case Success(rows) => Success(SortByAltitude(rows))
  }

  /** A shown table has the four altitudes from the highest down. */
  lemma TableOrder(fields: Fields, index: int)
    ensures Table(fields, index).Success? <==> forall i :: 0 <= i < 4 ==> MakeRow(fields, DisplayAltitudes[i], index).Success?
    ensures Table(fields, index).Success? ==>
              |Table(fields, index).value| == 4
              && Table(fields, index).value[0].altitude == 180 && Table(fields, index).value[1].altitude == 120
              && Table(fields, index).value[2].altitude == 80 && Table(fields, index).value[3].altitude == 10
  {
    RowsMeaning(fields, DisplayAltitudes, index);
    if RowsOf(fields, DisplayAltitudes, index).Success? {
      SortedTableOrder(RowsOf(fields, DisplayAltitudes, index).value);
    }
  }
}
