/** `InterfaceStreamlit` of streamlit_en_POO.py: the data-fetching part of
    the object-oriented front end. The HTTP answer, the date picked in the
    date widget and the position picked in the hour box are inputs;
    everything drawn on the page is reduced to what `Shown` records. */
module InterfacePoo {
  import opened Wrappers
  import PyList
  import opened Meteo

  /** The JSON answer: its `hourly` object, when present, holds the parsed
      `time` list (when present) and the numeric wind fields. */
  datatype Hourly = Hourly(time: Option<seq<Stamp>>, fields: Fields)
  datatype Response = Response(hourly: Option<Hourly>)

  /** What the page ends up showing: the table, the "no data for this date"
      warning, or the error box of the `except` branch. */
  datatype Shown = ShownTable(rows: seq<Row>) | NoDataWarning | ErrorBox(e: WeatherError)

  class InterfaceStreamlit {
    var lat: Option<real>
    var lon: Option<real>
    var dateSelectionnee: Option<int>
    var heureSelectionnee: Option<Stamp>
    var indexHoraire: Option<nat>
    var response: Option<Response>

    /** `__init__`: every attribute None. */
    constructor ()
      ensures lat.None? && lon.None? && dateSelectionnee.None? && heureSelectionnee.None?
      ensures indexHoraire.None? && response.None?
    {
      lat := None;
      lon := None;
      dateSelectionnee := None;
      heureSelectionnee := None;
      indexHoraire := None;
      response := None;
    }

    /** `afficher_meteo`: the table of the stored answer at the stored hour
        index. */
    method AfficherMeteo() returns (r: Result<seq<Row>, WeatherError>)
      requires response.Some? && response.value.hourly.Some? && indexHoraire.Some?
      ensures r == Table(response.value.hourly.value.fields, indexHoraire.value)
      ensures r.Success? ==> |r.value| == 4 && r.value[0].altitude == 180 && r.value[3].altitude == 10
    {
      var fields := response.value.hourly.value.fields;
      var rows := BuildRows(fields, indexHoraire.value);
      TableOrder(fields, indexHoraire.value);
      if rows.Failure? {
        return Failure(rows.error);
      }
      r := Success(SortByAltitude(rows.value));
    }

    /** `recuperer_donnees` given the answer of the request, the chosen date
        and the position of the chosen hour in the hour box. Every exception
        is caught and shown; the attributes set before it stay set. */
    method RecupererDonnees(fetched: Response, date: int, choice: nat) returns (shown: Shown)
      requires fetched.hourly.Some? && fetched.hourly.value.time.Some? ==>
                 var hours := HoursOfDay(fetched.hourly.value.time.value, date);
                 hours != [] ==> choice < |hours|
      modifies this`dateSelectionnee, this`heureSelectionnee, this`indexHoraire, this`response
      ensures response == Some(fetched) && lat == old(lat) && lon == old(lon)
      ensures fetched.hourly.None? ==>
                shown == ErrorBox(KeyError("hourly"))
                && dateSelectionnee == old(dateSelectionnee) && heureSelectionnee == old(heureSelectionnee)
                && indexHoraire == old(indexHoraire)
      ensures fetched.hourly.Some? && fetched.hourly.value.time.None? ==>
                shown == ErrorBox(KeyError("time"))
                && dateSelectionnee == old(dateSelectionnee) && heureSelectionnee == old(heureSelectionnee)
                && indexHoraire == old(indexHoraire)
      ensures fetched.hourly.Some? && fetched.hourly.value.time.Some? ==>
                var times := fetched.hourly.value.time.value;
                var hours := HoursOfDay(times, date);
                dateSelectionnee == Some(date)
                && (hours == [] ==>
                      shown == NoDataWarning
                      && heureSelectionnee == old(heureSelectionnee) && indexHoraire == old(indexHoraire))
                && (hours != [] ==>
                      heureSelectionnee == Some(hours[choice])
                      && indexHoraire.Some? && indexHoraire.value < |times|
                      && times[indexHoraire.value] == hours[choice]
                      && times[indexHoraire.value].date == date
                      && Some(indexHoraire.value) == PyList.IndexOf(times, hours[choice])
                      && (match Table(fetched.hourly.value.fields, indexHoraire.value)
                          case Success(rows) => shown == ShownTable(rows)
                          case Failure(e) => shown == ErrorBox(e)))
    {
      response := Some(fetched);
      if fetched.hourly.None? {
        return ErrorBox(KeyError("hourly"));
      }
      if fetched.hourly.value.time.None? {
        return ErrorBox(KeyError("time"));
      }
      var heuresDisponibles := fetched.hourly.value.time.value;
      dateSelectionnee := Some(date);
      var heuresDuJour := HoursOfDay(heuresDisponibles, date);
      if heuresDuJour != [] {
        var heure := heuresDuJour[choice];
        heureSelectionnee := Some(heure);
        SelectedIndex(heuresDisponibles, date, heure);
        indexHoraire := Some(PyList.IndexOf(heuresDisponibles, heure).value);
        var table := AfficherMeteo();
        match table
        case Success(rows) => shown := ShownTable(rows);
        case Failure(e) => shown := ErrorBox(e);
      } else {
        shown := NoDataWarning;
      }
    }
  }
}
