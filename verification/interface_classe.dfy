/** `AffichageMeteo` of streamlit_en_classe.py: the class-per-task front
    end. Unlike the object-oriented one it catches nothing, so every error
    on the way leaves `afficher` as an exception. The answer, the chosen
    date and the position chosen in the hour box are inputs. */
module InterfaceClasse {
  import opened Wrappers
  import PyList
  import opened Meteo
  import InterfacePoo

  /** What `afficher` returns, `(date_selectionnee, heure_selectionnee)` or
      `(None, None)`, with the table it showed (empty when none). */
  datatype Selection = Selection(date: Option<int>, hour: Option<Stamp>, table: seq<Row>)

  class AffichageMeteo {
    var lat: real
    var lon: real
    var reponse: InterfacePoo.Response

    constructor (lat: real, lon: real, reponse: InterfacePoo.Response)
      ensures this.lat == lat && this.lon == lon && this.reponse == reponse
    {
      this.lat := lat;
      this.lon := lon;
      this.reponse := reponse;
    }

    /** `afficher` given the chosen date and the position of the chosen hour:
        the hours of that date, the index of the chosen one in the full list,
        the rows for 10, 80, 120 and 180 m sorted from the highest down. */
    method Afficher(date: int, choice: nat) returns (r: Result<Selection, WeatherError>)
      requires reponse.hourly.Some? && reponse.hourly.value.time.Some? ==>
                 var hours := HoursOfDay(reponse.hourly.value.time.value, date);
                 hours != [] ==> choice < |hours|
      ensures reponse.hourly.None? ==> r == Failure(KeyError("hourly"))
      ensures reponse.hourly.Some? && reponse.hourly.value.time.None? ==> r == Failure(KeyError("time"))
      ensures reponse.hourly.Some? && reponse.hourly.value.time.Some? ==>
                var times := reponse.hourly.value.time.value;
                var hours := HoursOfDay(times, date);
                (hours == [] ==> r == Success(Selection(None, None, [])))
                && (hours != [] ==>
                      PyList.IndexOf(times, hours[choice]).Some?
                      && var index := PyList.IndexOf(times, hours[choice]).value;
                         times[index] == hours[choice] && times[index].date == date
                         && match Table(reponse.hourly.value.fields, index)
                            case Success(rows) => r == Success(Selection(Some(date), Some(hours[choice]), rows))
                            case Failure(e) => r == Failure(e))
      ensures r.Success? && r.value.hour.Some? ==>
                |r.value.table| == 4 && r.value.table[0].altitude == 180 && r.value.table[1].altitude == 120
                && r.value.table[2].altitude == 80 && r.value.table[3].altitude == 10
    {
      if reponse.hourly.None? {
        return Failure(KeyError("hourly"));
      }
      if reponse.hourly.value.time.None? {
        return Failure(KeyError("time"));
      }
      var heuresDisponibles := reponse.hourly.value.time.value;
      var heuresDuJour := HoursOfDay(heuresDisponibles, date);
      if heuresDuJour == [] {
        return Success(Selection(None, None, []));
      }
      var heure := heuresDuJour[choice];
      SelectedIndex(heuresDisponibles, date, heure);
      var indexHoraire := PyList.IndexOf(heuresDisponibles, heure).value;
      var fields := reponse.hourly.value.fields;
      var rows := BuildRows(fields, indexHoraire);
      TableOrder(fields, indexHoraire);
      if rows.Failure? {
        return Failure(rows.error);
      }
      r := Success(Selection(Some(date), Some(heure), SortByAltitude(rows.value)));
    }
  }
}
