/** The wind field: Open-Meteo samples at four altitudes, converted to
    m/s and interpolated onto the descent's altitude profile
    (`ImportVent` in importer_vent.py, duplicated as
    trajectoire_colis/recuperateur_meteo.py). */
module Vent {
  import opened Wrappers
  import opened PyList
  import opened Vectors
  import Interp

  /** The altitudes (m) for which the forecast is requested, ascending. */
  const AltitudesApi: seq<nat> := [10, 80, 120, 180]

  /** The same altitudes as the abscissae handed to `np.interp`. */
  const SampleAltitudes: seq<real> := [10.0, 80.0, 120.0, 180.0]

  /** The decoded JSON answer of the forecast service. `hourly` is absent
      when the service answers without it; each field holds one value per
      hour, `None` standing for a JSON null. */
  datatype Forecast = Forecast(hourly: Option<map<string, seq<Option<real>>>>)

  /** What the Python code raises while reading the answer. */
  datatype WindError =
    | KeyError(key: string)   // `data['hourly']` or a field is missing
    | IndexError              // `hour_index` outside the field's list
    | TypeError               // arithmetic on a null value

  /** The defaults of `N` (time steps) and `z0` (release altitude, m). */
  const DefaultSteps: nat := 31
  const DefaultZ0: real := 1200.0

  /** The arguments of `ImportVent.__init__`. */
  datatype Config = Config(lat: real, lon: real, hourIndex: int, n: int, z0: real)

  /** The wind field: row 0 holds vx, row 1 holds vy, one column per step. */
  datatype WindField = WindField(vx: seq<real>, vy: seq<real>)

  /** The columns W[:, k] of the wind field. */
  function Columns(w: WindField): (cols: seq<Vec>)
    requires |w.vx| == |w.vy|
    ensures |cols| == |w.vx|
    ensures forall k :: 0 <= k < |cols| ==> cols[k] == Vec(w.vx[k], w.vy[k])
  {
    seq(|w.vx|, k requires 0 <= k < |w.vx| => Vec(w.vx[k], w.vy[k]))
  }

  /** The four values `import_vent` returns: W, z_t, time and the raw data. */
  datatype VentOutput = VentOutput(w: WindField, zt: seq<real>, time: seq<real>, data: Forecast)

  function DigitChar(d: nat): char
    requires d < 10
  {
    "0123456789"[d]
  }

  function NatToString(n: nat): string
    decreases n
  {
    if n < 10 then [DigitChar(n)] else NatToString(n / 10) + [DigitChar(n % 10)]
  }

  function SpeedKey(a: nat): string { "wind_speed_" + NatToString(a) + "m" }

  function DirectionKey(a: nat): string { "wind_direction_" + NatToString(a) + "m" }

  /** km/h to m/s, as `speed_kmh * 1000 / 3600`: one m/s is 3.6 km/h. */
  function KmhToMs(speedKmh: real): (speedMs: real)
    ensures speedMs * 3.6 == speedKmh
    ensures speedKmh >= 0.0 ==> 0.0 <= speedMs <= speedKmh
  {
    speedKmh * 1000.0 / 3600.0
  }

  /** `convert_to_vx_vy`: the m/s speed along the direction's (sin, cos)
      pair. The trigonometry is the parameter `sinCos`, which maps a
      direction in degrees to (sin, cos) of that angle. */
  function ConvertToVxVy(speedKmh: real, directionDeg: real, sinCos: real -> (real, real)): (v: Vec)
    ensures v.x * 3.6 == speedKmh * sinCos(directionDeg).0
    ensures v.y * 3.6 == speedKmh * sinCos(directionDeg).1
  {
    var speedMs := KmhToMs(speedKmh);
    Vec(speedMs * sinCos(directionDeg).0, speedMs * sinCos(directionDeg).1)
  }

  /** `data['hourly'][key][hour_index]`: no default anywhere. */
  function ReadHourly(data: Forecast, key: string, hourIndex: int): (r: Result<Option<real>, WindError>)
    ensures data.hourly.None? ==> r == Failure(KeyError("hourly"))
    ensures data.hourly.Some? && key !in data.hourly.value ==> r == Failure(KeyError(key))
    ensures r.Success? <==>
      data.hourly.Some? && key in data.hourly.value
      && -|data.hourly.value[key]| <= hourIndex < |data.hourly.value[key]|
    ensures r.Success? ==> Index(data.hourly.value[key], hourIndex) == Some(r.value)
  {
    if data.hourly.None? then Failure(KeyError("hourly"))
    else if key !in data.hourly.value then Failure(KeyError(key))
    else match Index(data.hourly.value[key], hourIndex)
      case None => Failure(IndexError)
      case Some(value) => Success(value)
  }

  /** One pass of the sampling loop for altitude a: read the speed, then the
      direction, then convert; the first failure is the one raised. */
  function SampleAltitude(data: Forecast, a: nat, hourIndex: int, sinCos: real -> (real, real)): (r: Result<Vec, WindError>)
    ensures r.Success? <==>
      ReadHourly(data, SpeedKey(a), hourIndex).Success?
      && ReadHourly(data, DirectionKey(a), hourIndex).Success?
      && ReadHourly(data, SpeedKey(a), hourIndex).value.Some?
      && ReadHourly(data, DirectionKey(a), hourIndex).value.Some?
    ensures ReadHourly(data, SpeedKey(a), hourIndex).Failure? ==>
      r == Failure(ReadHourly(data, SpeedKey(a), hourIndex).error)
    ensures r.Success? ==>
      r.value == ConvertToVxVy(ReadHourly(data, SpeedKey(a), hourIndex).value.value,
                               ReadHourly(data, DirectionKey(a), hourIndex).value.value, sinCos)
  {
    match ReadHourly(data, SpeedKey(a), hourIndex)
    case Failure(e) => Failure(e)
    case Success(speed) =>
      match ReadHourly(data, DirectionKey(a), hourIndex)
      case Failure(e) => Failure(e)
      case Success(direction) =>
        if speed.None? || direction.None? then Failure(TypeError)
        else Success(ConvertToVxVy(speed.value, direction.value, sinCos))
  }

  /** The profiles the loop builds over the altitude list `alts`, in order:
      both component lists, or the failure of the first altitude that fails. */
  function Profiles(data: Forecast, alts: seq<nat>, hourIndex: int, sinCos: real -> (real, real)): Result<WindField, WindError>
    decreases |alts|
  {
    if alts == [] then Success(WindField([], []))
    else
      match Profiles(data, alts[..|alts| - 1], hourIndex, sinCos)
      case Failure(e) => Failure(e)
      case Success(p) =>
        match SampleAltitude(data, alts[|alts| - 1], hourIndex, sinCos)
        case Failure(e) => Failure(e)
        case Success(v) => Success(WindField(p.vx + [v.x], p.vy + [v.y]))
  }

  /** The profiles exist exactly when every altitude can be sampled, and then
      entry j of each list is altitude j's component; otherwise the error is
      that of the first altitude that fails. */
  lemma {:induction false} ProfilesMeaning(data: Forecast, alts: seq<nat>, hourIndex: int, sinCos: real -> (real, real))
    ensures Profiles(data, alts, hourIndex, sinCos).Success? <==>
      forall j :: 0 <= j < |alts| ==> SampleAltitude(data, alts[j], hourIndex, sinCos).Success?
    ensures Profiles(data, alts, hourIndex, sinCos).Success? ==>
      var p := Profiles(data, alts, hourIndex, sinCos).value;
      |p.vx| == |alts| && |p.vy| == |alts|
      && forall j :: 0 <= j < |alts| ==>
           SampleAltitude(data, alts[j], hourIndex, sinCos) == Success(Vec(p.vx[j], p.vy[j]))
    ensures Profiles(data, alts, hourIndex, sinCos).Failure? ==>
      exists j :: 0 <= j < |alts|
        && SampleAltitude(data, alts[j], hourIndex, sinCos) == Failure(Profiles(data, alts, hourIndex, sinCos).error)
        && forall i :: 0 <= i < j ==> SampleAltitude(data, alts[i], hourIndex, sinCos).Success?
    decreases |alts|
  {
    if alts != [] {
      var init := alts[..|alts| - 1];
      ProfilesMeaning(data, init, hourIndex, sinCos);
      assert forall j :: 0 <= j < |init| ==> init[j] == alts[j];
    }
  }

  /** The sampling loop of `ImportVent.import_vent`: one speed and one
      direction read per altitude, ascending, at the same hour index,
      appended to the two profile lists. */
  method SampleProfiles(data: Forecast, hourIndex: int, sinCos: real -> (real, real)) returns (r: Result<WindField, WindError>)
    ensures r == Profiles(data, AltitudesApi, hourIndex, sinCos)
  {
    var vxProfiles: seq<real> := [];
    var vyProfiles: seq<real> := [];
    var j := 0;
    while j < |AltitudesApi|
      invariant 0 <= j <= |AltitudesApi|
      invariant Profiles(data, AltitudesApi[..j], hourIndex, sinCos) == Success(WindField(vxProfiles, vyProfiles))
    {
      var a := AltitudesApi[j];
      assert AltitudesApi[..j + 1][..j] == AltitudesApi[..j];
      var speed := ReadHourly(data, SpeedKey(a), hourIndex);
      if speed.Failure? {
        assert SampleAltitude(data, a, hourIndex, sinCos) == Failure(speed.error);
        PrefixFailure(data, AltitudesApi, j + 1, hourIndex, sinCos);
        return Failure(speed.error);
      }
      var direction := ReadHourly(data, DirectionKey(a), hourIndex);
      if direction.Failure? {
        assert SampleAltitude(data, a, hourIndex, sinCos) == Failure(direction.error);
        PrefixFailure(data, AltitudesApi, j + 1, hourIndex, sinCos);
        return Failure(direction.error);
      }
      if speed.value.None? || direction.value.None? {
        assert SampleAltitude(data, a, hourIndex, sinCos) == Failure(TypeError);
        PrefixFailure(data, AltitudesApi, j + 1, hourIndex, sinCos);
        return Failure(TypeError);
      }
      var v := ConvertToVxVy(speed.value.value, direction.value.value, sinCos);
      assert SampleAltitude(data, a, hourIndex, sinCos) == Success(v);
      vxProfiles := vxProfiles + [v.x];
      vyProfiles := vyProfiles + [v.y];
      j := j + 1;
    }
    assert AltitudesApi[..j] == AltitudesApi;
    r := Success(WindField(vxProfiles, vyProfiles));
  }

  /** Once a prefix of the altitude list fails, the whole list fails the same way. */
  lemma {:induction false} PrefixFailure(data: Forecast, alts: seq<nat>, k: nat, hourIndex: int, sinCos: real -> (real, real))
    requires k <= |alts| && Profiles(data, alts[..k], hourIndex, sinCos).Failure?
    ensures Profiles(data, alts, hourIndex, sinCos) == Profiles(data, alts[..k], hourIndex, sinCos)
    decreases |alts| - k
  {
    if k < |alts| {
      assert alts[..k + 1][..k] == alts[..k];
      PrefixFailure(data, alts, k + 1, hourIndex, sinCos);
    } else {
      assert alts[..k] == alts;
    }
  }

  /** The sample altitudes are four strictly increasing heights. */
  lemma SampleAltitudesIncreasing()
    ensures |SampleAltitudes| == 4
    ensures Interp.StrictlyIncreasing(SampleAltitudes)
  {}

  /** The field for a given profile: `np.interp` of each component over z_t. */
  function Interpolated(zt: seq<real>, p: WindField): (w: WindField)
    requires |p.vx| == 4 && |p.vy| == 4
    ensures |w.vx| == |zt| && |w.vy| == |zt|
  {
    SampleAltitudesIncreasing();
    WindField(Interp.InterpEach(zt, SampleAltitudes, p.vx), Interp.InterpEach(zt, SampleAltitudes, p.vy))
  }

  /** What `ImportVent(cfg).import_vent()` returns, given the forecast the
      service sent and the time and altitude profiles. */
  function ImportVentResult(cfg: Config, data: Forecast, zt: seq<real>, time: seq<real>, sinCos: real -> (real, real)): (r: Result<VentOutput, WindError>)
    ensures r.Failure? ==> Profiles(data, AltitudesApi, cfg.hourIndex, sinCos) == Failure(r.error)
    ensures r.Success? ==> |r.value.w.vx| == |zt| && |r.value.w.vy| == |zt|
    ensures r.Success? ==> r.value.zt == zt && r.value.time == time && r.value.data == data
  {
    match Profiles(data, AltitudesApi, cfg.hourIndex, sinCos)
    case Failure(e) => Failure(e)
    case Success(p) =>
      ProfilesMeaning(data, AltitudesApi, cfg.hourIndex, sinCos);
      Success(VentOutput(Interpolated(zt, p), zt, time, data))
  }

  /** `ImportVent.import_vent`. The forecast (the HTTP answer) and the
      profiles `time` and `z_t` (closed-form physics) are inputs. On success
      W has two rows of one entry per altitude of z_t. */
  method ImportVent(cfg: Config, data: Forecast, zt: seq<real>, time: seq<real>, sinCos: real -> (real, real))
    returns (r: Result<VentOutput, WindError>)
    ensures r == ImportVentResult(cfg, data, zt, time, sinCos)
    ensures r.Success? <==>
      forall j :: 0 <= j < 4 ==> SampleAltitude(data, AltitudesApi[j], cfg.hourIndex, sinCos).Success?
    ensures r.Success? ==> |r.value.w.vx| == |zt| && |r.value.w.vy| == |zt| && r.value.zt == zt
  {
    ProfilesMeaning(data, AltitudesApi, cfg.hourIndex, sinCos);
    var profiles := SampleProfiles(data, cfg.hourIndex, sinCos);
    if profiles.Failure? {
      return Failure(profiles.error);
    }
    var w := Interpolated(zt, profiles.value);
    r := Success(VentOutput(w, zt, time, data));
  }

  /** At an altitude of z_t equal to sample altitude j the field is exactly
      that sample; at or below 10 m it is the 10 m sample, at or above 180 m
      the 180 m sample; in between it lies between its two neighbours. */
  lemma WindFieldProperties(zt: seq<real>, p: WindField, k: nat)
    requires |p.vx| == 4 && |p.vy| == 4 && k < |zt|
    ensures forall j :: 0 <= j < 4 && zt[k] == SampleAltitudes[j] ==>
      Interpolated(zt, p).vx[k] == p.vx[j] && Interpolated(zt, p).vy[k] == p.vy[j]
    ensures zt[k] <= 10.0 ==> Interpolated(zt, p).vx[k] == p.vx[0] && Interpolated(zt, p).vy[k] == p.vy[0]
    ensures zt[k] >= 180.0 ==> Interpolated(zt, p).vx[k] == p.vx[3] && Interpolated(zt, p).vy[k] == p.vy[3]
    ensures forall j :: 0 <= j < 3 && SampleAltitudes[j] <= zt[k] <= SampleAltitudes[j + 1] ==>
      Interp.Min(p.vx[j], p.vx[j + 1]) <= Interpolated(zt, p).vx[k] <= Interp.Max(p.vx[j], p.vx[j + 1])
      && Interp.Min(p.vy[j], p.vy[j + 1]) <= Interpolated(zt, p).vy[k] <= Interp.Max(p.vy[j], p.vy[j + 1])
  {
    SampleAltitudesIncreasing();
    var w := Interpolated(zt, p);
    forall j | 0 <= j < 4 && zt[k] == SampleAltitudes[j]
      ensures w.vx[k] == p.vx[j] && w.vy[k] == p.vy[j]
    {
      Interp.InterpAtNode(SampleAltitudes, p.vx, j);
      Interp.InterpAtNode(SampleAltitudes, p.vy, j);
    }
    if zt[k] <= 10.0 {
      Interp.InterpBelow(zt[k], SampleAltitudes, p.vx);
      Interp.InterpBelow(zt[k], SampleAltitudes, p.vy);
    }
    if zt[k] >= 180.0 {
      Interp.InterpAbove(zt[k], SampleAltitudes, p.vx);
      Interp.InterpAbove(zt[k], SampleAltitudes, p.vy);
    }
    forall j | 0 <= j < 3 && SampleAltitudes[j] <= zt[k] <= SampleAltitudes[j + 1]
      ensures Interp.Min(p.vx[j], p.vx[j + 1]) <= w.vx[k] <= Interp.Max(p.vx[j], p.vx[j + 1])
      ensures Interp.Min(p.vy[j], p.vy[j + 1]) <= w.vy[k] <= Interp.Max(p.vy[j], p.vy[j + 1])
    {
      Interp.InterpBetween(zt[k], SampleAltitudes, p.vx, j);
      Interp.InterpBetween(zt[k], SampleAltitudes, p.vy, j);
    }
  }

  /** Python's binding of the module-level `import_vent(lat, lon, *positional)`
      to `(hour_index=0, N=31, z0=1200)`: positional arguments fill the
      parameters left to right, the rest keep their defaults; more than three
      is a `TypeError` (None). */
  function BindImportVent(lat: real, lon: real, positional: seq<int>): (cfg: Option<Config>)
    ensures cfg.Some? <==> |positional| <= 3
    ensures cfg.Some? ==> cfg.value.lat == lat && cfg.value.lon == lon
    ensures cfg.Some? ==> cfg.value.hourIndex == (if |positional| >= 1 then positional[0] else 0)
    ensures cfg.Some? ==> cfg.value.n == (if |positional| >= 2 then positional[1] else DefaultSteps)
    ensures cfg.Some? ==> cfg.value.z0 == (if |positional| >= 3 then positional[2] as real else DefaultZ0)
  {
    if |positional| > 3 then None
    else
      Some(Config(lat, lon,
                  if |positional| >= 1 then positional[0] else 0,
                  if |positional| >= 2 then positional[1] else DefaultSteps,
                  if |positional| >= 3 then positional[2] as real else DefaultZ0))
  }

  /** A caller that writes `import_vent(lat, lon, N)` sets the hour index to
      N and keeps the default of 31 time steps, whatever N is. */
  lemma PositionalStepCountIsHourIndex(lat: real, lon: real, n: int)
    ensures BindImportVent(lat, lon, [n]) == Some(Config(lat, lon, n, DefaultSteps, DefaultZ0))
  {}

  /** The module-level `import_vent`: builds the object from the bound
      arguments and returns exactly what its `import_vent` method returns. */
  method ImportVentFunction(lat: real, lon: real, positional: seq<int>, data: Forecast,
                            zt: seq<real>, time: seq<real>, sinCos: real -> (real, real))
    returns (r: Option<Result<VentOutput, WindError>>)
    ensures r.Some? <==> |positional| <= 3
    ensures r.Some? ==> r.value == ImportVentResult(BindImportVent(lat, lon, positional).value, data, zt, time, sinCos)
  {
    var cfg := BindImportVent(lat, lon, positional);
    if cfg.None? {
      return None;
    }
    var out := ImportVent(cfg.value, data, zt, time, sinCos);
    r := Some(out);
  }
}
