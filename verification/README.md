# Parachute guidance: a Dafny model

This project models the core of the guided parcel-drop program (Projet-Final).
A parcel is released under a parachute above a target (lat, lon). The program
has five parts, and each part has its own module here:

- **Wind field** (`Vent`). The program reads the Open-Meteo forecast of wind
  speed and direction at 10, 80, 120 and 180 m for one hour. It converts each
  reading from km/h and degrees into (vx, vy) in m/s. It then interpolates
  both components onto the descent's altitude profile z_t with numpy's
  `interp` (`Interp`).
- **Guidance** (`Convexification`, `SimulationFinale`, `SimulationParachute`).
  Guidance is a two-stage successive-convexification loop. Each iteration
  solves a convex problem (an oracle here), stores the cost and trajectory,
  and normalises the control into the next linearisation reference. The
  convergence test on two consecutive costs first switches to the stage-2
  problem and then commits. The loop runs in two versions:
  - the class `SimulerTrajectoire`, where stage 1 may end from iteration 1;
  - the earlier function `simuler_trajectoire`, where stage 1 may end only
    from iteration 2.
- **Unguided drift** (`Derive`). The unguided descent moves column by column:
  each column adds the wind times dt and a turbulence draw to the previous one.
- **Free fall** (`ChuteLibre`). The short explicit-Euler free fall after
  release stops at the first frame on or below the ground, which is frame 102.
- **Weather table** (`Meteo`, `InterfacePoo`, `InterfaceClasse`). The
  Streamlit front ends show a table with these parts:
  - the linear ISA temperature;
  - the eight-sector compass name of a direction;
  - the hours of the chosen date and their index in the full list;
  - the rows for the four altitudes, sorted from the highest down.
  There are two front ends: one that catches every error and shows it, and
  one that lets errors escape.

Python's own semantics are written out where the code relies on them:

- negative list indices and `IndexError` (`PyList.Index`);
- `list.index` (`PyList.IndexOf`);
- `%` with the sign of the divisor (`Meteo.Mod360`);
- `int()` truncation;
- the truthiness of JSON numbers (`Meteo.Truthy`);
- `dict.get(key, [None])[i]` (`Meteo.GetOrNone`);
- the binding of positional arguments to defaults (`Vent.BindImportVent`);
- `KeyError`, `IndexError`, `TypeError` and `NameError` as `Result`
  failures.

Three facts of the code shape the guidance model:

- **Wind in the dynamics.** The dynamics constraint at simultion_final.py:102
  adds the wind column `W[:, k]` as it is, not scaled by dt, and
  `Convexification.Dynamics` does the same.
- **Hour index.** `import_vent(lat, lon, N)` binds its third positional
  argument N to `hour_index` and keeps the default of 31 steps
  (`Vent.PositionalStepCountIsHourIndex`). Both guidance entry points
  therefore read the forecast at hour N, and an import error propagates
  (`WindImport`).
- **Shapes.** In the class version, `u_bar` is a (2, N) parameter while
  `u_init` has one column per entry of the 31-step profile, so assigning it
  fails unless N = 31 (`ShapeMismatch`). In the function version the
  dynamics read `W[:, k]` for k < N - 1, which fails when N - 1 exceeds
  the 31 columns of W (`WindIndex`).

## Model

| member | source | states |
|---|---|---|
| PyList.Index | trajectoire_colis/simulation_trajectoire_parachute.py:139 | Python indexing: succeeds exactly for -len <= i < len; a non-negative index reads s[i], a negative one reads s[len + i] |
| PyList.IndexOf | streamlit_en_POO.py:216 | `list.index`: defined exactly when x occurs; the position holds x, and no earlier position does |
| Vectors.SquaredDistance | simultion_final.py:147-152 | the squared landing error is non-negative and zero when the point is on the target |
| Vent.Columns | importer_vent.py:97 | W has one column per entry; column k is (vx[k], vy[k]) |
| Vent.KmhToMs | importer_vent.py:53 | one m/s is 3.6 km/h; a non-negative speed shrinks and stays non-negative |
| Vent.ConvertToVxVy | importer_vent.py:49-55 | each component is the speed in m/s times sin or cos of the direction (3.6 v = speed * sin/cos) |
| Vent.ReadHourly | importer_vent.py:88-89 | `data['hourly'][key][hour_index]`: KeyError on the missing `hourly` or the missing field; success exactly when the index is in Python range, with the indexed value |
| Vent.SampleAltitude | trajectoire_colis/recuperateur_meteo.py:103-105 | one altitude samples exactly when both reads succeed and both values are non-null; the speed's error comes first; the value is the converted vector |
| Vent.ProfilesMeaning | importer_vent.py:85-92 | the profiles exist exactly when every altitude samples; then entry j is altitude j's vector; otherwise the error is that of the first failing altitude, all earlier ones succeeding |
| Vent.PrefixFailure | trajectoire_colis/recuperateur_meteo.py:100-107 | once an altitude fails, the loop's result is that failure whatever follows |
| Vent.Profiles | importer_vent.py:85-92 | the definition of the sampling loop: one vector per altitude in order, stopping at the first altitude that fails |
| Vent.SampleProfiles | trajectoire_colis/recuperateur_meteo.py:100-107 | the sampling loop returns exactly the profiles over 10, 80, 120, 180 m, or the first error |
| Vent.Interpolated | importer_vent.py:94-95 | both rows of W have one entry per altitude of z_t |
| Vent.ImportVentResult | importer_vent.py:57-98 | a failure is the sampling error; a success returns z_t and time unchanged and W interpolated from the four samples, with the configured hour index |
| Vent.ImportVent | importer_vent.py:57-98 | `import_vent` succeeds exactly when all four altitudes sample; W then matches z_t in length and z_t is returned unchanged |
| Vent.WindFieldProperties | trajectoire_colis/recuperateur_meteo.py:109-110 | at a sample altitude W is that sample; at or below 10 m the 10 m sample, at or above 180 m the 180 m sample; between two samples it lies between them |
| Vent.BindImportVent | importer_vent.py:101-105 | positional arguments fill hour_index, N, z0 in order, the rest keep 0, 31, 1200; more than three is an error |
| Vent.PositionalStepCountIsHourIndex | simultion_final.py:74 | `import_vent(lat, lon, N)` sets the hour index to N and keeps 31 steps |
| Vent.ImportVentFunction | trajectoire_colis/recuperateur_meteo.py:116-134 | the module-level function returns what `ImportVent` returns for the bound arguments |
| Interp.Interp | importer_vent.py:94-95 | the definition of scalar `np.interp` on increasing abscissae: clamped to the end samples outside, linear blend between neighbours |
| Interp.InterpEach | importer_vent.py:94-95 | `np.interp` on an array: one value per abscissa, each the scalar interpolation |
| Interp.InterpBelow | importer_vent.py:94 | at or below the first abscissa the first sample is returned |
| Interp.InterpAbove | importer_vent.py:95 | at or above the last abscissa the last sample is returned (no extrapolation) |
| Interp.InterpBetween | trajectoire_colis/recuperateur_meteo.py:109 | between samples i and i + 1 the value is their linear blend and lies between them |
| Interp.InterpAtNode | trajectoire_colis/recuperateur_meteo.py:110 | at a sample abscissa the sample itself is returned |
| Convexification.IterateMeaning | simultion_final.py:121-145 | a committed result has stage 1 ended at the first passing test at or after the earliest allowed iteration, stage 2 at the next (later) passing test, the trajectory of that iteration committed, feasible for the stage-2 problem and with its cost stored; a failure is a solver failure after i stored iterations, or 50 costs with no second passing test |
| Convexification.Dynamics | simultion_final.py:102-103 | the definition: x_{k+1} = x_k + dt/2 (u_k + u_{k+1}) + W[:, k] for k < N - 1 |
| Convexification.TurnRate | simultion_final.py:104 | the definition: the squared change of u between k and k + 1, over dt and v_k, is at most 0.14 squared |
| Convexification.Heading | simultion_final.py:105 | the definition: u_bar_k . u_k - v_k >= -eps_h in every column |
| Convexification.SpeedCone | simultion_final.py:106 | the definition: |u_k| <= v_k + eps_h in every column, stated squared |
| Convexification.Feasible | simultion_final.py:101-106 | the definition: x_0 and u_0 fixed, dynamics, turn rate, heading and cone, eps_h >= 0 and pinned to 0.1 in stage 1, final_position the distance from the last column to the target (stated squared) |
| Convexification.Cost | simultion_final.py:108-112 | the definition: 100 final_position + 10 (2 - u_y / abs(v) in the last column) + the sum over k of (abs(u_{k+1} - u_k) / v_k)^2 / dt, plus eps_h once stage 2 has augmented the cost |
| Convexification.Iterate | simultion_final.py:114-138 | the reference definition of the two-stage loop: solve, fail on no solution, store, test two consecutive costs, switch stage or commit, stop after 50 |
| Convexification.Record | simultion_final.py:128-129 | in place: slot i of X and of it_cost hold the new trajectory and cost, every other slot unchanged |
| Convexification.InitialReferenceIsHeading | simultion_final.py:96-99 | with positive speeds the starting reference u_init / norms is the unit heading (1, 0) in every column |
| Convexification.Clamped | simultion_final.py:98 | the clamped norm is never zero and equals any non-zero norm |
| Convexification.ClampZeroNorms | simultion_final.py:97-98 | in place: every entry becomes its clamp, so no entry is zero |
| SimulationFinale.SolveLoop | simultion_final.py:114-138 | the loop (arrays, flags, break) computes exactly the reference iteration with stage 1 allowed from i > 0 |
| SimulationFinale.SimulerTrajectoire.constructor | simultion_final.py:28-53 | z0 = 1200, psi_0 = 0, release point = target plus the two random offsets, no results yet |
| SimulationFinale.SimulerTrajectoire.CalculErreur | simultion_final.py:147-152 | defined exactly once x_star and the target exist; non-negative; zero when the last column is the target |
| SimulationFinale.SimulerTrajectoire.Optimise | simultion_final.py:95-145 | after the import and the shape check: the result is the reference iteration with stage 1 from i = 1; on commit x_star, target and n_iter are stored; on failure they are unchanged |
| SimulationFinale.SimulerTrajectoire.Continue | simultion_final.py:75-99 | time and z_t are stored; N different from the 31 columns of u_init is a shape error with no result attribute changed; otherwise the iteration's result |
| SimulationFinale.SimulerTrajectoire.OptimiserTrajectoire | simultion_final.py:69-145 | the import at hour index N: its error is returned and no attribute changes; otherwise time and z_t are stored, N different from the 31 columns of u_init is a shape error, and else the result is the iteration with stage 1 allowed from i = 1: on commit x_star, n_iter and target stored, landing = last column, the returned error = `calcul_erreur`; on failure the failure meaning and no result attribute changed |
| SimulationParachute.Linspace | trajectoire_colis/simulation_trajectoire_parachute.py:68-70 | `np.linspace`: num values, first = start, last = stop, evenly spaced |
| SimulationParachute.ColumnNorms | trajectoire_colis/simulation_trajectoire_parachute.py:91 | the column norms of (v, 0) are abs(v[k]) |
| SimulationParachute.InitialIsHeading | trajectoire_colis/simulation_trajectoire_parachute.py:91-92 | with positive speeds no norm is zero and the starting reference is (1, 0) in every column |
| SimulationParachute.StageLoop | trajectoire_colis/simulation_trajectoire_parachute.py:121-155 | the loop, including the `it_cost[-1]` read at i = 0, computes exactly the reference iteration with stage 1 allowed only from i > 1 |
| SimulationParachute.Guide | trajectoire_colis/simulation_trajectoire_parachute.py:68-235 | no starting norm is zero, and the result is the reference iteration with stage 1 from i = 2: commit meaning, landing, squared error, z_t and time = linspace(0, tf, N); or the failure meaning |
| SimulationParachute.SimulerTrajectoireParachute | trajectoire_colis/simulation_trajectoire_parachute.py:23-235 | the import at hour index N: its error is returned; N - 1 beyond the columns of W is an index error; otherwise the result is the iteration with stage 1 allowed from i = 2, with the commit and failure meanings, landing = last column of x_star, error = its squared distance to (lat, lon), z_t the import's, time = linspace(0, tf, N) |
| Derive.ZeroNoiseClosedForm | trajectoire_pas_optimise.py:57-62 | without turbulence column k is x_0 + dt (W[:, 0] + ... + W[:, k - 1]) |
| Derive.ColumnReadsPrefix | trajectoire_pas_optimise.py:57-59 | column k depends only on the first k wind columns and draws, so W[:, N - 1] is never read |
| Derive.Column | trajectoire_pas_optimise.py:57-62 | the definition of the recurrence: column 0 is x_0, column k is column k - 1 plus W[:, k - 1] dt plus draw k |
| Derive.FillColumns | trajectoire_pas_optimise.py:54-62 | in place: columns written in order up to min(N, len W + 1), each the wind-plus-noise recurrence; IndexError exactly when N exceeds len W + 1; the rest stay zero |
| Derive.ChuteParachuteSimple.constructor | trajectoire_pas_optimise.py:11-28 | the fields of `__init__`, release point (lat + 1000, lon + 1000), the imported W, z_t and time |
| Derive.ChuteParachuteSimple.SimulerTrajectoire | trajectoire_pas_optimise.py:48-62 | IndexError with fewer than two times, ValueError for negative N, IndexError for N = 0, otherwise a fresh 2 x N array filled as `FillColumns` states with dt = time[1] - time[0] |
| Derive.NewChuteParachuteSimple | trajectoire_pas_optimise.py:11-35 | construction ends with the rollout; with enough times and wind columns it succeeds and every column follows the recurrence from x_0 |
| ChuteLibre.Step | chute_livre.py:60-64 | the definition of one Euler step: x moves by v0x dt, z by the old vz times dt, then vz loses g dt |
| ChuteLibre.After | chute_livre.py:60-64 | the definition: n Euler steps from x = 0, z = 100, vz = 5 |
| ChuteLibre.AfterClosedForm | chute_livre.py:60-64 | after n steps x = 0.25 n, vz = 5 - 0.4905 n, z = 100 + 0.25 n - 0.024525 n (n - 1) / 2 |
| ChuteLibre.XIncreasing | chute_livre.py:62 | the horizontal position strictly increases with the step count |
| ChuteLibre.GroundAtStep102 | chute_livre.py:82-83 | z stays positive for the first 101 steps and is at or below ground after 102 |
| ChuteLibre.Chute.constructor | chute_livre.py:12-30 | the constants, x = 0, z = 100, vz = 5, histories [0] and [100] |
| ChuteLibre.Chute.UpdateSystem | chute_livre.py:60-67 | one Euler step (z moves by the old vz), one entry appended to each history, the histories still matching the closed trajectory |
| ChuteLibre.Chute.RunSimulation | chute_livre.py:69-96 | the animation stops after exactly 102 frames with z <= 0, every earlier height positive |
| Meteo.TemperatureStandard | streamlit_en_POO.py:52-64 | 288.15 K at sea level, colder above, warmer below |
| Meteo.TemperatureDecreasing | streamlit_en_classe.py:16-19 | the temperature is higher exactly at the lower altitude, with slope -0.0065 K/m |
| Meteo.Mod360 | streamlit_en_POO.py:95 | Python's `% 360` lies in [0, 360) and differs from its argument by a whole number of turns |
| Meteo.SectorIndex | streamlit_en_classe.py:34 | the index is 0..7 and the shifted remainder lies in [45 i, 45 (i + 1)) |
| Meteo.SectorIndexMeaning | streamlit_en_POO.py:95 | sector i holds exactly the angles whose shifted remainder lies in [45 i, 45 (i + 1)) |
| Meteo.AngleToDirection | trajectoire_colis/Streamlit.py:68-79 | the result is one of the eight compass names |
| Meteo.Mod360Periodic | trajectoire_colis/Streamlit.py:78 | adding 360 does not change the remainder |
| Meteo.DirectionPeriodic | streamlit_en_classe.py:32-35 | adding a full turn does not change the sector or the name |
| Meteo.BoundaryGoesToNextSector | trajectoire_colis/Streamlit.py:77-79 | the boundary 45 k + 22.5 belongs to the following sector |
| Meteo.KnownDirections | streamlit_en_POO.py:94-96 | 0 is Nord, 22.5 Nord-Est, 90 Est, 180 Sud, 270 Ouest, 350 Nord |
| Meteo.HoursOfDay | streamlit_en_classe.py:79 | no more hours than the full list, and an hour is kept exactly when it is in the full list on the chosen date |
| Meteo.HoursOfDayAppend | streamlit_en_POO.py:212 | the filter distributes over concatenation, so it keeps the order of the full list and every repetition of a kept hour |
| Meteo.HoursOfDaySingle | streamlit_en_classe.py:79 | a single hour is kept exactly when it falls on the chosen date |
| Meteo.SelectedIndex | streamlit_en_classe.py:83 | the index of a chosen hour exists, is its first position, and has the chosen date |
| Meteo.GetOrNone | streamlit_en_POO.py:234-235 | a present field is indexed the Python way; a missing one reads None at index 0 or -1 and raises IndexError elsewhere |
| Meteo.MakeRow | streamlit_en_POO.py:233-244 | a row exists exactly when both reads succeed; it carries the altitude, the speed read when truthy and None otherwise, the direction read when truthy and None otherwise, a compass name exactly when the direction is kept, namely the name of that direction, and the ISA temperature in Celsius |
| Meteo.RowsMeaning | streamlit_en_classe.py:88-99 | rows exist exactly when every altitude's row does, one per altitude in order; the only failure is IndexError |
| Meteo.RowsOf | streamlit_en_POO.py:230-244 | the definition of the row loop: one row per altitude in order, stopping at the first row that fails |
| Meteo.MissingFieldRaises | streamlit_en_classe.py:89-90 | a missing speed field read at an hour index above 0 raises IndexError |
| Meteo.BuildRows | streamlit_en_POO.py:230-244 | the loop returns exactly the rows for 10, 80, 120, 180 m, or the first error |
| Meteo.InsertSorted | streamlit_en_POO.py:246 | inserting into a descending list keeps it descending and adds exactly that row |
| Meteo.SortByAltitudeSorted | streamlit_en_classe.py:101 | the sort is descending by altitude and a permutation of its input |
| Meteo.SortByAltitude | streamlit_en_POO.py:246 | the definition: insertion sort by altitude, highest first |
| Meteo.SortedTableOrder | streamlit_en_POO.py:246 | the rows built for 10, 80, 120, 180 come out reversed |
| Meteo.TableOrder | streamlit_en_classe.py:85-101 | the table exists exactly when all four rows do, and then reads 180, 120, 80, 10 m |
| Meteo.Table | streamlit_en_POO.py:230-246 | the definition: the rows for 10, 80, 120, 180 m, then sorted |
| InterfacePoo.InterfaceStreamlit.constructor | streamlit_en_POO.py:41-50 | every attribute starts as None |
| InterfacePoo.InterfaceStreamlit.AfficherMeteo | streamlit_en_POO.py:225-246 | the table at the stored hour index, four rows from 180 m down |
| InterfacePoo.InterfaceStreamlit.RecupererDonnees | streamlit_en_POO.py:188-223 | the answer is stored first; a missing `hourly` or `time` shows the error box with the date, hour and index unchanged; otherwise the date is stored; no hour on it shows the warning; else the hour and its first index are stored and the table or its error is shown |
| InterfaceClasse.AffichageMeteo.constructor | streamlit_en_classe.py:64-68 | the position and the answer are stored |
| InterfaceClasse.AffichageMeteo.Afficher | streamlit_en_classe.py:70-130 | a missing `hourly` or `time` escapes as KeyError; no hour on the date gives (None, None); else the date, the chosen hour (found at its index, on that date) and the sorted table, or the table's error |

## Left out

- HTTP requests, JSON decoding and `datetime.fromisoformat` are not modelled. The decoded answer is an input, and times are already parsed `Stamp`s.
- Everything drawn is left out: Streamlit widgets and pages, plots, CSS and the matplotlib animation. The date widget's value and the selectbox choice (as a position) are inputs.
- The random draws are inputs: the release offsets of `SimulerTrajectoire` and the turbulence draws of `ChuteParachuteSimple`.
- Floating point is modelled by exact reals, so rounding error is not modelled.
- `round()` in the table rows is left out: rows hold the unrounded values.
- The pressure column (`pression_standard`) is left out; it is a real power with a non-integer exponent.
- The closed-form physics is left out because it uses square roots and real powers: `calcul_altitude`, the density, `calcul_profil_vitesse` and `tf`. Their results (z_t, time, v, tf) are inputs.
- The trigonometry of `convert_to_vx_vy` is the parameter `sinCos`.
- The convex solver (cvxpy with ECOS) is an oracle. Its answers are assumed to satisfy the constraints handed to it (`SolverSound`).
- Column normalisation (`u / norm(u)`) is the parameter `normalize`, which keeps lengths.
- The histories the code fills but never reads are not kept: U, D and `it_final_*`.
- Vectors.SquaredDistance: does not state the converse, that a zero distance implies equal points. Deriving it means combining two squares, which is beyond the solver's nonlinear real arithmetic here; non-negativity and zero-on-target are stated.
- SimulationFinale.SimulerTrajectoire.CalculErreur: returns the squared distance, because the square root is not modelled.
- SimulationParachute.SimulerTrajectoireParachute: returns the error squared, for the same reason.
- Convexification.Cost: stated as the cost expression evaluated on the solution; the norms inside it appear squared over positive quantities, and the cost itself is not re-derived from cvxpy's value.
- Meteo.SortByAltitudeSorted: does not state the stability of Python's sort; the four altitudes are distinct, so `Meteo.SortedTableOrder` fixes the order anyway. The sort works on a value, not in place on the list.
- ChuteLibre.Chute.RunSimulation: the `FuncAnimation` driver is modelled as a loop of at most 200 frame callbacks that stops once the callback has seen z <= 0; timing, `blit` and the init callback are not modelled.
- Derive.FillColumns: the two writes per column (the wind step, then `+=` the draw) are one assignment of the same value.
- Duplicates of the same code are modelled once:
  - trajectoire_colis/recuperateur_meteo.py repeats importer_vent.py (`Vent`);
  - the three copies of the temperature and compass helpers share `Meteo`;
  - the context files Streamlit.py and simulation_trajectoire_parachute.py at the top level are not modelled.
- The `st.exception(e)` trace of the error box records only the error kind.
