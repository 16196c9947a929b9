# Approach scheduler of acn_tp1, modelled in Dafny

The repository simulates aircraft approaching the runway of AEP (Aeroparque), minute by minute, between 06:00 and 24:00. Each aircraft enters the corridor at 100 nm. Each minute it is given a speed from the band table for its distance. It is slowed to keep a 4-minute and 5-minute separation behind the aircraft ahead. When it cannot be separated it is ejected from the approach queue. It then either lands, or is diverted to Montevideo.

The model covers seven variants of that scheduler.

- **Base loop.** `simulate_planes` in main.py is modelled in module `Base`. Its outer loop repeats the separation pass once per snapshot aircraft that is still approaching, exactly as written.
- **Interactive simulator.** `VisualSimulation` in Ejercicio1/simulador.py is modelled in module `Visual`. It adds the rejoin pass: an ejected aircraft flies outward at 200 kt and re-enters at the first 10-minute gap, or is diverted past 100 nm. It also keeps landing and diversion counters and a frame clock.
- **Windy-day simulator.** `VisualSimulationVentoso` in Ejercicio5/simulador_ventoso.py is modelled in module `Windy`. 10% of landings are interrupted. An interrupted aircraft restarts from 20 nm and slows every other approaching aircraft.
- **Two storm closures.** Both versions of `simulate_storm_closure` (ejercicio6.py and Ejercicio6/ejercicio6.py) are modelled in module `Storm`. During the closure, aircraft either wait in place and divert after a long wait, or keep flying and divert within 10 nm.
- **Fuel-aware holding.** `simulate_planes_holding` in ejercicio7.py is modelled in module `Holding`. Aircraft carry fuel. Ejected aircraft enter a 10–15 nm racetrack, and divert when fuel for Montevideo runs out.
- **Interval counting.** `cinco_aviones_1hora` in ejercicio2y3.py is modelled in module `Intervals`. It counts the 60-minute windows that hold exactly five arrivals.

## How the model is built

**Shared modules.**
- `Kinematics`: the speed-band table and the ETA arithmetic.
- `Aircraft`: the aircraft record and `class Plane`.
- `Fuel`: `class FuelPlane`.
- `Queues`: the list operations `remove`, `insert` and first-gap search.
- `Traffic`: the queue and the rejoin or holding list, and their invariants.
- `Separation`, `Ejection`: the separation pass.
- `Rejoin`: the rejoin pass.
- `Sweep`: the position and closure passes.
- `Intake`: arrivals.
- `Clock`: `minutos_a_hora`.

**Aircraft state.** Each aircraft is a `PlaneState` value. A simulator keeps a `Fleet`, a map from id to state, and its lists are lists of ids. An id therefore stands for the Python object, and updating an aircraft in place is a map update.

**Methods and specification functions.** Every imperative loop of the source is a Dafny `method` with a `while` loop. The method is proved equal to a specification function, for example `SeparationPass` against `Turns`/`Applied` and `HoldPass` against `HoldFrom`. The properties are then proved as lemmas about those functions. The two interactive simulators are classes (`Visual.VisualSimulation`, `Windy.WindySimulation`) whose fields are these values.

**Injected randomness.** All randomness is passed in:
- the arrival draws, one per minute;
- the landing-interrupt draws, per queue position;
- the racetrack direction, per minute and aircraft;
- the fuel and speed draws of each new aircraft;
- the drawn storm start.

**Arithmetic and errors.** Distances and speeds are `real`, that is exact rationals. The source computes the same `+ - * /`, `max` and comparisons in IEEE double precision, so the two agree except where rounding puts a value on the other side of a threshold (see "## Left out"). Python's `int()` on the simulator clock is modelled as truncation toward zero. A division by zero in the source is a `None` result here.

**Where the model follows the code rather than the specification:**
- main.py's separation test is the lenient one: only the 5-minute buffer test ejects. The simulators, the storm variants and the holding variant also eject when `prev.speed - 20` is below the band minimum. `Separation.StrictRefinesLenient` relates the two.
- main.py runs the position pass twice per minute. The second pass removes a landed aircraft from the live queue at once (`Sweep.LandRemovingInline`).
- In main.py the ejected aircraft go to `rejoining` and are never processed again.
- Neither storm variant records a position sample for a rejoining aircraft's outward minute. The interactive simulators do.

## Model

| member | source | states |
|---|---|---|
| Kinematics.KnotsToNmPerMin | main.py:13-14 | the result times 60 is the speed in knots; positive for a positive speed |
| Kinematics.EtaMinutes | main.py:16-17 | requires a non-zero speed (the source divides by it); eta × speed = 60 × distance; non-negative for a non-negative distance and positive speed |
| Kinematics.EtaMonotone | main.py:16-17 | flying slower never brings the arrival forward |
| Kinematics.FirstBand | main.py:43-47 | the scan stops at the first band with `r_min < dist <= r_max`; no earlier band contains the distance; None exactly when no band does |
| Kinematics.FirstBandOfTable | main.py:19-25 | which row of APPROACH_RANGES the scan picks for every distance, None for dist <= 0 |
| Kinematics.SpeedRange | main.py:43-47 | get_range equals the band table case split, lies within 120..500 with v_min <= v_max, and is (120, 150) when no band matches |
| Kinematics.MinSpeed | main.py:49-55 | get_min_speed() is the minimum of the band-table row for the distance, and never above get_max_speed() |
| Kinematics.BandRange | ejercicio7.py:35-39 | PlaneWithFuel.get_range is Some exactly for dist > 0, and then equals main.py's range |
| Kinematics.Advance | main.py:60 | max(0, dist - speed/60·dt): never negative, 0 exactly when the step reaches the runway, otherwise exactly the step shorter, never above the old distance |
| Aircraft.Arrival | main.py:31-41 | a new Plane: at 100 nm, approaching, at speed 300 (the top of band (50,100]), one sample (appear_time, 100), nothing recorded |
| Aircraft.Plane.constructor | main.py:31-41 | the object's fields are Arrival(id, appear_time) |
| Aircraft.Advanced | main.py:57-64 | update_position: distance never grows for dt >= 0; exactly one sample (last_t+dt, dist') appended; lands exactly when already landed or dist' == 0; a first landing records the new sample's minute; a landed aircraft keeps its landing time; no other field changes |
| Aircraft.Plane.UpdatePosition | main.py:57-64 | the object's new fields are Advanced(old fields, dt) |
| Aircraft.Plane.TryLanding | Ejercicio5/simulador_ventoso.py:20-25 | intentar_aterrizaje succeeds exactly when the draw is not below 0.1, and only a failure counts an interruption |
| Aircraft.LandingTime | main.py:93 | prev_time_to_land: t + eta for an aircraft not landed (never before t), its landing minute once landed |
| Fuel.FuelNeeded | ejercicio7.py:52-56 | the Montevideo threshold is 720 kg (120 nm at 450 kt burning 45 kg/min) |
| Fuel.FuelArrival | ejercicio7.py:18-33 | a new PlaneWithFuel: at 100 nm, approaching, at the drawn speed, fuel = share × 20800, hence 10400..18720 kg |
| Fuel.FuelPlane.constructor | ejercicio7.py:18-33 | the object's fields are FuelArrival(id, appear_time, speed, share) |
| Fuel.FuelAdvanced | ejercicio7.py:41-50 | main.py's update_position plus a burn of exactly 45 kg per minute |
| Fuel.FuelPlane.UpdatePosition | ejercicio7.py:41-50 | the object's new fields are FuelAdvanced(old fields, dt) |
| Fuel.FuelPlane.GetRange | ejercicio7.py:35-39 | returns BandRange of the current distance |
| Fuel.FuelPlane.CanReach | ejercicio7.py:52-56 | true exactly when fuel >= 720 kg |
| Fuel.ArrivalCanReach | ejercicio7.py:32-56 | every new aircraft can reach Montevideo |
| Clock.Digits | main.py:209-212 | decimal digits, at least one, a single one exactly below 10 |
| Clock.DigitsRoundTrip | main.py:209-212 | reading the digits back gives the number |
| Clock.Pad2RoundTrip | main.py:212 | `:02d` is at least two wide, exactly two below 100, and reads back as the number |
| Clock.ClockRoundTrip | main.py:209-212 | minutos_a_hora(m) is an hour field, ':' and a two-digit minute field that read back as 6 + m // 60 and m % 60; exactly "HH:MM" before minute 5640 |
| Queues.RemoveFirst | main.py:114-116 | list.remove(x): the first occurrence of x is dropped and everything before and after it kept in order; one element shorter; the multiset loses exactly one x |
| Queues.RemoveFirstMember | main.py:114-116 | in a duplicate-free list, remove(x) removes x and nothing else |
| Queues.InsertAt | Ejercicio1/simulador.py:200 | list.insert(j, x): x at j, the prefix and suffix kept, the multiset gains x |
| Queues.Without | main.py:113-116 | every kept element was there and is not removed, every element not removed is kept, and the result is no longer than the list |
| Queues.WithoutConcat | main.py:113-116 | removal keeps the order: the filter of a concatenation is the concatenation of the filters |
| Queues.WithoutSingle | main.py:113-116 | a single element is kept exactly when it is not removed |
| Queues.RemoveAll | main.py:113-116 | the loop `for p in to_remove: if p in queue: queue.remove(p)` leaves exactly Without(queue, to_remove) |
| Queues.WithoutLength | main.py:113-116 | removing a duplicate-free selection shortens the queue by exactly its length |
| Queues.FirstGap | Ejercicio1/simulador.py:188-203 | the first j in 1..len-1 whose adjacent landing-time difference reaches the gap; no earlier j does; None exactly when none does |
| Queues.SelectOrder | main.py:88-104 | the to_remove list is the flagged elements in queue order: its j-th entry is the element at the j-th flagged position, and those positions strictly increase and are exactly the flagged ones |
| Queues.SelectMember | main.py:88-104 | an element is selected exactly when some flagged position holds it |
| Separation.Decide | Ejercicio1/simulador.py:143-163 | the decision for a queued approaching aircraft behind another never skips it, and a speed it sets is never below the band minimum |
| Separation.DecideSpec | Ejercicio1/simulador.py:143-163 | a gap of at least 4 minutes sets the band maximum; a closer follower is kept at max(v_min, prev-20) exactly when that restores the 5-minute buffer (and, in the strict test, prev-20 is not below v_min), and ejected exactly otherwise; a kept aircraft never flies below its band minimum; in the strict test a reduced speed is exactly prev-20; the lenient test ejects only when the reduced speed leaves the buffer under 5; an aircraft not even v_min separates is ejected |
| Separation.StrictRefinesLenient | main.py:95-109 | the strict test (Ejercicio1/simulador.py:151-152) ejects everything the lenient one of main.py does, and otherwise decides the same |
| Separation.Turn | main.py:87-112 | only approaching aircraft are treated; the head of the queue flies its band maximum |
| Separation.After | main.py:100-107 | the successor reads its predecessor after its turn: ejected, re-speeded or as it was; the distance never changes |
| Separation.Turns | main.py:89-112 | the actions of a whole pass, one per queued aircraft |
| Separation.TurnsPrefix | main.py:89-112 | a prefix of the queue is decided as if the rest were absent |
| Separation.TurnsAt | main.py:89-93 | each action is the turn of its aircraft behind its predecessor as left by its own turn |
| Separation.TurnsSeparate | Ejercicio1/simulador.py:141-166 | the pass treats exactly the approaching aircraft; the head flies its maximum; behind its predecessor as left by its turn, a follower 4 minutes back flies its band maximum, and a closer one is kept at max(v_min, prev-20) exactly when that separates it and ejected exactly otherwise; a kept follower never flies below its band minimum |
| Separation.ApplyTurn | Ejercicio1/simulador.py:154-163 | the fields a turn writes agree with what the successor reads |
| Separation.ApplyTurnFields | Ejercicio1/simulador.py:154-163 | an ejected aircraft takes status rejoin with rejoin_start_time t and rejoin_dist its distance (or holding with holding_start_time t, ejercicio7.py:92-93); a kept one only changes speed; nothing else changes |
| Separation.Applied | main.py:89-112 | the fleet after n turns keeps every aircraft |
| Separation.AppliedAt | main.py:89-112 | after n turns the first n queued aircraft carry their action, the rest are untouched |
| Separation.AppliedOff | main.py:89-112 | aircraft off the queue are untouched by the pass |
| Separation.SeparationPass | Ejercicio1/simulador.py:140-166 | the loop over queue[:] leaves the aircraft as the pure pass computes from their states before it, and to_remove holds the ejected aircraft in queue order |
| Ejection.SeparatedAt | Ejercicio1/simulador.py:140-171 | after the pass and removal: ejected aircraft take the eject status and were approaching, all others keep their status, no landing time changes |
| Ejection.SeparatedClasses | Ejercicio1/simulador.py:140-171 | the ejected aircraft move from the approaching class to the eject class; every other class is unchanged |
| Ejection.SeparatedTally | Ejercicio1/simulador.py:140-171 | the pass moves ejected aircraft from the queue to the rejoin list, keeping queue = approaching, list = rejoin and both counters |
| Ejection.SeparateAndRemove | Ejercicio1/simulador.py:140-171 | SeparationPass followed by RemoveAll computes Separated |
| Intake.Spaced | main.py:78-81 | only the speed changes; an aircraft appearing at least 4 minutes after the queue tail is unchanged; one appearing sooner is never below its band minimum nor below prev.speed - 20, is at one of the two, and is exactly 20 kt slower than the tail when that is within its band |
| Intake.Admit | main.py:75-84 | the arrival code computes Admitted: the checked aircraft added, appended to the queue tail |
| Intake.AdmittedTally | main.py:75-84 | a new approaching aircraft adds its key, joins the queue tail, keeps the tally, and only its speed may differ from how it was created |
| Intake.AdmitNext | main.py:70-84 | ids are consecutive from 1: the next id is new and extends the id list |
| Intake.Ids | main.py:70-84 | the aircraft list after n arrivals is ids 1..n |
| Intake.IdsNext | main.py:82-84 | the id list has no duplicates and grows by the next id |
| Traffic.StatusPartition | main.py:35 | every aircraft is in exactly one status class |
| Traffic.Conservation | Ejercicio1/simulador.py:137-212 | with the tally kept: number of aircraft = queue + side list + landed + diverted |
| Sweep.Fly | main.py:118-122 | one minute of flight: distance never grows, lands exactly at 0, the storm rule stamps the landing with minute t (ejercicio6.py:146-148), the fuel rule burns 45 kg, one sample appended |
| Sweep.Wait | ejercicio6.py:60-77 | a closed minute: one more minute waited, marked affected; diverted at t exactly when the wait exceeds 60, or 30 within 10 nm |
| Sweep.CloseInOn | Ejercicio6/ejercicio6.py:50-59 | a closed minute: flies one minute; within 10 nm diverted at t, otherwise exactly update_position |
| Sweep.Step | ejercicio6.py:60-81 | an approaching aircraft ends approaching or in the rule's outcome status |
| Sweep.CollectedMember | main.py:117-125 | an aircraft is collected exactly when queued and its step ends its approach |
| Sweep.SweptEvery | main.py:117-125 | after the pass: collected aircraft are exactly those leaving, each queued approaching aircraft took its step, aircraft off the queue unchanged, statuses move only to the rule's outcome |
| Sweep.SweptClasses | main.py:117-125 | collected aircraft move from approaching to the outcome class; other classes unchanged |
| Sweep.SweptTally | Ejercicio1/simulador.py:205-216 | the pass with removal keeps the tally: landed (or diverted, for a closure rule) grows by the number collected |
| Sweep.ApproachingAll | Ejercicio1/simulador.py:207-208 | in a tallied traffic every queued aircraft is approaching, so the pass touches all of them |
| Sweep.SweepPass | Ejercicio1/simulador.py:206-212 | the loop over queue[:] computes the pure pass, its to_remove_landed list and the number of aircraft it flew |
| Sweep.SweepAndRemove | Ejercicio1/simulador.py:205-216 | the pass and its removal loop compute Swept |
| Sweep.LandRemovingInline | main.py:127-131 | the second position pass, removing landed aircraft from the live queue as it goes, gives the same result as the pass with a separate removal |
| Rejoin.Outward | Ejercicio1/simulador.py:176-177 | 200 kt outward: distance grows by 200/60, one sample when sampled, nothing else changes |
| Rejoin.QueueTimes | Ejercicio1/simulador.py:190-193 | the projected landing times of the queue, front first |
| Rejoin.GapFor | Ejercicio1/simulador.py:188-203 | a found gap lies in 1..len(queue)-1 |
| Rejoin.RejoinStepFrame | Ejercicio1/simulador.py:174-203 | a rejoin turn changes only that aircraft, and diverts it exactly when the outward minute passes 100 nm |
| Rejoin.RejoinDivert | Ejercicio1/simulador.py:180-185 | past 100 nm: Montevideo at t, off the rejoin list, queue untouched |
| Rejoin.RejoinReinsert | Ejercicio1/simulador.py:187-203 | at the first 10-minute gap j: inserted at j, approaching, back at rejoin_dist with a same-minute sample, off the rejoin list |
| Rejoin.RejoinStay | Ejercicio1/simulador.py:187-203 | no gap: one more minute outward, still on the list |
| Rejoin.RejoinStepTally | Ejercicio1/simulador.py:174-203 | a turn keeps the tally; a diverted aircraft adds one to montevideo_count |
| Rejoin.RejoinFromSound | Ejercicio1/simulador.py:174 | over the snapshot rejoining[:], every aircraft is still on the list when its turn comes |
| Rejoin.RejoinFromTally | Ejercicio1/simulador.py:174-203 | the whole pass keeps the tally, montevideo_count growing by the number diverted |
| Rejoin.FindGap | Ejercicio1/simulador.py:188-203 | the loop `for j in range(1, len(queue))` with its break finds GapFor |
| Rejoin.RejoinOne | Ejercicio1/simulador.py:175-203 | the loop body computes RejoinStep |
| Rejoin.RejoinPass | Ejercicio1/simulador.py:173-203 | the loop over rejoining[:] computes RejoinFrom and counts the diversions |
| Base.RepassedTally | main.py:86-116 | the repeated separation passes keep the tally: ejected aircraft only move to the rejoin list |
| Base.RepeatedPasses | main.py:86-116 | the outer loop over queue[:] repeats the inner pass once per snapshot aircraft still approaching |
| Base.BaseTick | main.py:73-131 | one minute keeps the run invariant, hands out the next id on an arrival, and only appends to the rejoin list |
| Base.BaseRun | main.py:73-131 | every prefix of the run keeps the invariant |
| Base.BaseRunOutcome | main.py:66-132 | at the end nobody is diverted or holding; aircraft = queue + rejoin list + landed; one aircraft per id handed out |
| Base.TakeArrival | main.py:75-84 | the arrival code computes BaseIntake and extends the id list |
| Base.BaseMinute | main.py:73-131 | one loop iteration computes BaseTick |
| Base.SimulatePlanes | main.py:66-132 | simulate_planes returns the fleet of BaseRun and the id list 1..n, one entry per aircraft, and total_minutes |
| Visual.Fresh | Ejercicio1/simulador.py:63-99 | the reset state satisfies the counters invariant |
| Visual.Trunc | Ejercicio1/simulador.py:111-113 | int(): truncation toward zero |
| Visual.Arrive | Ejercicio1/simulador.py:125-137 | an arrival appends next_id to all_planes and the queue, counts it in total_spawned, and keeps the invariant |
| Visual.EjectKeeps | Ejercicio1/simulador.py:139-171 | the separation pass keeps the invariant |
| Visual.RejoinKeeps | Ejercicio1/simulador.py:173-203 | the rejoin pass keeps the invariant, montevideo_count tracking the diverted aircraft |
| Visual.FlownKeeps | Ejercicio1/simulador.py:205-216 | the position pass keeps the invariant, landed_count tracking the landed aircraft |
| Visual.Tick | Ejercicio1/simulador.py:123-219 | a minute keeps the invariant, hands out next_id on an arrival, and never decreases the counters |
| Visual.BoardConservation | Ejercicio1/simulador.py:137-212 | total_spawned = len(queue) + len(rejoining) + landed_count + montevideo_count |
| Visual.ApproachingOnly | Ejercicio1/simulador.py:219 | the comprehension never grows the list |
| Visual.ApproachingOnlyMember | Ejercicio1/simulador.py:219 | the filter keeps exactly the approaching aircraft |
| Visual.VisibleIsQueueAndRejoin | Ejercicio1/simulador.py:219 | between minutes the visible list is the queue followed by the rejoin list |
| Visual.RunArrive | Ejercicio1/simulador.py:125-137 | the arrival code computes Arrive |
| Visual.RunRejoin | Ejercicio1/simulador.py:173-203 | the rejoin loop with its counter computes Rejoined |
| Visual.RunFly | Ejercicio1/simulador.py:205-216 | the position loop with its counter computes Flown |
| Visual.RunTick | Ejercicio1/simulador.py:123-216 | the tick code computes Tick |
| Visual.Clock | Ejercicio1/simulador.py:105-121 | idle exactly when stopped or paused, a new minute only when int(current_time) changes and stays below total_minutes, finished at total_minutes |
| Visual.ClockForward | Ejercicio1/simulador.py:105-121 | on a non-decreasing clock the minutes run strictly increase from 0 and a finished run stays idle |
| Visual.RunClock | Ejercicio1/simulador.py:105-121 | the clock code with its early returns computes Clock |
| Visual.Updated | Ejercicio1/simulador.py:105-219 | update_simulation keeps the invariant |
| Visual.RunUpdate | Ejercicio1/simulador.py:105-219 | update_simulation on field values computes Updated |
| Visual.VisualSimulation.constructor | Ejercicio1/simulador.py:63-85 | empty lists and counters, time 0, speed 0.2, 1080 minutes, not running |
| Visual.VisualSimulation.StartSimulation | Ejercicio1/simulador.py:87-99 | every list and counter reset, next_id 1, running and not paused |
| Visual.VisualSimulation.UpdateSimulation | Ejercicio1/simulador.py:105-219 | the object's new state is Updated of its old state, and the class invariant holds |
| Visual.VisualSimulation.Show | Ejercicio1/simulador.py:218-219 | the object holds the given state and planes = approaching queue + rejoining |
| Windy.Congest | Ejercicio5/simulador_ventoso.py:247-251 | an interruption sets another approaching aircraft to max(0.6 × v_min, 80), at least 80 kt, and changes nothing else |
| Windy.CongestedEvery | Ejercicio5/simulador_ventoso.py:248-251 | every other approaching queued aircraft takes the congestion speed; everything else is as it was |
| Windy.Congestion | Ejercicio5/simulador_ventoso.py:248-251 | the loop `for other in queue` computes Congested |
| Windy.LandOne | Ejercicio5/simulador_ventoso.py:221-251 | one iteration: fly one minute; at the runway, land at t on a successful draw, else go round to rejoin from 20 nm at half v_min and congest the rest |
| Windy.LandingPass | Ejercicio5/simulador_ventoso.py:220-251 | the loop over queue[:] computes the pure pass WindPass |
| Windy.LandingsKeep | Ejercicio5/simulador_ventoso.py:221-251 | by induction over the snapshot, the pass keeps every aircraft, the landed and interrupted lists and their statuses and records |
| Windy.WindPassOutcome | Ejercicio5/simulador_ventoso.py:219-255 | each aircraft ends landed at t, gone round to rejoin with its interruption counted, or still queued with its status; aircraft off the queue are untouched |
| Windy.AfterStatus | Ejercicio5/simulador_ventoso.py:228-245 | statuses after the pass: rejoin if interrupted, landed if taken out otherwise, unchanged if not taken out |
| Windy.AfterTally | Ejercicio5/simulador_ventoso.py:219-255 | the pass with removal keeps the tally: landed_count grows by the landings, interrupted aircraft join rejoining |
| Windy.GroundedKeeps | Ejercicio5/simulador_ventoso.py:219-255 | the pass keeps the counters invariant with interrupciones_count counting the go-arounds |
| Windy.WindTick | Ejercicio5/simulador_ventoso.py:137-258 | a windy minute keeps the invariant, hands out next_id on an arrival, and never decreases any counter |
| Windy.RunGround | Ejercicio5/simulador_ventoso.py:219-255 | the pass with its counters computes Grounded |
| Windy.RunWindTick | Ejercicio5/simulador_ventoso.py:137-255 | the tick code computes WindTick |
| Windy.WindUpdated | Ejercicio5/simulador_ventoso.py:119-258 | the windy update_simulation keeps the invariant |
| Windy.RunWindUpdate | Ejercicio5/simulador_ventoso.py:119-258 | update_simulation on field values computes WindUpdated |
| Windy.RestartKeepsRejoining | Ejercicio5/simulador_ventoso.py:101-117 | restarting as written with one aircraft rejoining breaks the counters invariant: the count no longer balances and the next id is already taken |
| Windy.WindySimulation.constructor | Ejercicio5/simulador_ventoso.py:76-99 | as the interactive simulator, with interrupciones_count 0 |
| Windy.WindySimulation.StartSimulation | Ejercicio5/simulador_ventoso.py:101-117 | every list (rejoining included) and counter reset, running and not paused |
| Windy.WindySimulation.UpdateSimulation | Ejercicio5/simulador_ventoso.py:119-258 | the object's new state is WindUpdated of its old state, and the class invariant holds |
| Windy.WindySimulation.Show | Ejercicio5/simulador_ventoso.py:257-258 | the object holds the given state and planes = approaching queue + rejoining |
| Storm.Open | ejercicio6.py:83-157 | an open minute keeps the invariant and never decreases the diverted count |
| Storm.ShutKeeps | ejercicio6.py:54-81 | a closed minute keeps the board invariant and hands out no id |
| Storm.StormTick | ejercicio6.py:43-157 | a minute keeps the invariant |
| Storm.StormRun | ejercicio6.py:43-157 | every prefix of the run keeps the invariant |
| Storm.QueuedApproaching | ejercicio6.py:59-60 | every queued aircraft is approaching, so a closure pass treats the whole queue |
| Storm.FlownCount | ejercicio6.py:142-157 | a pass keeps the rejoin list; landed (flying rules) or montevideo (closure rules) grows by the number of aircraft leaving the queue |
| Storm.WaitOutMinute | ejercicio6.py:54-81 | a closed minute: planes_afectados and tiempo_espera_total grow by the queue length; each queued aircraft keeps its position, waits one more minute, is marked affected, and leaves for Montevideo at t exactly when its wait is over the limit |
| Storm.CloseInMinute | Ejercicio6/ejercicio6.py:47-68 | a closed minute: each queued aircraft flies one minute and leaves for Montevideo at t exactly within 10 nm; planes_afectados grows by the diversions and tiempo_espera_total is untouched |
| Storm.StampedLanding | ejercicio6.py:140-157 | the open position pass: each queued aircraft flies and stays queued approaching, or leaves landed at minute t; landed_count grows by the landings |
| Storm.RunOpen | ejercicio6.py:83-157 | the open branch computes Open |
| Storm.RunShut | ejercicio6.py:54-81 | the closed branch, with max_cola_durante_cierre, computes Shut |
| Storm.StormMinute | ejercicio6.py:43-157 | one loop iteration computes StormTick |
| Storm.StormLoop | ejercicio6.py:43-157 | the loop over the minutes computes StormRun |
| Storm.SimulateStormClosure | ejercicio6.py:18-160 | the returned aircraft and counters are those of StormRun with the waiting rule |
| Storm.StormWindow | Ejercicio6/ejercicio6.py:19-24 | with no start given, the start is the draw in 0..total-duration, and None when that range is empty (randint raises); storm_end = start + duration |
| Storm.DrawnWindowInDay | Ejercicio6/ejercicio6.py:21-24 | a drawn closure lies within the day |
| Storm.SimulateDrawnStorm | Ejercicio6/ejercicio6.py:19-135 | the 8-tuple result is StormRun with the close-in rule and the window's bounds, or None when no start can be drawn |
| Storm.TickCounters | ejercicio6.py:54-157 | each minute's counter step: open minutes leave the storm counters alone; closed minutes update max_cola as a max; waiting adds equally to affected and waited; closing in adds to affected exactly what it diverts |
| Storm.StepsCounters | ejercicio6.py:37-157 | over any trace of such steps the counter relations hold |
| Storm.StormCounters | ejercicio6.py:37-160 | waiting rule: planes_afectados == tiempo_espera_total; close-in rule: tiempo_espera_total stays 0 and planes_afectados <= montevideo_count |
| Storm.StormQuietDay | ejercicio6.py:37-160 | a day with no closed minute reports 0 for all three storm counters |
| Storm.StormMaxQueue | ejercicio6.py:56 | max_cola_durante_cierre bounds the queue of every closed minute, and is 0 or attained at some closed minute |
| Holding.Racetrack | ejercicio7.py:109-118 | beyond 15 nm it is brought to 15, under 10 nm to 10; inside 10..15 it moves 5 nm outward when the draw is outbound and 5 nm inward otherwise; always within 5..20 |
| Holding.Orbit | ejercicio7.py:120-121 | a holding minute: 230 kt from the racetrack distance, 45 kg burnt, one sample, and it stays clear of the runway with its status |
| Holding.HoldStepFrame | ejercicio7.py:108-144 | a holding turn changes only that aircraft, and diverts it exactly when the minute leaves it under 720 kg |
| Holding.HoldDivert | ejercicio7.py:123-128 | short of fuel: Montevideo at t, off the holding list, queue untouched |
| Holding.HoldReinsert | ejercicio7.py:130-144 | at the first 10-minute gap j: inserted at j, approaching at 10 nm with a same-minute sample, off the holding list |
| Holding.HoldStay | ejercicio7.py:130-144 | no gap: one more minute holding, still on the list |
| Holding.HoldStepTally | ejercicio7.py:108-144 | a turn keeps the tally with the holding list; a diversion adds one to the Montevideo count |
| Holding.HoldFromSound | ejercicio7.py:108 | over the snapshot holding[:], every aircraft is still on the list when its turn comes |
| Holding.HoldFromTally | ejercicio7.py:108-144 | the whole pass keeps the tally, the Montevideo count growing by the number diverted |
| Holding.HoldOne | ejercicio7.py:109-144 | the loop body computes HoldStep |
| Holding.HoldPass | ejercicio7.py:107-144 | the loop over holding[:] computes HoldFrom |
| Holding.HoldTick | ejercicio7.py:69-155 | a minute keeps the run invariant and hands out the next id on an arrival |
| Holding.HoldRun | ejercicio7.py:69-155 | every prefix of the run keeps the invariant |
| Holding.HoldRunOutcome | ejercicio7.py:58-162 | at the end no aircraft is in the rejoin status; aircraft = queue + holding + landed + diverted; one aircraft per id handed out |
| Holding.TakeFuelArrival | ejercicio7.py:70-75 | the arrival code appends the new aircraft to both lists, without the 4-minute check |
| Holding.HoldMinute | ejercicio7.py:69-155 | one loop iteration computes HoldTick |
| Holding.SimulatePlanesHolding | ejercicio7.py:58-162 | returns the fleet of HoldRun, the id list 1..n and total_minutes |
| Intervals.ArrivalTicksExact | ejercicio2y3.py:10-12 | the arrival list is strictly increasing and holds exactly the minutes t < total whose draw is below lambda |
| Intervals.DrawArrivals | ejercicio2y3.py:9-12 | the first loop builds exactly that list |
| Intervals.InWindow | ejercicio2y3.py:20 | the comprehension keeps exactly the arrivals with start <= p < end |
| Intervals.WindowSplit | ejercicio2y3.py:18-21 | cutting a window in two splits its arrivals between the halves |
| Intervals.OnePerMinute | ejercicio2y3.py:10-12 | at most one arrival per minute |
| Intervals.WindowBound | ejercicio2y3.py:18-21 | a w-minute window holds at most w arrivals |
| Intervals.FiveWindows | ejercicio2y3.py:17-22 | the count of five-arrival windows is at most the number of windows |
| Intervals.FiveWindowsSet | ejercicio2y3.py:17-22 | count_target is the size of the set of windows i < n with exactly 5 arrivals |
| Intervals.WindowsPartition | ejercicio2y3.py:15-21 | the windows [60i, 60i+60) partition [0, 60n): their arrival counts sum to the arrivals before minute 60n |
| Intervals.TargetArrivals | ejercicio2y3.py:15-23 | the counted windows account for five arrivals each without overlap: 5 × count_target <= the arrivals before minute 60n <= 60n |
| Intervals.CountTarget | ejercicio2y3.py:15-23 | total_intervals = total_minutes // 60 and the loop counts exactly the five-arrival windows |
| Intervals.CincoAviones | ejercicio2y3.py:4-27 | None exactly when 0 <= total_minutes < 60 (the division by zero raises); otherwise count_target / total_intervals, within 0..1 |

## Left out

- Rendering and events: all pygame code (drawing, images, the event loop), all matplotlib plotting and animation, `print`, `tqdm` and the `print_summary` statistics. They are I/O.
- Monte Carlo aggregation over many runs (`np.mean`, `np.std`, ejercicio4.py, the `__main__` blocks, `analizar_impacto_tormenta`, `simular_diferentes_momentos_tormenta`) and run_analysis.py's `input()` menu. These are statistics and I/O downstream of the core.
- Random number generation: `random.seed`, `np.random.seed` and the order in which the generator stream is consumed. Every draw is a parameter instead. The model therefore does not say which draw the source would take at which point.
- Object identity: aircraft are values under an id in a map, and lists hold ids. Python's aliasing of the same object in several lists is represented by sharing the id.
- Frame pacing: `dt * time_speed` is a parameter of the clock, and the keys that change `time_speed` are key events.
- Dead branches are not modelled as reachable code:
  - ejercicio6.py:151-153 and Ejercicio6/ejercicio6.py:127-129: `elif plane.status == 'landed'` after `if dist <= 0` (a landed aircraft always has distance 0).
  - Ejercicio6/ejercicio6.py:60-65: the `else` of a second `if aeropuerto_cerrado` inside the closed branch.
- Holding.Racetrack: the direction is drawn only when the aircraft is inside 10..15 nm. The model takes a direction for every turn and ignores it outside that band, because the draw order is not modelled.
- Kinematics.BandRange: get_range's `(None, None)` case (dist <= 0) is modelled, but the holding run never uses it. Queued approaching aircraft are always beyond the runway, so ejercicio7.py's `get_range()[0]` equals main.py's minimum speed there.
- `Plane.waiting`, `Plane.wait_time` and `PlaneWithFuel.in_holding` are written once and never read, so they are not fields.
- The final `landed`/`montevideo`/`total` lists of ejercicio7.py:158-160 are computed and discarded, so they are not modelled.

- Floating point: the source compares IEEE doubles, the model exact rationals. At an exact tie, rounding can decide differently. This affects the 4-minute and 5-minute ETA-gap tests, the 100 nm rejoin limit and the band edges. For example, take a predecessor at 95 nm and 300 kt and a follower at 95 5/6 nm and 250 kt, seen at minute 0. The exact gap is 4 minutes, so the model speeds the follower up. The double gap is 3.9999999999999964, so the source slows or ejects it.
- Negative minutes: `cinco_aviones_1hora` with a negative `total_minutes` returns a negative-zero ratio instead of raising. The model takes `total_minutes` as the number of draws, so a negative value cannot be represented.
- Default arguments: `update_position(speed=None)`, the default storm start and duration of `simulate_storm_closure`, and the defaults of `lambda_prob` and `total_minutes` are all explicit parameters of the model; a caller supplies the default value.

## Findings

| source | as written | input that shows it | evidently intended | confidence | as-written member | corrected member |
|---|---|---|---|---|---|---|
| Ejercicio5/simulador_ventoso.py:101-117 | `start_simulation` resets every list and counter but not `self.rejoining` (the interactive simulator resets it, Ejercicio1/simulador.py:91) | restart while one aircraft is rejoining: the new run's total_spawned is 0 but one aircraft is on the rejoin list, and next_id 1 is the id of the left-over aircraft | a new run starts with `rejoining = []` as well | not executed | Windy.RestartKeepsRejoining | Windy.WindySimulation.StartSimulation |
