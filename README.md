# GridCal compilation, simple dispatch and CSR power kernel in Dafny

This project models three parts of GridCal's engine and proves properties about them.

- **Compiling a `MultiCircuit` into numerical containers.**
  - One builder per device class (loads, static generators, shunts, generators, batteries, lines, two-winding transformers, VSC converters, DC lines and HVDC links).
  - Each builder walks its device list in enumeration order and resolves every bus reference through the bus dictionary. It fills the container's per-device columns and its 0/1 bus-incidence matrices, and applies the resistance temperature/tolerance correction.
  - Builders also write to shared buffers. The generator and battery builders seed the bus voltage vector and the diagnostic log with the "seed still 1.0" set-point rule. The HVDC builder forces the endpoints of active links to PV.
  - `get_branch_data` stacks lines, transformers, converters and DC lines into one branch table at fixed offsets, and writes the control-mode voltage set points into the branch container's own `Vbus`.
- **The DC optimal-dispatch formulation and the heuristic `OpfSimple` solver.**
  - The formulation covers the objective, the fixed-generation selection, the nodal injections and the branch-loading restrictions. These are evaluated over concrete reals in place of LP variables.
  - The solver does a proportional-share dispatch and stores its results as fields on the object. Its accessors report those fields in MW.
- **The CSR power-injection kernel `calc_power_csr_numba`.** It computes `S[i] = V[i]·conj(Σ Yx[p]·V[Yj[p]] − I[i])` over the compressed-sparse-row admittance matrix.

Modules:

- `ComplexNumbers`, `Vectors`: complex numbers as pairs of reals, and the real-vector sums and products the dispatch uses.
- `CircuitModel`: devices, the circuit, the bus dictionary and the resistance correction rule.
- `CompilationContext`: the shared voltage-seed buffer and logger, the set-point rule and its fold over a device list, and the HVDC PV-forcing set.
- `InjectionData`: the bus, load, static generator, shunt, generator and battery builders.
- `BranchDeviceData`: the line, transformer, VSC and DC-line builders.
- `UnifiedBranch`: `get_branch_data`.
- `HvdcDeviceData`: `get_hvdc_data`.
- `DispatchFormulation`: the linear expressions of the LP.
- `SimpleDispatch`: `OpfSimple`.
- `CsrPower`: the CSR kernel.

How the model represents the source:

- The containers are classes whose array fields are filled in place. A builder is a method whose loop invariant says which prefix of the devices has been stored.
- Each device's columns are grouped into one row value.
- An unmapped bus reference, which raises a `KeyError` in the source, makes a builder return `ok == false`.
- Prior dispatch results shorter than the device list, which raise an `IndexError` in the source, also make the load, generator and battery builders return `ok == false`.
- Floating-point numbers are `real`. Numpy's division by zero is the value `NonFinite`.

Behaviour of the code that is easy to misread:

- **Set-point rule.** The rule is not "first set point wins". The code overwrites the seed whenever its real part is still exactly 1.0, so a device whose set point is 1.0 does not claim the bus (`UnitSetPointDoesNotClaim`).
- **Where control-mode voltage writes go.** `get_branch_data` writes them into the branch container's own `Vbus`, not into the voltage buffer the generator and battery builders seed. The last writer wins.
- **DC-line resistance in the stacked table.** It is written at the un-shifted index `i`, not `ii` (`DcLineResistanceMisplacedExample`).
- **Battery state-of-charge bounds.** The minimum column receives the maximum state of charge (`BatteryEntry`).
- **Connectivity matrices in `get_power_injections`.** The documentation gives them as bus × device, but the code transposes them, so they are device × bus.

## Model

| member | source | states |
|---|---|---|
| CircuitModel.CorrectedResistance | src/GridCal/Engine/Core/DataStructures/circuit_to_data.py:318-326 | the resistance starts from the temperature-corrected value when correction is on, otherwise from R; it is scaled by 1 − tol/100 under Lower and 1 + tol/100 under Upper, and is unchanged otherwise |
| CircuitModel.ToleranceBand | src/GridCal/Engine/Core/DataStructures/circuit_to_data.py:516-524 | for a non-negative resistance and tolerance, Lower ≤ Specified ≤ Upper, and the band is symmetric about the specified value |
| CircuitModel.ToleranceExample | src/GridCal/Engine/Core/DataStructures/circuit_to_data.py:441-449 | R = 0.1 with a 10 % tolerance gives 0.09, 0.1 and 0.11 |
| CompilationContext.SeedStep | src/GridCal/Engine/Core/DataStructures/circuit_to_data.py:204-207 | a seed whose real part is 1.0 becomes Vset + 0j and nothing is logged; otherwise a different Vset appends exactly one log entry and keeps the seed, and an equal Vset changes nothing; other buses are untouched |
| CompilationContext.ApplySetPoint | src/GridCal/Engine/Core/DataStructures/circuit_to_data.py:288-291 | the shared voltage buffer and the log end in exactly the state the set-point rule gives from their old state |
| CompilationContext.SeedFoldSnoc | src/GridCal/Engine/Core/DataStructures/circuit_to_data.py:161-207 | folding one more device's request is applying the rule to the fold of the earlier ones, so devices are processed in enumeration order |
| CompilationContext.OfferSetPoint | src/GridCal/Engine/Core/DataStructures/circuit_to_data.py:204-207 | buffers that hold the fold of the earlier requests hold the fold including the new one afterwards |
| CompilationContext.SeedClaimedIsKept | src/GridCal/Engine/Core/DataStructures/circuit_to_data.py:204-207 | once a seed has left the 1.0 sentinel, no later device changes it |
| CompilationContext.SeedUntouched | src/GridCal/Engine/Core/DataStructures/circuit_to_data.py:204-205 | a bus that no device addresses keeps its seed |
| CompilationContext.SeedLogGrowth | src/GridCal/Engine/Core/DataStructures/circuit_to_data.py:206-207 | the log keeps every earlier entry and grows by at most one entry per device |
| CompilationContext.ConflictExample | src/GridCal/Engine/Core/DataStructures/circuit_to_data.py:204-207 | two generators at one bus with set points 1.02 then 1.05 leave the seed at 1.02 and log exactly one warning |
| CompilationContext.UnitSetPointDoesNotClaim | src/GridCal/Engine/Core/DataStructures/circuit_to_data.py:204-205 | a device with set point exactly 1.0 leaves the sentinel in place, so a later 1.05 overwrites it without a warning |
| CompilationContext.ForcedPVExactly | src/GridCal/Engine/Core/DataStructures/circuit_to_data.py:696-698 | a bus is forced to PV exactly when it is an endpoint of an active HVDC link |
| InjectionData.GetBusData | src/GridCal/Engine/Core/DataStructures/circuit_to_data.py:9-30 | bus i's name, active flag and type are stored at index i, for every bus |
| InjectionData.GetLoadData | src/GridCal/Engine/Core/DataStructures/circuit_to_data.py:33-79 | succeeds iff every load's bus is mapped and prior results, when given, cover every load; then load k's row (netted by prior shedding) is stored at k, and the incidence matrix has a 1 exactly at (bus of k, k) |
| InjectionData.GetStaticGeneratorData | src/GridCal/Engine/Core/DataStructures/circuit_to_data.py:82-109 | succeeds iff every static generator's bus is mapped; then its row is at k and the incidence matrix has a 1 exactly at (bus of k, k) |
| InjectionData.GetShuntData | src/GridCal/Engine/Core/DataStructures/circuit_to_data.py:112-139 | succeeds iff every shunt's bus is mapped; then its row is at k and the incidence matrix has a 1 exactly at (bus of k, k) |
| InjectionData.GetGeneratorData | src/GridCal/Engine/Core/DataStructures/circuit_to_data.py:142-209 | succeeds iff every generator's bus is mapped and prior power and shedding, when given, cover every generator; then rows in order, one incidence 1 per generator, and the seed buffer and log equal the set-point rule folded over the generators in order |
| InjectionData.GetBatteryData | src/GridCal/Engine/Core/DataStructures/circuit_to_data.py:212-293 | the same for batteries (prior battery power, when given, must cover every battery): rows, incidence, and the set-point rule folded over the batteries in order |
| CompilationContext.SeedRequests | src/GridCal/Engine/Core/DataStructures/circuit_to_data.py:202-207 | one seed request per generator or battery, in order, addressed to the device's mapped bus and carrying its set point and bus name |
| CompilationContext.RequestsAre | src/GridCal/Engine/Core/DataStructures/circuit_to_data.py:286-291 | the requests offered during a generator or battery loop, once every device has offered, are exactly the devices' requests |
| InjectionData.LoadNetting | src/GridCal/Engine/Core/DataStructures/circuit_to_data.py:69-75 | with prior results, a load's power is P − shedding + jQ, and no other column changes |
| InjectionData.GeneratorNetting | src/GridCal/Engine/Core/DataStructures/circuit_to_data.py:188-200 | with prior results, a generator's power is prior power − prior shedding in place of P, and no other column changes |
| InjectionData.BatteryNetting | src/GridCal/Engine/Core/DataStructures/circuit_to_data.py:266-284 | with prior results, a battery's power is the prior dispatch in place of P, and no other column changes |
| BranchDeviceData.TerminalsRowSum | src/GridCal/Engine/Core/DataStructures/circuit_to_data.py:330-331 | a row of a two-terminal incidence matrix sums to 2 when the terminals differ and to 1 when they coincide; over a prefix of the buses it counts the terminals inside it |
| BranchDeviceData.GetLineData | src/GridCal/Engine/Core/DataStructures/circuit_to_data.py:296-333 | succeeds iff both terminals of every line are mapped; then line i's row (with the corrected resistance) is at i, and incidence row i is 1 exactly at its two buses |
| BranchDeviceData.GetTransformerData | src/GridCal/Engine/Core/DataStructures/circuit_to_data.py:336-379 | succeeds iff every transformer's terminals are mapped; then rows in order, incidence 1 exactly at the two buses, and the regulated bus index is a bus index at which the incidence row is 1: the to bus when the to side is regulated, else the from bus |
| BranchDeviceData.GetVscData | src/GridCal/Engine/Core/DataStructures/circuit_to_data.py:382-416 | succeeds iff every converter's terminals are mapped; then rows in order, incidence 1 exactly at the two buses |
| BranchDeviceData.GetDcLineData | src/GridCal/Engine/Core/DataStructures/circuit_to_data.py:419-462 | succeeds iff every DC line's terminals are mapped; then rows with corrected resistance and F/T indices in order, incidence 1 exactly at the two buses |
| UnifiedBranch.Locate | src/GridCal/Engine/Core/DataStructures/circuit_to_data.py:478-482 | every row of the stacked table belongs to one block and one index in it, at that block's offset |
| UnifiedBranch.LocateOffset | src/GridCal/Engine/Core/DataStructures/circuit_to_data.py:529-619 | device i of a block sits at nline (+ ntr (+ nvsc)) + i, inside the table, and that row locates back to exactly (block, i) |
| UnifiedBranch.BranchRows | src/GridCal/Engine/Core/DataStructures/circuit_to_data.py:478-482 | the table has nline + ntr + nvsc + ndcline rows |
| UnifiedBranch.BranchRowsAt | src/GridCal/Engine/Core/DataStructures/circuit_to_data.py:489-641 | row offset + i of the table is device i of that block, with its from and to bus indices |
| UnifiedBranch.ApplyWritesIsLastWrite | src/GridCal/Engine/Core/DataStructures/circuit_to_data.py:566-570 | after the control-mode writes, each bus holds the set point of the last device that wrote it, or its old value |
| UnifiedBranch.ApplyWritesAppend | src/GridCal/Engine/Core/DataStructures/circuit_to_data.py:566-615 | the transformer writes followed by the converter writes are one sequence of writes in program order |
| UnifiedBranch.StackLines | src/GridCal/Engine/Core/DataStructures/circuit_to_data.py:489-527 | succeeds iff all lines are mapped; then the first nline rows are the lines with unit from/to incidence, and R[0..nline) holds their corrected resistances |
| UnifiedBranch.StackTransformers | src/GridCal/Engine/Core/DataStructures/circuit_to_data.py:529-570 | appends the transformer rows after the earlier ones, writes R at nline + i, and applies the v_to / power_v_to set points to the container's Vbus in order |
| UnifiedBranch.StackVscs | src/GridCal/Engine/Core/DataStructures/circuit_to_data.py:572-615 | appends the converter rows, writes R1 at the shifted index, and applies the type-1 (to bus) and type-2 (from bus) set points in order |
| UnifiedBranch.StackDcLines | src/GridCal/Engine/Core/DataStructures/circuit_to_data.py:617-651 | appends the DC-line rows at the shifted index but writes their corrected resistances at the un-shifted index i |
| UnifiedBranch.ResistanceAsWritten | src/GridCal/Engine/Core/DataStructures/circuit_to_data.py:643-651 | the resistance column has one entry per stacked row, each being what the last block to write that row left there |
| UnifiedBranch.StackLinesAndTransformers | src/GridCal/Engine/Core/DataStructures/circuit_to_data.py:489-570 | the line block then the transformer block: their rows, resistances and voltage writes composed in order |
| UnifiedBranch.StackVscsAndDcLines | src/GridCal/Engine/Core/DataStructures/circuit_to_data.py:572-651 | the converter block then the DC-line block, composed in order |
| UnifiedBranch.GetBranchData | src/GridCal/Engine/Core/DataStructures/circuit_to_data.py:465-653 | succeeds iff every branch terminal is mapped; then the table is the four blocks stacked, R is the column as written, and Vbus is all ones after the control-mode writes in order |
| UnifiedBranch.ResistanceStagesAsWritten | src/GridCal/Engine/Core/DataStructures/circuit_to_data.py:516-651 | the four blocks' resistance writes, applied in program order, give exactly the column described row by row |
| UnifiedBranch.LastWriterWinsExample | src/GridCal/Engine/Core/DataStructures/circuit_to_data.py:612-615 | two controllers regulating one bus with 1.02 then 1.05 leave 1.05 |
| UnifiedBranch.DcLineResistanceMisplacedExample | src/GridCal/Engine/Core/DataStructures/circuit_to_data.py:643-646 | with one line (R 0.1) and one DC line (R 0.2), row 0 ends with 0.2 and the DC line's own row with 0.0 |
| HvdcDeviceData.Promote | src/GridCal/Engine/Core/DataStructures/circuit_to_data.py:696-698 | an active link sets both endpoint types to PV; an inactive one leaves the types as they were |
| HvdcDeviceData.GetHvdcData | src/GridCal/Engine/Core/DataStructures/circuit_to_data.py:656-704 | succeeds iff every link's terminals are mapped; then rows in order and from/to incidence 1 exactly at the from/to bus; the endpoints of active links become PV and every other bus keeps its type |
| HvdcDeviceData.InactiveLinkForcesNothing | src/GridCal/Engine/Core/DataStructures/circuit_to_data.py:696 | appending an inactive link leaves the PV set unchanged |
| DispatchFormulation.ObjectiveTerms | src/GridCal/Engine/Simulations/OPF/simple_dispatch.py:41-47 | the objective is Σ cost_g·Pg + Σ cost_b·Pb + Σ cost_l·LSlack + Σ cost_br·(FSlack1 + FSlack2), equivalently a sum of five dot products |
| DispatchFormulation.ObjectiveNonNegative | src/GridCal/Engine/Simulations/OPF/simple_dispatch.py:41-47 | with non-negative costs and variables, the objective is non-negative |
| DispatchFormulation.ObjectiveWithoutSlack | src/GridCal/Engine/Simulations/OPF/simple_dispatch.py:45-47 | with every slack zero, the objective is the generation and battery cost alone |
| DispatchFormulation.FixedGenerationIndices | src/GridCal/Engine/Simulations/OPF/simple_dispatch.py:62 | the selected indices are in range, strictly increasing, and each selects a generator not enabled for dispatch |
| DispatchFormulation.FixedGenerationIndicesExactly | src/GridCal/Engine/Simulations/OPF/simple_dispatch.py:62 | an index is selected iff that generator is not enabled for dispatch |
| DispatchFormulation.FixedGenerationMeaning | src/GridCal/Engine/Simulations/OPF/simple_dispatch.py:62-68 | the fixed-generation equalities hold iff Pg equals P_fix at every generator not enabled for dispatch |
| DispatchFormulation.InjectTotal | src/GridCal/Engine/Simulations/OPF/simple_dispatch.py:84 | a device × bus matrix whose rows sum to one spreads a vector over the buses without changing its total |
| DispatchFormulation.PowerInjectionsTotal | src/GridCal/Engine/Simulations/OPF/simple_dispatch.py:84-88 | when every device's connectivity row sums to one, total injection is generation + battery output − served load (Pl − LSlack) |
| DispatchFormulation.LoadToIsOpposite | src/GridCal/Engine/Simulations/OPF/simple_dispatch.py:165-166 | load_t is −load_f for every branch |
| DispatchFormulation.OverloadIsLeastSlack | src/GridCal/Engine/Simulations/OPF/simple_dispatch.py:169-180 | the overload max(0, load − rating) satisfies both restrictions, and every non-negative slack that satisfies them is at least that large |
| DispatchFormulation.NoSlackIffWithinRating | src/GridCal/Engine/Simulations/OPF/simple_dispatch.py:165-180 | with zero slack the restrictions hold iff −rating ≤ load_f ≤ rating on every branch |
| SimpleDispatch.LoadDemand | src/GridCal/Engine/Simulations/OPF/simple_dispatch.py:244 | each load's demand is its active power in per unit when it is active, else 0 |
| SimpleDispatch.Available | src/GridCal/Engine/Simulations/OPF/simple_dispatch.py:227-241 | each generator's available power is Pmax in per unit when it is active, else 0 |
| SimpleDispatch.DispatchMeetsDemand | src/GridCal/Engine/Simulations/OPF/simple_dispatch.py:241-246 | when total availability is non-zero every share is finite and the shares add up to the demand |
| SimpleDispatch.DispatchIsProportional | src/GridCal/Engine/Simulations/OPF/simple_dispatch.py:241-246 | any two generators' dispatches are in the ratio of their availabilities, and one with no availability gets exactly 0 |
| SimpleDispatch.SharesCross | src/GridCal/Engine/Simulations/OPF/simple_dispatch.py:242-246 | two shares of one total cross-multiply with their availabilities |
| SimpleDispatch.DispatchWithoutCapacity | src/GridCal/Engine/Simulations/OPF/simple_dispatch.py:242 | when total availability is zero every share is non-finite (division by zero) |
| SimpleDispatch.TimesAllValues | src/GridCal/Engine/Simulations/OPF/simple_dispatch.py:311 | scaling finite values by Sbase keeps them finite and scales their real values |
| SimpleDispatch.ScaledDispatchMeetsDemand | src/GridCal/Engine/Simulations/OPF/simple_dispatch.py:246-311 | the dispatch reported in MW adds up to the demand reported in MW |
| SimpleDispatch.DispatchExample | src/GridCal/Engine/Simulations/OPF/simple_dispatch.py:241-246 | availabilities 1.0 and 0.5 with demand 0.9 give 0.6 and 0.3 |
| SimpleDispatch.OpfSimple.Solve | src/GridCal/Engine/Simulations/OPF/simple_dispatch.py:197-262 | returns true and leaves every result field as described: proportional Pg, Pl from the active loads, zero angles, batteries, energy, shedding, flows, overloads and prices, and rating = br_rates / Sbase |
| SimpleDispatch.OpfSimple.Voltage | src/GridCal/Engine/Simulations/OPF/simple_dispatch.py:264-269 | one voltage per bus |
| SimpleDispatch.OpfSimple.SolvedGenerationCoversLoad | src/GridCal/Engine/Simulations/OPF/simple_dispatch.py:306-311 | after solving with some capacity, the generation in MW adds up to the load in MW, and inactive generators report 0 |
| SimpleDispatch.OpfSimple.SolvedReports | src/GridCal/Engine/Simulations/OPF/simple_dispatch.py:271-332 | after solving, the load report is each active load's active power (the per-unit round trip) and the battery, energy, shedding, branch-power, overload and shadow-price reports are zero vectors of the right lengths |
| SimpleDispatch.OpfSimple.SolvedLoading | src/GridCal/Engine/Simulations/OPF/simple_dispatch.py:278-283 | after solving, loading is 0 wherever the rating is non-zero and non-finite where it is zero |
| SimpleDispatch.OpfSimple.SolvedVoltage | src/GridCal/Engine/Simulations/OPF/simple_dispatch.py:264-269 | after solving, every angle is zero and every voltage is 1 + 0j, of unit magnitude |
| CsrPower.AccumulateRow | src/GridCal/Engine/Simulations/PowerFlow/numba_functions.py:42-44 | the inner loop's accumulator ends as Σ Yx[p]·V[Yj[p]] over the row's slice |
| CsrPower.CalcPowerCsr | src/GridCal/Engine/Simulations/PowerFlow/numba_functions.py:21-52 | for well-formed CSR input (I and Yp may be longer than n), returns a fresh vector of length n whose every entry i is V[i]·conj(row sum − I[i]), on the serial and the parallel branch alike |
| CsrPower.EmptyRowPower | src/GridCal/Engine/Simulations/PowerFlow/numba_functions.py:42-45 | an empty row yields V[i]·conj(−I[i]) |
| CsrPower.RowSumLocal | src/GridCal/Engine/Simulations/PowerFlow/numba_functions.py:43-44 | a row sum depends only on the slice's column indices and values |
| CsrPower.RowPowerLocal | src/GridCal/Engine/Simulations/PowerFlow/numba_functions.py:48-52 | S[i] depends only on row i's CSR slice, V and I[i], so no row reads another row's output |
| CsrPower.RowSumIsDenseProduct | src/GridCal/Engine/Simulations/PowerFlow/numba_functions.py:43-44 | the sparse row sum equals the dense row-vector product Σ_c Y[i, c]·V[c] |
| CsrPower.PowerIsDenseInjection | src/GridCal/Engine/Simulations/PowerFlow/numba_functions.py:41-45 | S[i] = V[i]·conj((Y·V)[i] − I[i]) with Y the dense matrix the CSR arrays encode |

## Left out

- Time-series mode. Every builder and the solver are modelled in snapshot mode (one value per device). The profile copies and the `ntime` dimension are not modelled.
- The LP problem and solver (`LpProblem`, `lpAddRestrictions2`, `lpDot`, pulp). The objective, the injections and the branch restrictions are evaluated over concrete reals, and the restrictions become predicates.
- `add_dc_nodal_power_balance`. It depends on island partitioning and on the admittance matrix, both computed by code that is not part of this model.
- `src/GridCal/update.py`. It runs pip through a subprocess and compares version strings, so it is external I/O only.
- The `__main__` block of `simple_dispatch.py`. It loads a file and prints.
- Device-side computations are inputs or fields of the device values, not modelled: `R_corrected`, `get_virtual_taps()`, `determine_bus_type()` and `get_from_and_to_power()`.
- The container classes (`BusData`, `LoadData`, `BranchData`, …) are not part of this model.
  - Their constructors are stand-ins that allocate zero-filled columns.
  - The branch container's `Vbus` starts at all ones.
  - Its tap and converter factors start at one.
- Columns that the builders store verbatim are grouped into one row value per device, and only the columns the core reads are kept.
- Builders on failure: after a `KeyError` or `IndexError` the compilation aborts, so a builder returning `ok == false` promises nothing about partly written buffers.
- Floating point is modelled as exact `real`. Numpy's NaN and infinities from a division by zero are one value, `NonFinite`. Complex numbers are pairs of reals.
- SimpleDispatch.NumericalCircuit.Valid: it assumes `Sbase > 0`, which the solver divides by.
- SimpleDispatch.OpfSimple.Voltage: `exp(−jθ)` is modelled only where every angle is zero, which is the only state `solve` produces.
- SimpleDispatch.OpfSimple.constructor: the result fields start empty. The `Opf` base class is not part of this model.
- CsrPower.CalcPowerCsr:
  - `prange` is modelled as the same sequential loop.
  - The `n == len(V)` assertion is a precondition.
  - `Yj` and `Yx` are required to have the same length; the kernel itself only reads their first `Yp[n]` entries.
  - The row pointers are assumed non-negative, so numpy's negative-index wrap-around is not modelled.
  - The 64-bit and 32-bit integer widths of the kernel signature are not modelled.
