# Packed-tower degasser design, modelled in Dafny

This project models the computational core of a design tool for packed-tower gas strippers
(degassers) that remove CO2, H2S or volatile organics from water. The tool works in tiers:

- **Tier 1, heuristic sizing** (`tools/heuristic_sizing.py`, `utils/tower_design.py`): validates
  the request, resolves Henry's constant, splits the inlet into its strippable and non-strippable
  parts by pH, sizes the tower with Eckert flooding and HTU/NTU relations, emits pH-drift warnings,
  and optionally sizes the blower from the system pressure drop.
- **Tier 2, staged simulation** (`tools/simulation_sizing.py`): a counter-current, pH-coupled
  equilibrium-stage model. For a fixed stage count N it seeds profiles from Henry's law, sweeps
  the stages bottom to top with an 85 % Murphree approach to the equilibrium engine's answer and a
  mass-balance concentration update, damps and repeats until the profiles settle; a bisection over
  N searches for the smallest count that meets the outlet target; a mass-balance report checks the
  result; stage count becomes packed height through HETP = 1.2 × HTU.
- **Tier 3, economics** (`utils/economic_defaults.py`, `tools/watertap_costing.py`): CEPCI cost
  escalation, WaterTAP-aligned default parameters with user overrides and range validation, and
  NPV, levelised cost of water, payback and CAPEX shares.

One module per source file:

| module | file | models |
|---|---|---|
| `Basics` | basics.dfy | `Option`/`Result`, extended floats (`Ext`: finite, ±∞, NaN), ASCII case mapping, insertion-ordered dicts (`Dict<K,V>` as a sequence of pairs with `Get`/`Put`/`FromPairs`) |
| `StagedColumn` | staged_column.dfy | the Tier 2 simulation |
| `BlowerSizing` | blower_sizing.dfy | blower selection and power bookkeeping |
| `PressureDrop` | pressure_drop.dfy | bed, accessory and total system pressure drops |
| `TowerDesign` | tower_design.dfy | flooding, diameter, NTU/HTU, height and the design glue |
| `PackingProperties` | packing_properties.dfy | lookups and filtering over a packing catalog |
| `Schemas` | schemas.dfy | request validation and warning enumerations |
| `WaterChemistry` | water_chemistry.dfy | ion parsing, charge balance, PHREEQC solution conversion, templates |
| `HeuristicSizing` | heuristic_sizing.dfy | the Tier 1 entry point |
| `EconomicDefaults` | economic_defaults.dfy | CEPCI escalation, default parameters, merge and validation |
| `WatertapCosting` | watertap_costing.dfy | economic metrics and CAPEX breakdown |

Everything the code hands to a library or a numerical routine it does not own is a
function-typed parameter: the chemical equilibrium engine (`StagedColumn.Engine`), the
strippable-fraction correlation, the transcendental functions (`TowerDesign.Math`: √, log10,
exponentiation, ln), the Robbins pressure-drop correlation, the blower compression-work formulas,
JSON decoding, real exponentiation in the annuity factors and the warning-message formatter.
Contracts about these speak only of what the surrounding code does with their answers, plus
explicitly stated assumptions (for example `x^−n · x^n = 1`) where a property needs one.

Python floats are modelled as exact reals. Where the code divides by zero, Python raises
`ZeroDivisionError`, which the model reports as an error value; where numpy divides by zero
(the convergence test of the stage solver), the result is an `Ext` infinity or NaN, and the
comparison semantics of NaN (every comparison false; Python's `max` keeping its first argument)
are modelled explicitly.

Where the written behaviour differs from the documented design, the model follows the code:

- the stage sweep reads every neighbour from the previous iterate (a Jacobi sweep), not from
  stages already updated in the same sweep;
- the stored liquid concentration of a stage is the mass-balance value; the engine's equilibrium
  liquid concentration is computed but overwritten, so it never reaches the result;
- the mass-balance report never raises, uses a 10 % tolerance, and uses a different gas constant
  (8.2057366e-5 m³·atm/(mol·K)) from the stage update (0.08206 L·atm/(mol·K));
- the top point of the column copies its own liquid every sweep (see Findings); the simulation
  takes the top-point rule as an option, `KeepSeed` for the code as written and `TakeLastStage`
  for the corrected rule, and states what each gives;
- the sizing tool's input model declares no chemistry field and its outcome dataclass no
  chemistry field, so the tool as written fails on every valid request (see Findings); the
  Tier 1 members that produce an outcome model the corrected tool, and the as-written tool is
  modelled beside them;
- a `max_iterations` below 1 leaves the Python error variable unbound; the model reports it as
  its own error.

## Model

| member | source | states |
|---|---|---|
| StagedColumn.InletPh | tools/simulation_sizing.py:313 | a missing pH, or a pH of zero (falsy in Python), falls back to 7.0; any other pH is used as given |
| StagedColumn.HenryGasFraction | tools/simulation_sizing.py:338-353 | the seeded gas mole fraction is never negative, and is zero whenever H_eff·C·T is not positive |
| StagedColumn.SeedStep | tools/simulation_sizing.py:333-336 | consecutive seeded liquid points differ by the same step (outlet − inlet)/N: the seed is a straight line |
| StagedColumn.InitialProfiles | tools/simulation_sizing.py:287-361 | seeding succeeds exactly for N ≥ 1 (N = 0 divides by zero, a negative N fails); the liquid runs linearly from the feed at point 0 to the target at point N; each gas point is in Henry-law equilibrium with its liquid point, non-negative, and clean at the top; the pH is uniform at the inlet pH |
| StagedColumn.GasChargeIdealGas | tools/simulation_sizing.py:200-214 | the gas handed to a stage fills max(A/W, 1e-6) L as an ideal gas at 1 atm, carries the incoming mole fraction (or a 1e-12 trace of the carrier below 1e-12), and has non-negative amounts for a mole fraction up to 1 |
| StagedColumn.OutletMoleFraction | tools/simulation_sizing.py:244-252 | the leaving mole fraction times the total gas moles is the contaminant moles, lies in [0, 1] when the contaminant is part of the total, and is 0 without gas |
| StagedColumn.StageUpdate | tools/simulation_sizing.py:505-562 | per stage, the liquid concentration lost equals the gas mole fraction gained times A/W·MW·1000/(R·T): the stage conserves the contaminant |
| StagedColumn.StageApproachesEquilibrium | tools/simulation_sizing.py:505-507 | the stage gas closes exactly 85 % of the gap to the engine's equilibrium mole fraction and so lies between the incoming and equilibrium values; the pH moves 85 % of the way too |
| StagedColumn.StageIgnoresEngineLiquid | tools/simulation_sizing.py:524-551 | the engine's equilibrium liquid concentration never reaches the stored stage result: two engines differing only in it give the same stage |
| StagedColumn.SweepSpec | tools/simulation_sizing.py:474-562 | every stage i < N reads the feed or the previous iterate's point i−1 for liquid and clean air or point i+1 for gas; the top point gets clean air, its own pH and the liquid its top rule names |
| StagedColumn.SweepStageBalance | tools/simulation_sizing.py:484-551 | every stage of a sweep conserves the contaminant between the liquid it receives and the gas it receives |
| StagedColumn.Sweep | tools/simulation_sizing.py:469-562 | the bottom-to-top stage loop computes exactly the reference sweep, with per-stage balance, clean air at the top, and the top liquid kept (as written) or taken from stage N−1 (corrected) |
| StagedColumn.DampingFactor | tools/simulation_sizing.py:462 | the damping factor lies strictly between 0 and 1: 0.3 above 50 stages, else 0.5 |
| StagedColumn.Damp | tools/simulation_sizing.py:566-568 | each damped point moves from its previous value by the damping factor times the sweep's change |
| StagedColumn.DampFixedPoint | tools/simulation_sizing.py:566-568 | a damped profile equals the previous one exactly when the undamped sweep reproduced it |
| StagedColumn.StepKeepsTop | tools/simulation_sizing.py:476-481 | with clean air at the top, one iteration keeps the top's clean air and pH, and under the source's rule also its liquid |
| StagedColumn.StepFixedPoint | tools/simulation_sizing.py:464-568 | a profile is a fixed point of the damped iteration exactly when it is a fixed point of the undamped sweep |
| StagedColumn.SmallRelativeChanges | tools/simulation_sizing.py:571-577 | a finite array error below the tolerance bounds each element's change relative to its previous value plus 1e-9 |
| StagedColumn.ConvergedMeansSmallChanges | tools/simulation_sizing.py:571-580 | passing the convergence test bounds every liquid change, and every gas change unless the gas errors hold a NaN, which Python's max drops in second position |
| Basics.ArrayMax | tools/simulation_sizing.py:571-572 | numpy's maximum of an array is NaN exactly when some element is; a finite maximum bounds every element and is one of them |
| StagedColumn.Iterate | tools/simulation_sizing.py:464-586 | a success is converged, at an iteration between the current one and the cap, and keeps the top point; every failure is non-convergence |
| StagedColumn.IterateUnfolds | tools/simulation_sizing.py:464-580 | one iteration either passes the error test and returns that iterate, or hands the next iterate to the remaining iterations |
| StagedColumn.SolveSpec | tools/simulation_sizing.py:368-594 | N = 0, a negative N and a cap below one iteration fail with their own errors; a success is converged, shaped for N, within the iteration cap |
| StagedColumn.Solve | tools/simulation_sizing.py:406-594 | the damped sweep loop computes the reference solve; a success has clean air at the top and, under the source's rule, the outlet target as its top liquid |
| StagedColumn.SolvedOutletIsTarget | tools/simulation_sizing.py:476-481 | under the source's top rule, every converged solve reports the outlet target itself as the liquid leaving the column, whatever the engine does |
| StagedColumn.Telescoping | tools/simulation_sizing.py:541-551 | summing per-stage balances, the liquid lost up to stage j equals the gas gained between point j+1 and point 0 |
| StagedColumn.FixedPointStage | tools/simulation_sizing.py:541-551 | at a fixed point of the sweep, stage i balances the liquid it receives against the gas it receives |
| StagedColumn.FixedPointStages | tools/simulation_sizing.py:474-551 | at a fixed point of the sweep every stage balances |
| StagedColumn.SweepFixedPointBalance | tools/simulation_sizing.py:474-568 | at a fixed point of the corrected sweep, feed minus outlet equals the gas pickup between bottom and top times the uptake factor |
| StagedColumn.FixedPointColumnBalance | tools/simulation_sizing.py:474-568 | under the corrected top rule, every fixed point conserves the contaminant over the whole column: feed minus outlet equals the gas pickup times the uptake factor |
| StagedColumn.FixedPointTop | tools/simulation_sizing.py:474-481 | at a fixed point of the corrected sweep the top point holds the liquid leaving stage N−1 and clean air |
| StagedColumn.MassBalanceCheck | tools/simulation_sizing.py:601-681 | mass in and water-borne mass out are flow × concentration; the stripped mass is the gas mole-fraction drop from point 0 to point N times the air's molar flow, the molecular weight and 1000; the error fraction is the gap between in and out plus stripped, over mass in (infinite or NaN for a zero feed, as numpy gives); the report passes exactly when that fraction is below 10 %, never for a zero feed, and never raises |
| StagedColumn.StrippedIsScaledRemoval | tools/simulation_sizing.py:646-659 | when the Tier 1 air flow is water flow times A/W, the mass-balance report's stripped mass is the stage model's removal (gas drop times the stage uptake factor) carried by the water flow, scaled by the ratio of the two gas constants the code uses |
| StagedColumn.WithinTolerance | tools/simulation_sizing.py:640-665 | water out plus gas out, with the gas taken at the stage model's removal rescaled by the ratio of gas constants, lies within 10 % of the mass in whenever the outlet is between 0 and the feed |
| StagedColumn.BalancedProfilePasses | tools/simulation_sizing.py:628-665 | a profile whose feed-minus-outlet equals the stage model's gas pickup, with outlet between 0 and the feed, passes the 10 % report |
| StagedColumn.OutletGap | tools/simulation_sizing.py:719-723 | the objective succeeds exactly when the solve at N does, and then adds back to the top liquid of that solve |
| StagedColumn.Bisect | tools/simulation_sizing.py:744-757 | the returned count lies in (lo, hi]; its objective is not positive (or it is hi) and the count below it is lo or has a positive objective |
| StagedColumn.FindRequiredStages | tools/simulation_sizing.py:688-762 | a returned N has a non-positive objective, lies in [N_min, N_max], and N−1 falls short (or is N_min at exactly zero); the "N_max too low" error holds exactly when both ends evaluate with N_min ≥ 0 and N_max > 0; solve failures at either end propagate |
| StagedColumn.SearchStages | tools/simulation_sizing.py:726-762 | the halving loop over [N_min, N_max] returns the reference search's result |
| StagedColumn.BisectOnFlatObjective | tools/simulation_sizing.py:744-757 | an objective zero across the bracket sends the halving to lo + 1 |
| StagedColumn.FlatObjectiveSearch | tools/simulation_sizing.py:726-757 | an objective zero at every count in [N_min, N_max] makes the search return N_min + 1 |
| StagedColumn.CorrectedSearchIsMinimal | tools/simulation_sizing.py:688-762 | under the corrected top rule, the searched N's solved outlet meets the target and N − 1 (above N_min) leaves it above the target, or at it only when N − 1 is N_min |
| StagedColumn.AsWrittenSearchReturnsSix | tools/simulation_sizing.py:719-757 | as written, every design whose solves converge on [5, 100] gets 6 stages |
| StagedColumn.AsWrittenAcceptsUnstrippedColumn | tools/simulation_sizing.py:474-568 | a one-stage column whose stage strips nothing is a fixed point of the as-written iteration reporting the target met, while its mass balance is 90 % off; the corrected rule moves the top point |
| StagedColumn.PackedHeight | tools/simulation_sizing.py:814-825 | HETP is 1.2 × HTU, above HTU for a positive HTU; the packed height divided by HETP is the stage count |
| StagedColumn.DefaultStageCount | tools/simulation_sizing.py:906-909 | the default count is at least 10, equals 10 below 5.5 m, and from 5 m on is the number of whole 0.5 m steps in the Tier 1 height |
| StagedColumn.AlphaProfile | tools/simulation_sizing.py:936-944 | one strippable fraction per pH point: the correlation's for H2S and CO2 (in any ASCII letter case), 1 otherwise |
| StagedColumn.AssembleResult | tools/simulation_sizing.py:933-969 | stage numbers 0..N, liquid and pH profiles as solved, gas in ppm (10⁶ × mole fraction), the alpha profile, height N × HETP, the Tier 1 diameter, and a mass-balance report exactly when requested |
| StagedColumn.StagedColumnSimulation | tools/simulation_sizing.py:832-985 | with the search on, the stage count is the search's result and a search failure is the result's error; with it off, the count is the given one or the default; the result is the assembled converged solve at that count; a zero Tier 1 height fails; under the as-written top rule the reported outlet is always the target, and with the search on and every solve on [5, 100] converging the count is always 6 |
| BlowerSizing.AutoSelect | utils/blower_sizing.py:91-108 | up to ratio 1.2 a multistage centrifugal blower (isothermal, 0.70), up to 1.5 a rotary lobe "(Roots)" (polytropic, 0.65), above that a single-stage compressor (adiabatic, 0.75) |
| BlowerSizing.SelectBlowerType | utils/blower_sizing.py:41-108 | a non-empty override that names a table key once " (Roots)"/" (roots)" is removed keeps the user's spelling and takes the key's model; any other override, or none, falls through to the ratio bands; the efficiency is always the model's default |
| BlowerSizing.AutoSelectMonotone | utils/blower_sizing.py:91-108 | a higher compression ratio never selects a machine meant for a lower pressure range |
| BlowerSizing.OverrideByKey | utils/blower_sizing.py:56-86 | an override whose stripped spelling is a table key selects that key's model under the user's own name |
| BlowerSizing.NamedOverride | utils/blower_sizing.py:56-86 | each of the four table names, given as an override, selects its own model |
| BlowerSizing.AliasedOverride | utils/blower_sizing.py:59 | a table name followed by " (Roots)" selects the same model as the bare name, keeping the suffixed spelling |
| BlowerSizing.AutoNameRoundTrip | utils/blower_sizing.py:56-108 | an automatically chosen name fed back as an override reproduces the automatic choice, whatever ratio accompanies it |
| BlowerSizing.StripRootsAlias | utils/blower_sizing.py:59 | the alias suffix comes off a parenthesis-free name, leaving the name itself |
| BlowerSizing.ResolvedEfficiency | utils/blower_sizing.py:344 | a missing or zero efficiency override falls back to the selection's default; any other override wins |
| BlowerSizing.Psig | utils/blower_sizing.py:393-395 | gauge psi converts back to the absolute pascals it came from, and is positive exactly above one atmosphere |
| BlowerSizing.BlowerPower | utils/blower_sizing.py:302-428 | fails exactly on a zero inlet pressure or motor efficiency; otherwise discharge minus inlet is the drop, the ratio times the inlet is the discharge, the selection and efficiency follow the ratio and overrides, the motor power times its efficiency is the shaft power, horsepower is 1.34102 × kW; isothermal keeps the inlet temperature and needs no aftercooling, polytropic needs none either; the other models report the work formula's discharge temperature, and adiabatic reports its aftercooling duty |
| BlowerSizing.CompressionAboveOne | utils/blower_sizing.py:331-334 | with a positive inlet pressure the ratio exceeds 1 exactly when there is a pressure drop to overcome |
| BlowerSizing.SelectionByDrop | utils/blower_sizing.py:331-344 | without an override the machine follows the drop as a fraction of the inlet pressure: up to 20 % centrifugal, up to 50 % rotary lobe, beyond that a compressor |
| PressureDrop.BedPressureDrop | utils/pressure_drop.py:24-115 | with the correlation available, the bed drop is its value (viscosity in Pa·s, packing factor per foot), split 90 % dry and 10 % wet per metre, and a zero bed height is the one failure; without it, 0.5 inch of water per foot of packing, all dry; loading factors are reported as 0 |
| PressureDrop.AccessoryDrops | utils/pressure_drop.py:118-186 | distributors and demister are their allowances in inches of water, momentum losses are ρ·v², ductwork a fraction of the bed drop, the elevation head ρ·g·H |
| PressureDrop.AccessoriesNonNegative | utils/pressure_drop.py:148-170 | with non-negative allowances, densities, heights and bed drop, no accessory loss is a pressure gain |
| PressureDrop.TowerArea | utils/pressure_drop.py:234 | the cross-section is π·d²/4, never negative, and zero for a zero diameter |
| PressureDrop.FlowVelocities | utils/pressure_drop.py:238-244 | the superficial gas velocity times the area is the gas flow per second, and the mass velocities are velocity times density |
| PressureDrop.TotalSystemDrop | utils/pressure_drop.py:189-321 | fails exactly for a zero area or a zero bed height with the correlation; the bed drop and accessories come from the bed and accessory calculations at the tower's velocities; the total is (1 + safety factor) × (bed + accessories), reported in inches of water and psi |
| PressureDrop.BreakdownAddsUp | utils/pressure_drop.py:275-321 | the reported breakdown (bed, six accessories, margin) sums to the reported total, and the margin only adds for non-negative factor and drops |
| TowerDesign.FloodLineMonotone | utils/tower_design.py:44-54 | along the digitised flood line the flow parameter strictly increases and the flooding capacity strictly decreases |
| TowerDesign.FloodCapacity | utils/tower_design.py:57-76 | at or below the first flow parameter the capacity is 0.40, at or beyond the last it is 0.055, and in between the segment scan decides |
| TowerDesign.CapacityFromFinds | utils/tower_design.py:62-76 | a scan that starts left of the flow parameter, which lies below the last point, ends on the first segment holding it, so the fallback 0.2 is never returned |
| TowerDesign.FloodCapacityInterpolates | utils/tower_design.py:57-76 | inside the line's range the capacity is the log-log interpolation on the first segment holding the flow parameter, which cannot divide by zero for a strictly increasing log10 |
| TowerDesign.FloodCapacityBounds | utils/tower_design.py:26-76 | with a monotone exp10 that inverts log10, every flooding capacity lies in [0.055, 0.40] |
| TowerDesign.InterpolationBetween | utils/tower_design.py:65-74 | on a falling segment the interpolated capacity lies between the segment's end values |
| TowerDesign.KinematicViscosityCs | utils/tower_design.py:109-111 | the kinematic viscosity in cSt times the density is the dynamic viscosity in cP times 1000 |
| TowerDesign.EckertFlooding | utils/tower_design.py:79-148 | a zero liquid density, zero effective gas rate or equal densities raise a zero division; a negative ρG/ρL (with the divisors non-zero) raises the square root's domain error; a success has non-negative ρG/ρL, ρG/(ρL − ρG), packing factor and gas density under its square roots; the design velocity and F-factor are 70 % of flooding |
| TowerDesign.EckertFlowParameter | utils/tower_design.py:109-122 | the capacity is read off the flood line at (L/G)·√(ρG/ρL) with G the effective gas rate, and the viscosity term uses the kinematic viscosity |
| TowerDesign.EckertSolvesCapacityEquation | utils/tower_design.py:124-134 | the flooding velocity times the density, packing and viscosity terms gives back the capacity parameter, and the F-factor is that velocity times √ρG |
| TowerDesign.MissingGasRateFlowParameter | utils/tower_design.py:115-119 | without a positive gas rate the flow parameter is 20·√(ρG/ρL): the assumed gas rate is 5 % of the liquid rate |
| TowerDesign.TowerDiameter | utils/tower_design.py:151-175 | fails exactly for a zero design velocity (zero division) or a negative area (the square root's domain error); the area passes the gas at the design velocity and the diameter is √(4·area/π) |
| TowerDesign.DiameterMatchesArea | utils/tower_design.py:166-169 | with a square root that inverts squaring, the diameter's circle has exactly the computed area |
| TowerDesign.TransferUnits | utils/tower_design.py:178-225 | above stripping factor 10 the transfer units are ln(C_in/C_out), failing exactly on a zero outlet (zero division) or a non-positive ratio (the logarithm's domain error); otherwise they fail exactly on a zero inlet or zero stripping factor (zero division) or a non-positive 1 − (1 − C_out/C_in)(1 − 1/S) (domain error), and are −ln of that term |
| TowerDesign.UnreachableTargetRaises | utils/tower_design.py:216-223 | CO2 (S = 0.83) asked to go from 0.001 to 0.01 mg/L gives a negative logarithm argument, so the calculation raises |
| TowerDesign.NoRemovalNoTransferUnits | utils/tower_design.py:211-225 | both branches agree that no removal needs no transfer units |
| TowerDesign.UnitStrippingFactorTransferUnits | utils/tower_design.py:216-223 | with a stripping factor of exactly 1 the low-λ formula gives −ln 1 whatever the removal |
| TowerDesign.HtuFromPacking | utils/tower_design.py:228-279 | fails exactly on a zero surface area or, below λ = 10, on λ ≤ 0 (the logarithm's domain error) or a zero ln λ; the result is the 93/a_p estimate with low-λ correction and wetting factor, clamped to [0.3, 3.0] m |
| TowerDesign.HtuFallsWithSurfaceArea | utils/tower_design.py:256-277 | at high λ a packing with more surface per volume never gets a taller transfer unit |
| TowerDesign.HighLambdaHtu | utils/tower_design.py:260-277 | from λ = 10 on the estimate is 93/a_p times the wetting factor, clamped |
| TowerDesign.TowerHeight | utils/tower_design.py:324-361 | theoretical height NTU·HTU, design height that times the safety factor, plus a disengagement space of max(0.5 m, 10 % of the design height) |
| TowerDesign.TowerHeightMonotone | utils/tower_design.py:344-352 | more transfer units never give a shorter tower for non-negative HTU and safety factor |
| TowerDesign.ChoosePacking | utils/tower_design.py:398-406 | a non-empty, known packing id picks that packing; anything else falls back to the application's default; only an empty catalog yields nothing |
| TowerDesign.PackedSection | utils/tower_design.py:419-438 | the packed section is the tower height for the transfer units and the packing's HTU at λ = H·A/W, and fails exactly when either does |
| TowerDesign.Hydraulics | utils/tower_design.py:442-472 | the flooding is evaluated at mass velocities through the area a 20 m³/(m²·h) liquid loading suggests, and the diameter passes the air at the design velocity; a zero water flow fails |
| TowerDesign.LiquidRateFromLoading | utils/tower_design.py:448-452 | the liquid mass velocity is fixed by the loading alone: 20 m³/(m²·h) of water at 997 kg/m³, whatever the water flow |
| TowerDesign.DesignStrippingTower | utils/tower_design.py:364-494 | an empty catalog fails; a design reports the chosen packing's section heights, NTU, HTU in [0.3, 3.0] m and packing factor, air flow = water flow × A/W, λ = H·A/W, the removal percentage, a tower at least 0.5 m taller than its packing, and the catalog's packing id or else the requested one |
| PackingProperties.PackingById | utils/packing_properties.py:55-71 | an entry comes back exactly when the id is a catalog key, and it is the entry stored under that key |
| PackingProperties.Tagged | utils/packing_properties.py:109-112 | a matched entry always carries an id: the catalog key, unless the entry's own properties already hold one, which win |
| PackingProperties.FindPackings | utils/packing_properties.py:74-115 | the one-pass loop returns exactly the tagged entries that every applied criterion accepts, in catalog order |
| PackingProperties.FilteredStep | utils/packing_properties.py:93-112 | filtering from position i keeps or drops entry i, then filters the rest |
| PackingProperties.FilteredMembership | utils/packing_properties.py:93-115 | an entry is in the result exactly when some catalog position matches the criteria and tags to it |
| PackingProperties.EmptyCriteriaKeepAll | utils/packing_properties.py:95-106 | with no criteria the whole catalog comes back, tagged, in order |
| PackingProperties.DefaultPackingId | utils/packing_properties.py:137-145 | H2S and CO2, in any ASCII letter case, default to 50 mm plastic Pall rings, VOC to 25 mm ceramic Intalox saddles, everything else to 50 mm metal Pall rings |
| PackingProperties.DefaultPacking | utils/packing_properties.py:118-162 | the application's default tagged with its id when the catalog has it, else the first catalog entry tagged with its own id; nothing only for an empty catalog; a result's id is always a catalog key |
| Schemas.ParseApplication | tools/schemas.py:73-76 | a string is accepted only as one of the four spellings, case-sensitively, and the accepted value spells back to it |
| Schemas.ApplicationRoundTrip | tools/schemas.py:73-76 | each application's own spelling is accepted as that application |
| Schemas.ParseApplicationAcceptsOnlyNames | tools/schemas.py:73-76 | the literal check accepts a string exactly when it is some application's spelling |
| Schemas.ParseSeverity | tools/schemas.py:26-28 | only "info", "warning" and "critical" are severities, and each parses back to its spelling |
| Schemas.SeverityRoundTrip | tools/schemas.py:26-28 | every severity's spelling parses to that severity |
| Schemas.ParseCategory | tools/schemas.py:30-32 | only the five category spellings are accepted, each parsing back to its spelling |
| Schemas.CategoryRoundTrip | tools/schemas.py:30-32 | every category's spelling parses to that category |
| Schemas.AllFieldsListed | tools/schemas.py:73-139 | every validated field appears in the declaration order used for error reporting |
| Schemas.KeepFailing | tools/schemas.py:73-152 | the kept fields are exactly the listed fields that fail their constraints |
| Schemas.FieldErrors | tools/schemas.py:73-152 | a field is reported exactly when it fails its own constraint |
| Schemas.Accepted | tools/schemas.py:73-139 | a request no field of which fails has 0 < outlet < inlet, positive flow and A/W, a temperature in [0, 100] °C, a pH in [4, 10] and a positive Henry constant when given, and the defaults A/W = 30 and 25 °C when omitted |
| Schemas.Validate | tools/schemas.py:65-152 | validation succeeds exactly when no field fails, and the validated request has the declared fields with defaults filled in and no chemistry field; otherwise it reports a non-empty list holding exactly the failing fields |
| Schemas.OutletCheckNeedsValidInlet | tools/schemas.py:141-152 | the outlet-below-inlet check only runs when the inlet itself passed: a bad inlet with a larger positive outlet reports the inlet alone |
| Schemas.ValidateIdempotent | tools/schemas.py:65-152 | re-validating what a validated request describes yields the same request |
| WaterChemistry.NumericValue | utils/water_chemistry.py:183-187 | numbers and booleans (ints in Python) count as numeric, booleans as 1.0 and 0.0; every other JSON value is rejected |
| WaterChemistry.Stored | utils/water_chemistry.py:182-187 | every entry is paired with its float value, in object order |
| WaterChemistry.ValidateEntries | utils/water_chemistry.py:181-187 | the loop succeeds exactly when every entry is numeric and not negative |
| WaterChemistry.ValidatedStep | utils/water_chemistry.py:182-187 | an accepted object's prefix is accepted too, and the last entry is stored on top of it |
| WaterChemistry.ValidatedAssignsAll | utils/water_chemistry.py:181-187 | the validated dictionary is the in-order assignment of every entry's float value |
| WaterChemistry.ValidatedShape | utils/water_chemistry.py:181-187 | the validated dictionary has exactly the object's keys and no negative concentration |
| WaterChemistry.ValidateEntriesKeepsOrder | utils/water_chemistry.py:181-187 | on an object without repeated keys, validation keeps every entry in place |
| WaterChemistry.ValidateEntriesRejectsFirst | utils/water_chemistry.py:182-186 | a failure names the first unacceptable entry (non-numeric before negative), and every entry before it was acceptable |
| WaterChemistry.ParseChemistry | utils/water_chemistry.py:169-192 | undecodable text, a non-object and an empty object each raise; otherwise the result succeeds exactly when every entry is acceptable, with the object's keys and no negative concentration |
| WaterChemistry.MeqNonNegative | utils/water_chemistry.py:210 | a non-negative concentration contributes non-negative milliequivalents |
| WaterChemistry.ChargeBalance | utils/water_chemistry.py:195-220 | with no recognised charge the balance is 0; otherwise the balance times the total milliequivalents is 100 × (cations − anions) |
| WaterChemistry.SumsNonNegative | utils/water_chemistry.py:202-214 | without negative concentrations the cation and anion sums are non-negative |
| WaterChemistry.ChargeBalanceBounded | utils/water_chemistry.py:195-220 | without negative concentrations the balance lies in [−100, 100], is positive exactly when cations exceed anions and negative exactly when anions exceed cations |
| WaterChemistry.UnknownIonIgnored | utils/water_chemistry.py:205-208 | an ion outside the ion table leaves both sums and the balance unchanged |
| WaterChemistry.Converted | utils/water_chemistry.py:242-249 | each entry is paired with its element keyword (or its own name) and its element-basis value, in entry order |
| WaterChemistry.BuildSolution | utils/water_chemistry.py:223-251 | any capitalisation of mg/L is accepted and anything else raises; the keys written are exactly the keywords of the supplied ions |
| WaterChemistry.SolutionSnoc | utils/water_chemistry.py:242-249 | one more entry stores its converted value on top of the solution built so far |
| WaterChemistry.ConversionInverts | utils/water_chemistry.py:243-246 | for a mapped ion, the written value times the conversion factor gives the ion concentration back |
| WaterChemistry.UnknownIonPassesThrough | utils/water_chemistry.py:247-249 | an unmapped entry is written under its own name with its own value |
| WaterChemistry.LaterAliasWins | utils/water_chemistry.py:242-249 | two names for one element: the later entry's value stays and no other key changes |
| WaterChemistry.SulfateSpellingsShareKeyword | utils/water_chemistry.py:117-137 | both "SO4-2" and the legacy "SO4" are reported as sulfur, S(6) |
| WaterChemistry.DefaultChemistry | utils/water_chemistry.py:254-269 | a known template yields a copy of its ions (non-empty, non-negative); any other name raises naming it |
| WaterChemistry.SolutionUnitsAccepted | utils/water_chemistry.py:226-238 | the units the preparation step declares are accepted by the conversion |
| WaterChemistry.ChosenIons | utils/water_chemistry.py:287-292 | a non-empty JSON text is parsed, otherwise the template is used; the result never holds a negative concentration |
| WaterChemistry.PrepareChemistry | utils/water_chemistry.py:272-309 | succeeds exactly when the chosen dictionary does; the source is "user" exactly for supplied JSON, else "default:" and the template; the balance and the mg/L solution derive from the chosen ions and the balance lies in [−100, 100] |
| HeuristicSizing.DefaultHenry | tools/heuristic_sizing.py:27-33 | the application upper-cased in ASCII: its tabulated Henry's constant, else the general 1.0 |
| HeuristicSizing.MolecularWeightFor | tools/heuristic_sizing.py:35-41 | the application upper-cased in ASCII: its tabulated molecular weight, else the general 100.0 g/mol |
| HeuristicSizing.GasPhaseFor | tools/heuristic_sizing.py:43-49 | the application upper-cased in ASCII: its PHREEQC gas phase, else the general "TCE(g)" |
| HeuristicSizing.UpperNeverGeneral | tools/heuristic_sizing.py:142-145 | an upper-cased name is never the lower-case key "general", so that entry is reached only as the fallback |
| HeuristicSizing.HenryFor | tools/heuristic_sizing.py:138-145 | the request's override when given, else the application default |
| HeuristicSizing.ApplicationDefaults | tools/heuristic_sizing.py:27-49 | the Henry's constant, molecular weight and gas phase each of the four applications resolves to |
| HeuristicSizing.UnknownApplicationFallsBack | tools/heuristic_sizing.py:142-145 | any name other than CO2, H2S or VOC in any ASCII letter case resolves to the general entries |
| HeuristicSizing.DesignBasisFor | tools/heuristic_sizing.py:167-192 | without a pH for H2S or CO2 the whole inlet is stripped to the target; with one, the inlet is split by the strippable fraction and the outlet target loses the non-strippable part, never going below 0.01 mg/L |
| HeuristicSizing.SplitWithinInlet | tools/heuristic_sizing.py:183-184 | with a fraction in [0, 1], both parts of the split lie between 0 and the inlet |
| HeuristicSizing.UnachievableTargetHitsFloor | tools/heuristic_sizing.py:189-192 | when the non-strippable part exceeds the target, the design strips to the 0.01 mg/L floor |
| HeuristicSizing.DriftWarnings | tools/heuristic_sizing.py:222-249 | at most one warning, present exactly for H2S or CO2 at pH 7 or above with apparent stripping factor below 2.5; critical exactly below 2.0, with the fixed recommendations and error range |
| HeuristicSizing.MoreAirKeepsWarningAway | tools/heuristic_sizing.py:226-229 | a request that draws no drift warning still draws none at a higher air/water ratio |
| HeuristicSizing.BlowerStage | tools/heuristic_sizing.py:296-394 | the blower block exists exactly when the packing is in the catalog and both the pressure-drop and blower calculations succeed; the aftercooling duty is reported exactly when positive |
| HeuristicSizing.AssembleOutcome | tools/heuristic_sizing.py:273-297 | corrected tool: the result schema refuses a design without a packing id; otherwise the outcome carries the request, the chemistry and the design, and a blower only when requested |
| HeuristicSizing.SizeDesign | tools/heuristic_sizing.py:259-427 | corrected tool: every failure inside the design block is reported as a design failure; a successful outcome carries the design computed on the design basis |
| HeuristicSizing.SizeValid | tools/heuristic_sizing.py:121-164 | corrected tool: chemistry errors surface unchanged; then, without the fluids library (an absent correlation), the blower module's import raises for every request, blower requested or not; otherwise the design block decides, and a success carries the chemistry prepared from the caller's JSON |
| HeuristicSizing.Size | tools/heuristic_sizing.py:107-124 | corrected tool: validation errors come first and exactly when validation fails; the chemistry is prepared from the tool's own JSON argument; a success carries the validated request |
| HeuristicSizing.SizeSucceedsIff | tools/heuristic_sizing.py:107-427 | corrected tool: sizing succeeds exactly when the request validates, the chemistry prepares, the fluids library is present and the design succeeds with a packing id |
| HeuristicSizing.SizeReports | tools/heuristic_sizing.py:401-421 | corrected tool: a successful outcome bundles the design, the chemistry, the resolved Henry's constant, the application's molecular weight and gas phase, the drift warnings and the optional blower block |
| HeuristicSizing.SizeDesignAsWritten | tools/heuristic_sizing.py:259-427 | as written: the design block never succeeds; design errors, then a missing packing id, then the outcome constructor's refusal of the chemistry keyword, each reported as a design failure |
| HeuristicSizing.SizeAsWritten | tools/heuristic_sizing.py:107-124 | as written: the tool never succeeds; validation errors exactly when validation fails, otherwise the missing chemistry attribute |
| HeuristicSizing.AsWrittenSizingAlwaysFails | tools/heuristic_sizing.py:107-124 | every request the corrected tool sizes fails as written, because the chemistry keyword is not a declared input field |
| HeuristicSizing.AsWrittenOutcomeRejected | tools/heuristic_sizing.py:413-427 | every design block the corrected tool completes fails as written, because the outcome dataclass does not declare the chemistry keyword |
| HeuristicSizing.BlowerNeverBlocksSizing | tools/heuristic_sizing.py:392-394 | corrected tool: turning blower sizing on or off never changes whether sizing succeeds, its error, or anything but the blower block |
| EconomicDefaults.Cepci | utils/economic_defaults.py:43-54 | the ten tabulated index years, each with a positive index |
| EconomicDefaults.Escalate | utils/economic_defaults.py:81-102 | an untabulated base year is reported first, then an untabulated target year; otherwise the escalated cost times the base index equals the cost times the target index |
| EconomicDefaults.EscalateSameYear | utils/economic_defaults.py:97-102 | escalating within one tabulated year returns the cost unchanged |
| EconomicDefaults.EscalateComposes | utils/economic_defaults.py:97-102 | escalating in two steps through a tabulated year equals escalating directly |
| EconomicDefaults.EscalateRoundTrip | utils/economic_defaults.py:97-102 | escalating there and back returns the original cost |
| EconomicDefaults.EscalateMonotone | utils/economic_defaults.py:97-102 | escalation keeps the order of two costs |
| EconomicDefaults.PositionOfParamAt | utils/economic_defaults.py:115-178 | each position of the default dict holds the parameter whose position it is |
| EconomicDefaults.ParamAtPosition | utils/economic_defaults.py:115-178 | every parameter has a position among the 33 and is found there |
| EconomicDefaults.DefaultParams | utils/economic_defaults.py:105-178 | the 33 parameters in insertion order, each paired with its default value |
| EconomicDefaults.DefaultsUnique | utils/economic_defaults.py:115-178 | no parameter appears twice among the defaults |
| EconomicDefaults.GetDefault | utils/economic_defaults.py:115-178 | every parameter is present in the defaults with its default value |
| EconomicDefaults.PackingCostParam | utils/economic_defaults.py:202-207 | only the four price parameters price a packing type |
| EconomicDefaults.Lookup | utils/economic_defaults.py:203-206 | reading a parameter succeeds exactly when it is present, with its stored value, and otherwise names the missing parameter |
| EconomicDefaults.PackingCost | utils/economic_defaults.py:181-215 | succeeds exactly when all four prices are present and the type is known, with that type's price; a missing price fails before an unknown type; no parameter set means the defaults |
| EconomicDefaults.PackingCostMissingFirst | utils/economic_defaults.py:202-207 | the first missing price in reading order is the one reported |
| EconomicDefaults.DefaultPackingPrices | utils/economic_defaults.py:199-215 | without parameters a known type costs its default price and an unknown type is rejected |
| EconomicDefaults.DefaultPricesAreEscalated | utils/economic_defaults.py:141-144 | the four default packing prices are the 2019 prices carried to 2025 dollars |
| EconomicDefaults.ApplyDefaults | utils/economic_defaults.py:218-235 | no user parameters yields the defaults; otherwise the keys are those of the defaults and the user's, each once |
| EconomicDefaults.UserValuesWin | utils/economic_defaults.py:234-235 | a parameter the user supplies reads the user's value, any other its default |
| EconomicDefaults.EmptyOverrideKeepsDefaults | utils/economic_defaults.py:234-235 | merging an empty override gives back the defaults |
| EconomicDefaults.RunChecks | utils/economic_defaults.py:248-287 | the checks pass exactly when every check's parameter is present and within its bounds |
| EconomicDefaults.RunChecksReportsFirst | utils/economic_defaults.py:248-287 | a failure names the first failing check, and every earlier check passed |
| EconomicDefaults.ValidateParams | utils/economic_defaults.py:238-287 | validation passes exactly when all seven range checks pass |
| EconomicDefaults.ValidateRanges | utils/economic_defaults.py:248-287 | validation passes exactly when WACC, lifetime, utilisation, electricity cost, blower efficiency, vessel exponent and packing replacement each lie in their stated open or closed ranges |
| EconomicDefaults.DefaultsValid | utils/economic_defaults.py:115-178 | the default parameter set passes validation |
| EconomicDefaults.UncheckedOverridesStayValid | utils/economic_defaults.py:230-287 | overriding only parameters validation does not read keeps the merged set valid |
| WatertapCosting.AnnuityFactors | tools/watertap_costing.py:144-162 | for a positive rate, pv·r = 1 − (1+r)^−n and crf·((1+r)^n − 1) = r·(1+r)^n, failing exactly when (1+r)^n = 1; otherwise pv = n and crf·n = 1, failing exactly when n = 0 |
| WatertapCosting.AnnuityReciprocal | tools/watertap_costing.py:144-162 | the present-value factor and the capital recovery factor are reciprocals whenever (1+r)^−n·(1+r)^n = 1 |
| WatertapCosting.Payback | tools/watertap_costing.py:166-173 | payback is finite exactly when operating cost is positive, and then payback × operating cost = capital |
| WatertapCosting.Read | tools/watertap_costing.py:136-138 | reading a parameter succeeds exactly when it is present and otherwise names the missing parameter |
| WatertapCosting.MetricsFrom | tools/watertap_costing.py:151-187 | NPV is minus capital plus present-value operating cost; annualised cost is capital × CRF + operating cost; LCOW × annual water = annualised cost; the per-1000-gallon LCOW is 3.78541 times the per-m³ one |
| WatertapCosting.EconomicMetrics | tools/watertap_costing.py:118-187 | a missing WACC is reported before a missing lifetime; the metrics exist exactly when all three parameters are present, the annuity factors exist and the annual production (flow × 8760 × utilisation) is non-zero |
| WatertapCosting.NpvIsAnnualizedOverLifetime | tools/watertap_costing.py:147-176 | the net present cost equals the annualised cost times the present-value factor |
| WatertapCosting.NpvNonPositive | tools/watertap_costing.py:151-154 | with non-negative costs the net present value is never positive |
| WatertapCosting.LcowGrowsWithCapex | tools/watertap_costing.py:164 | a larger capital cost never lowers the levelised cost of water |
| WatertapCosting.Shares | tools/watertap_costing.py:341-343 | each component keeps its name and its share times the total is 100 × its cost |
| WatertapCosting.Breakdown | tools/watertap_costing.py:337-343 | a zero total raises and nothing else does; the shares keep the components' names and order, each share times the total is that component's cost times 100, and the shares add up to 100 |
| WatertapCosting.SharesKeys | tools/watertap_costing.py:341-343 | the shares have exactly the components' names |
| WatertapCosting.SharesTotal | tools/watertap_costing.py:341-343 | the shares add up to the whole total over the divisor, times 100 |

## Left out

- The chemical equilibrium engine (PHREEQC instance caching, VOC phase loading, solution and gas-phase handling and extraction in `tools/simulation_sizing.py`): it is the `StagedColumn.Engine` parameter, returning liquid moles, gas totals and pH.
- The strippable-fraction correlation of `utils/speciation.py` and Henry's-constant temperature correction of `utils/henry_constants.py`: parameters, since they are numerical library code.
- Transcendental numerics (log-log flood-line interpolation, NTU logarithms, Eckert square roots and powers, the low-λ HTU correction, the diameter square root, real exponentiation in the annuity factors): parameters with no properties assumed beyond those stated in the lemmas that need them; the domain errors Python's `math.sqrt` and `math.log` raise (negative or non-positive arguments) are modelled as `TowerDesign.MathDomain` where the tower design calls them.
- The isothermal, polytropic and adiabatic compression-work formulas of `utils/blower_sizing.py`: the `BlowerSizing.CompressionWork` parameter; only the bookkeeping around them is modelled.
- The Robbins correlation body in `utils/pressure_drop.py`: the `PressureDrop.Robbins` parameter; its fallback branch is modelled. The tool's environment carries the same `Option`: an absent correlation means the fluids library is missing, so the tool's import of the blower module raises (`HeuristicSizing.FluidsMissing`), and the fallback is reached only by the pressure-drop functions called on their own.
- `calculate_htu_correlation` in `utils/tower_design.py`: not called by the design glue.
- File I/O: `load_packing_catalog` and `list_available_packings` read `pack.json`; the catalog is a parameter of the lookups instead.
- JSON decoding in `parse_water_chemistry_json`: the `decode` parameter, which also settles duplicate keys and NaN/Infinity literals; the post-decode checks are modelled.
- The Pyomo/WaterTAP model construction and cost correlations of `tools/watertap_costing.py` and `get_cost_provenance` in `utils/economic_defaults.py`: wrappers over libraries outside this model; the component costs reach `WatertapCosting.Breakdown` as inputs.
- Import-time BioSTEAM/QSDsan detection in `utils/economic_defaults.py`: the CEPCI table and blower defaults are fixed at their fallback values (2025 index 850.0).
- User economic parameters outside the 33 default keys: `EconomicDefaults.Params` is keyed by the 33 default parameters only.
- All logging, including the charge-imbalance, unachievable-target and low-strippable-fraction messages, the height-ratio diagnostic and the formatted text of warnings (the `describe` parameter).
- `outer_iterations` in the simulation result: a hard-coded constant unrelated to the search actually performed.
- The branch of `calculate_packed_height` for a missing HTU: unreachable, because the Tier 1 result always carries one.
- The escalation doc-string example in `utils/economic_defaults.py`: it disagrees with the table; the table is modelled.
- Floating-point effects (rounding, overflow in exponentiation, `0.3·x + 0.7·x ≠ x`) and convergence speed: Python floats are exact reals here.
- The MCP server, CLI, job manager, database scripts and engine-driven debug scripts: process plumbing, not computation.
- PressureDrop.TowerArea: states non-negativity and π·d²/4 but not "positive exactly for a non-zero diameter", because the solver does not reuse products of reals reliably.
- WatertapCosting.EconomicMetrics: the lifetime is a real number; Python accepts an integer or a float there alike.
- WaterChemistry.ParseChemistry: a JSON NaN passes the non-negativity check in Python; decoded values are exact reals here, so that case is not represented.
- EconomicDefaults.ValidateParams: a NaN parameter fails every range check in Python; parameters are exact reals here.
- TowerDesign.EckertFlooding: `nu_cs ** 0.05` of a negative kinematic-viscosity term gives a complex number in Python rather than an error; the model takes the `pow` parameter's real value there.
- PackingProperties.FindPackings: the name and material filters fold letter case in ASCII only; Python's `lower()` also folds non-ASCII letters (`"CÉRAMIQUE"` matches `"céramique"` there, not here), because Unicode case tables are not modelled.
- PackingProperties.DefaultPackingId: the application is upper-cased in ASCII only; Python's `upper()` also maps non-ASCII letters (`"h2ſ"` becomes `"H2S"` there and gets the H2S default; here it gets the general default), for the same reason.
- HeuristicSizing.DefaultHenry: the application is upper-cased in ASCII only, while Python's `upper()` also maps non-ASCII letters; `"h2ſ"` gets the H2S constant 0.41 in Python and the general 1.0 here. The validated tool always passes one of the four literal spellings, where both agree.
- HeuristicSizing.MolecularWeightFor: the same ASCII-only upper-casing; `"h2ſ"` gets 34.08 g/mol in Python and the general 100.0 here.
- HeuristicSizing.GasPhaseFor: the same ASCII-only upper-casing; `"h2ſ"` gets `"H2S(g)"` in Python and the general `"TCE(g)"` here.
- HeuristicSizing.UnknownApplicationFallsBack: holds for names that differ from CO2, H2S and VOC in ASCII letter case only; in Python `"h2ſ"` resolves to the H2S entries.
- StagedColumn.AlphaProfile: H2S and CO2 are recognised in ASCII letter case only; in Python `"h2ſ"` also takes the pH-dependent fraction, here it gets 1.
- HeuristicSizing.Size: models the corrected tool; the tool as written fails on every valid request (see Findings), which `HeuristicSizing.SizeAsWritten` models.
- HeuristicSizing.SizeValid: corrected tool; as written the chemistry attribute read raises before it.
- HeuristicSizing.SizeDesign: corrected tool; as written the outcome constructor raises, which `HeuristicSizing.SizeDesignAsWritten` models.
- HeuristicSizing.AssembleOutcome: corrected tool; the outcome carries the chemistry field the as-written dataclass lacks.
- HeuristicSizing.SizeReports: describes outcomes of the corrected tool only; the tool as written never constructs one.
- HeuristicSizing.BlowerNeverBlocksSizing: holds of the corrected tool; as written every valid request fails whatever the blower option.

## Findings

| source | as written | input that shows it | evidently intended | confidence | as-written member | corrected member |
|---|---|---|---|---|---|---|
| tools/simulation_sizing.py:476-481 | the top point's liquid is copied from itself every sweep, and damping a value against itself leaves it unchanged, so the reported outlet stays at the seeded target; the search objective (outlet − target) is then 0 for every N and the bisection over [5, 100] returns 6 | any design whose solves converge on [5, 100]; concretely, for a one-stage column whose engine strips nothing, the profile with liquid [10, 1] and no gas is a fixed point of the as-written iteration that reports the target met while its mass balance is 90 % off | the top point carries the liquid leaving stage N−1, so the reported outlet is the column's actual outlet | high (not executed) | StagedColumn.AsWrittenAcceptsUnstrippedColumn | StagedColumn.FixedPointColumnBalance |
| tools/simulation_sizing.py:719-757 | the stage search compares the frozen top liquid with the target it was seeded with | any design whose solves converge on [5, 100] | the search compares the column's actual outlet with the target and finds the smallest sufficient N | high (not executed) | StagedColumn.AsWrittenSearchReturnsSix | StagedColumn.CorrectedSearchIsMinimal |
| tools/heuristic_sizing.py:108-124 | the tool passes `water_chemistry_json` to `HeuristicSizingInput`, which does not declare it, so pydantic drops it; reading `input_data.water_chemistry_json` then raises AttributeError outside the error handler | any request that passes validation | the input model declares the chemistry JSON, so the caller's chemistry reaches the preparation step | high (not executed) | HeuristicSizing.AsWrittenSizingAlwaysFails | HeuristicSizing.SizeSucceedsIff |
| tools/heuristic_sizing.py:413-427 | `Tier1Outcome` is built with `water_chemistry=…`, a field the dataclass (tools/schemas.py:513-533) does not declare; the TypeError is re-raised as "Design calculation failed" | any request whose design succeeds with a packing id | the outcome carries the prepared chemistry, which the Tier 2 simulation reads back (tools/simulation_sizing.py:446) | high (not executed) | HeuristicSizing.AsWrittenOutcomeRejected | HeuristicSizing.SizeReports |
