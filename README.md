# Production planning model formulation, in Dafny

This project models the formulation engine of a Pyomo production-planning optimiser. It covers the finite logic that decides:

- which decision variables exist;
- which constraints are emitted, and what each one says;
- what the revenue-minus-cost objective is;
- how the input workbook's tables are cleaned into the dictionaries the optimiser reads.

The solver is not modelled. A candidate solution is an `Assignment`, a total function from variables to reals. Each claim about the optimisation model is stated as "every assignment satisfying these constraints has this property", or as its converse.

Modules, following the program's files:

| module | file | models |
|---|---|---|
| `Wrappers` | `wrappers.dfy` | `Option`, `Result`, the Python exceptions the code raises, `dict.get` |
| `Indexes` | `indexes.dfy` | the index records and the ordered Cartesian-product builders of `src/utils.py` |
| `Linear` | `linear.dfy` | linear expression trees as Pyomo's operators build them, relations, a rule's `Skip`/emit/raise outcome, a constructed constraint family (`Block`) with its emitted indices and its satisfaction predicate |
| `BaseConstraint` | `base_constraint.dfy` | the shared builder context with its truthiness-defaulted index spaces |
| `InventoryConstraints`, `ProductionConstraints`, `FlowConstraints`, `DemandConstraints`, `PurchasingConstraints` | one file each | the constraint families; for each rule, the indices where it emits, and what satisfying it means for an assignment |
| `Tables` | `tables.dfy` | cells, sheets, and a mutable `DataFrame` class with column lookup, column assignment, relabelling and `unique` |
| `Preprocessing` | `preprocessing.dfy` | zipping columns, the two-column mapping dictionary, `create_costs`, the header normalisation pipeline, and the reading and cleaning loop |
| `BillsOfMaterials` | `bom.dfy` | the `Bom` class: construction mutates the caller's table; `all_parent_materials` |
| `Optimizers` | `optimizer.dfy` | the `ManufacturingOptimizer` class: `__init__` index defaulting, the `build_model` steps in order, the objective expression, `generate_results` |

How the pieces are modelled:

- A constraint family is `BuildBlock(name, index, rule)`: the rule run at every index in order. It has two partner lemmas. `...Emitted` says exactly at which indices an equation exists. `...Satisfied` says what satisfying the family means, in plain terms over the assignment.
- The optimiser is a class. Its fields move from `None` to built values. Each `Create*` method is proved against a pure step function (`WithVariables`, `WithInventory`, …). `BuildModel` is proved against their composition `Built`. The `BuiltModel*` lemmas then state what every feasible assignment of the built model satisfies.
- A rule that would raise (a direct `d[key]` on a missing key) gives `Raise(KeyError(key))`. Pyomo runs rules when the family is constructed, so the error belongs to the row, not to the builder call. `Constructible` says that no row raises.

## Model

| member | source | states |
|---|---|---|
| Wrappers.GetOr | src/constraints_builders/demand_constraints.py:48-50 | `dict.get(k, default)` gives the stored value when the key is present, and the default otherwise |
| Indexes.TimeRange | src/utils.py:19 | `range(t0, tmax + 1)`: `Span(t0, tmax)` entries, entry `k` is `t0 + k`, empty when `tmax < t0` |
| Indexes.BuildMaterialTimeIndexes | src/utils.py:5-20 | the material-time index has (number of materials) × `Span(t0, tmax)` entries and is empty when `tmax < t0` |
| Indexes.MaterialTimeIndexAt | src/utils.py:16-20 | material-major, time-minor order: entry `i*Span + k` is `(materials[i], t0 + k)` |
| Indexes.MaterialTimeIndexMember | src/utils.py:16-20 | `(m, t)` is in the index iff `m` is a listed material and `t0 <= t <= tmax` |
| Indexes.T0IndexOnePerMaterial | src/utils.py:16-20 | with `tmax == t0` the builder yields exactly one entry per material, in list order |
| Indexes.BuildSingleMaterialEquipmentFormulaTimeIndex | src/utils.py:52-72 | the record's four named fields are its four arguments |
| Indexes.BuildMaterialEquipmentFormulaTimeIndexes | src/utils.py:23-49 | the production index has materials × equipment × formulas × `Span(t0, tmax)` entries |
| Indexes.MaterialEquipmentFormulaTimeIndexAt | src/utils.py:41-49 | order is material, then equipment, then formula, then time innermost: the entry at `MeftPosition(i, j, l, k)` is `(materials[i], equipment[j], formulas[l], t0 + k)` |
| Indexes.MaterialEquipmentFormulaTimeIndexMember | src/utils.py:41-49 | `(m, e, f, t)` is in the index iff `m`, `e` and `f` are listed and `t0 <= t <= tmax` |
| Linear.BuildBlock | src/constraints_builders/inventory_constraints.py:24-28 | `Constraint(index, rule=rule, name=name)` once constructed: the given name and index, and the rule's outcome at every index, in index order |
| Linear.EmittedBuildBlock | src/constraints_builders/production_constraints.py:55-65 | a built family emits at exactly the indices where its rule returns a relation rather than `Constraint.Skip` |
| Linear.SatisfiedBuildBlock | src/constraints_builders/production_constraints.py:55-65 | a built family is satisfied iff the rule's outcome at every index is obeyed |
| Linear.ConstructibleBuildBlock | src/constraints_builders/inventory_constraints.py:12-28 | a built family constructs iff the rule raises at no index |
| Linear.HomogeneousIsLinear | src/optimizers/manufacturing_optimizer.py:350-372 | an expression with no constant term is linear: at `c * a1 + a2` it evaluates to `c` times its value at `a1` plus its value at `a2` |
| Linear.HomogeneousAtZero | src/optimizers/manufacturing_optimizer.py:350-372 | an expression with no constant term evaluates to 0 at the all-zero assignment |
| BaseConstraint.NewContext | src/constraints_builders/base_constraint.py:7-37 | materials, t0 and tmax are stored unchanged; a supplied non-empty index is used verbatim; otherwise the all-time index is built over `[t0, tmax]` and the t0 index over `[t0, t0]` |
| BaseConstraint.DefaultedIndexes | src/constraints_builders/base_constraint.py:19-37 | a defaulted all-time index holds exactly the materials over `[t0, tmax]`; a defaulted t0 index holds one `(m, t0)` per material, in order |
| BaseConstraint.EmptyListIsRebuilt | src/constraints_builders/base_constraint.py:19-21 | an index supplied as an empty list counts as absent and is rebuilt, because the test is truthiness |
| InventoryConstraints.InitialInventoryRule | src/constraints_builders/inventory_constraints.py:12-22 | raises `KeyError(m)` iff `m` has no initial inventory; otherwise emits an equation that holds iff `inventory[(m, t0)] == initial_inventory[m]` |
| InventoryConstraints.InitialInventoryConstraint | src/constraints_builders/inventory_constraints.py:24-28 | the family is named `initial_inventory_constraint` and indexed by the materials, with one row per material |
| InventoryConstraints.InitialInventoryConstructible | src/constraints_builders/inventory_constraints.py:12-28 | the family constructs iff every material has an initial inventory, and then emits exactly one equation per material |
| InventoryConstraints.InitialInventorySatisfied | src/constraints_builders/inventory_constraints.py:12-28 | satisfied iff every material has an entry and its inventory at t0 equals it |
| InventoryConstraints.SafetyStockRule | src/constraints_builders/inventory_constraints.py:31-41 | raises `KeyError(m)` iff `m` has no safety stock; otherwise emits a relation that holds iff `inventory[(m, tmax)] >= safety_stock[m]` |
| InventoryConstraints.SafetyStockConstraint | src/constraints_builders/inventory_constraints.py:43-47 | named `inventory_at_tmax_goe_than_safety_stock`, with one row per material |
| InventoryConstraints.SafetyStockConstructible | src/constraints_builders/inventory_constraints.py:30-47 | constructs iff every material has a safety stock, and then emits one relation per material |
| InventoryConstraints.SafetyStockSatisfied | src/constraints_builders/inventory_constraints.py:30-47 | satisfied iff every material has an entry and its inventory at tmax is at least that entry |
| InventoryConstraints.SingleInstantNeedsEnoughInitialStock | src/constraints_builders/inventory_constraints.py:12-47 | with `t0 == tmax`, both families satisfied force `initial_inventory[m] >= safety_stock[m]` |
| InventoryConstraints.SingleInstantSatisfiable | src/constraints_builders/inventory_constraints.py:12-47 | conversely, with `t0 == tmax` and enough initial stock for every material, holding the initial stock satisfies both families |
| ProductionConstraints.NewProductionBuilder | src/constraints_builders/production_constraints.py:15-47 | the context is the defaulted one; the production index holds exactly the listed combinations over `[t0, tmax]`, with materials × equipment × formulas × `Span(t0, tmax)` entries; the two equipment index spaces are kept as passed in |
| ProductionConstraints.ClosedHoursRule | src/constraints_builders/production_constraints.py:55-59 | emits iff `t % 24 < 8` or `t % 24 > 20`, never raises, and the equation holds iff `production[(m, e, f, t)] == 0` |
| ProductionConstraints.NoProductionWhenFactoryIsClosed | src/constraints_builders/production_constraints.py:61-65 | the family runs the closed-hours rule over the production index |
| ProductionConstraints.ClosedHoursEmitted | src/constraints_builders/production_constraints.py:49-65 | an equation exists exactly at the production indices whose hour of day is before 8 or after 20; hours 8 to 20 are skipped |
| ProductionConstraints.ClosedHoursSatisfied | src/constraints_builders/production_constraints.py:49-65 | satisfied iff production is zero at every closed hour of the index |
| ProductionConstraints.NoProductionAtT0 | src/constraints_builders/production_constraints.py:57 | when `t0 % 24 < 8` (for example `t0 = 0`), every listed `(m, e, f)` has zero production at t0 |
| ProductionConstraints.CapacityRule | src/constraints_builders/production_constraints.py:75-96 | emits iff `(e, f)` is in `max_capacity`; the relation holds iff the sum over materials of `production[(m, e, f, t)]` is at most the capacity; the sum is in batches and is not scaled; a missing pair is skipped |
| ProductionConstraints.ProductionDoesntExceedCapacity | src/constraints_builders/production_constraints.py:98-102 | the family runs the capacity rule over the equipment-formula-time index |
| ProductionConstraints.CapacityEmitted | src/constraints_builders/production_constraints.py:67-102 | a relation exists exactly at the indices whose (equipment, formula) pair has a capacity |
| ProductionConstraints.CapacitySatisfied | src/constraints_builders/production_constraints.py:67-102 | satisfied iff every listed pair's batches stay within its capacity at every indexed time |
| ProductionConstraints.StatusWindow | src/constraints_builders/production_constraints.py:113-116 | the window holds the `k + 1` statuses of periods `t .. t + k`, in order |
| ProductionConstraints.MaxRunRule | src/constraints_builders/production_constraints.py:110-119 | emits iff `t < tmax - k`; the relation holds iff the window's status sum is at most `k`; every variable it names is a status of the same equipment inside `[t, tmax)` |
| ProductionConstraints.MaxContinuousProductionTimeLimit | src/constraints_builders/production_constraints.py:121-125 | the family runs the run-length rule over the equipment-time index |
| ProductionConstraints.MaxRunEmitted | src/constraints_builders/production_constraints.py:104-125 | a relation exists exactly at the indices with `t < tmax - k`; none is emitted for `t >= tmax - k` |
| ProductionConstraints.MaxRunSatisfied | src/constraints_builders/production_constraints.py:104-125 | satisfied iff every such window's status sum is at most `k` |
| ProductionConstraints.NoOverlongRun | src/constraints_builders/production_constraints.py:110-118 | with 0/1 statuses, a satisfying assignment has an idle period in every window of `k + 1` periods that starts before `tmax - k` |
| FlowConstraints.NewFlowBuilder | src/constraints_builders/flow_constraints.py:11-23 | the defaulted context, the equipment and formula lists, and the BOM's parent materials and required-quantity lookup are stored |
| FlowConstraints.OwnSumValue | src/constraints_builders/flow_constraints.py:48-60 | the generated sum over equipment, then formula, evaluates to the sum of the production values in the same order |
| FlowConstraints.ConsumptionRowValue | src/constraints_builders/flow_constraints.py:64-81 | for one parent material, the sum over formula, then equipment, of `q * production` evaluates term by term |
| FlowConstraints.ConsumptionSumValue | src/constraints_builders/flow_constraints.py:64-81 | the sum over parent materials, formulas and equipment evaluates to the sum of the consumption values in the same order |
| FlowConstraints.OwnProductionValue | src/constraints_builders/flow_constraints.py:48-62 | the own-production expression evaluates to `batch * Σ_{e, f} production[(m, e, f, t)]`, summed equipment-major |
| FlowConstraints.ConsumedValue | src/constraints_builders/flow_constraints.py:63-83 | the consumption expression evaluates to `batch * Σ_{p, f, e} q(f, p, m) * production[(p, e, f, t)]`, with `q` the BOM lookup |
| FlowConstraints.FlowRule | src/constraints_builders/flow_constraints.py:35-96 | emits iff `t != tmax`, never raises, and emits an equation that holds iff `inv[m, t+1] == inv[m, t] + purchased + own - consumed - filled` |
| FlowConstraints.OwnProductionVars | src/constraints_builders/flow_constraints.py:48-62 | the own-production sum names only `production` variables of `m` at `t` |
| FlowConstraints.ConsumptionVars | src/constraints_builders/flow_constraints.py:63-83 | the consumption sum names only `production` variables of parent materials at `t` |
| FlowConstraints.FlowRuleVars | src/constraints_builders/flow_constraints.py:35-96 | the balance equation at `(m, t)` names only the inventory at `t` and `t + 1`, the purchase and filled demand at `t`, and production at `t` of `m` or a parent material |
| FlowConstraints.MaterialFlowBalance | src/constraints_builders/flow_constraints.py:98-102 | the family is named `sc_main_equation_constraint` and runs the balance rule over the all-time index |
| FlowConstraints.FlowEmitted | src/constraints_builders/flow_constraints.py:40-41 | an equation exists at every all-time index except those with `t == tmax` |
| FlowConstraints.FlowSatisfied | src/constraints_builders/flow_constraints.py:35-102 | satisfied iff the balance holds at every indexed `(m, t)` with `t != tmax` |
| FlowConstraints.NetFlows | src/constraints_builders/flow_constraints.py:89-96 | the sequence of per-period net flows `purchased + own - consumed - filled` over `[from, to)` |
| FlowConstraints.TelescopeTo | src/constraints_builders/flow_constraints.py:89-96 | if the balance holds at every period of `[t0, s)`, then `inv[m, s] = inv[m, t0] + Σ` of the net flows over `[t0, s)` |
| FlowConstraints.InventoryTelescopes | src/constraints_builders/flow_constraints.py:35-102 | under a satisfying assignment, the inventory at any `s` in `[t0, tmax]` is the initial inventory plus the net flows over `[t0, s)` |
| FlowConstraints.ConstantInventoryWithoutFlows | src/constraints_builders/flow_constraints.py:89-96 | a material with no purchase, production, consumption or filled demand keeps its inventory over the whole horizon |
| FlowConstraints.NoFlowsSumToZero | src/constraints_builders/flow_constraints.py:89-96 | periods with no flow at all contribute a net flow sum of zero |
| DemandConstraints.NewDemandBuilder | src/constraints_builders/demand_constraints.py:9-17 | the defaulted context and the demand dictionary are stored |
| DemandConstraints.FillingHourRule | src/constraints_builders/demand_constraints.py:26-29 | emits iff `t % 24 != demand_filling_time`, and the equation holds iff `filled_demand[(m, t)] == 0`; at the filling hour the rule skips |
| DemandConstraints.DemandIsFilledOnlyAtConcreteTimeInADay | src/constraints_builders/demand_constraints.py:19-35 | the family runs the filling-hour rule over the all-time index |
| DemandConstraints.FillingHourEmitted | src/constraints_builders/demand_constraints.py:19-35 | an equation exists exactly at the indices off the filling hour |
| DemandConstraints.FillingHourSatisfied | src/constraints_builders/demand_constraints.py:19-35 | satisfied iff filled demand is zero at every index off the filling hour |
| DemandConstraints.UnreachableFillingHourBlocksAllDemand | src/constraints_builders/demand_constraints.py:27 | a filling hour outside `0..23` forces zero filled demand at every time |
| DemandConstraints.DemandCeilingRule | src/constraints_builders/demand_constraints.py:46-50 | always emits, never raises, and holds iff `filled_demand[(m, t)] <= demand.get((m, t), 0)` |
| DemandConstraints.FilledDemandLoeThanDemand | src/constraints_builders/demand_constraints.py:52-56 | the family runs the ceiling rule over the all-time index |
| DemandConstraints.DemandCeilingEmitted | src/constraints_builders/demand_constraints.py:37-56 | a relation exists at every all-time index |
| DemandConstraints.DemandCeilingSatisfied | src/constraints_builders/demand_constraints.py:37-56 | satisfied iff filled demand is within the default-0 demand everywhere |
| DemandConstraints.NoOrderNoFilling | src/constraints_builders/demand_constraints.py:48-50 | with non-negative filled demand, an index without a demand entry forces zero filled demand |
| DemandConstraints.TestDemandTimeIsFillingHour | tests/e2e_test/production_problem_test.py:26 | the test's day `p >= 1` becomes hour `(p - 1) * 24 + 8`, which is the default filling hour of the day, where the filling rule skips |
| PurchasingConstraints.ParentPurchaseRule | src/constraints_builders/purchasing_consrtaints.py:16-20 | emits iff the material is a parent material, and the equation holds iff `purchased[(m, t)] == 0`; other materials are skipped |
| PurchasingConstraints.OnlyComponentsCanBePurchased | src/constraints_builders/purchasing_consrtaints.py:22-26 | named `only_components_can_be_purchased`, over the inherited all-time index |
| PurchasingConstraints.ParentPurchaseEmitted | src/constraints_builders/purchasing_consrtaints.py:9-26 | an equation exists exactly at the indices of parent materials |
| PurchasingConstraints.ParentPurchaseSatisfied | src/constraints_builders/purchasing_consrtaints.py:9-26 | satisfied iff parent materials are never bought |
| PurchasingConstraints.ClosedPurchaseRule | src/constraints_builders/purchasing_consrtaints.py:34-38 | emits iff the hour of day is before 8 or after 20, and holds iff the purchase is zero |
| PurchasingConstraints.NoPurchasingWhenFactoryIsClosed | src/constraints_builders/purchasing_consrtaints.py:40-44 | named `no_purchasing_when_factory_is_closed`, over the inherited all-time index |
| PurchasingConstraints.ClosedPurchaseEmitted | src/constraints_builders/purchasing_consrtaints.py:28-44 | an equation exists exactly at the indices outside hours 8 to 20 |
| PurchasingConstraints.ClosedPurchaseSatisfied | src/constraints_builders/purchasing_consrtaints.py:28-44 | satisfied iff nothing is bought at a closed hour |
| PurchasingConstraints.PurchaseOnlyOfComponentsDuringOpeningHours | src/constraints_builders/purchasing_consrtaints.py:16-38 | under both families, a non-zero purchase is of a non-parent material at an hour in 8..20 |
| PurchasingConstraints.NoPurchasesMeetBothFamilies | src/constraints_builders/purchasing_consrtaints.py:16-38 | conversely, buying nothing satisfies both families |
| Tables.IndexOf | src/bills_of_materials.py:22-27 | the position of the first label equal to a name; it is out of range iff there is none |
| Tables.Unique | src/bills_of_materials.py:49 | `Series.unique()`: the distinct values, each one present in the input, without duplicates, in first-occurrence order |
| Tables.Rename | src/preprocessing.py:50 | `rename(columns=…)`: every listed label is replaced and every other label is kept, in place |
| Tables.DataFrame.Column | src/bills_of_materials.py:22-27 | `df[name]` gives the column of the first matching label, as long as the table; a missing name is `KeyError(name)` |
| Tables.DataFrame.SetColumn | src/bills_of_materials.py:21-27 | `df[name] = values` overwrites the existing column or appends a new one; the rows and every other column's lookup stay as they were |
| Tables.DataFrame.SetLabels | src/preprocessing.py:41-49 | `df.columns = names` relabels in place and keeps the data |
| Tables.DataFrame.Renamed | src/preprocessing.py:50 | `rename` returns a new table with renamed labels and the same data, and leaves the original as it was |
| Tables.DataFrame.FromSheet | src/preprocessing.py:35-38 | a table read from a sheet has the sheet's labels, columns and row count |
| Preprocessing.UnifyColumnsIntoTuple | src/preprocessing.py:73-79 | `zip`: as long as the shortest column; entry `i` is the tuple of every column's `i`-th value |
| Preprocessing.MinLength | src/preprocessing.py:79 | the length `zip` stops at: the shortest column's length, or 0 without columns |
| Preprocessing.ProjectUnify | src/preprocessing.py:73-79 | projecting the zipped tuples on position `j` gives column `j` cut to the shortest length; for equal lengths, column `j` itself |
| Preprocessing.Pairs | src/preprocessing.py:63-66 | `Series(values, index=keys).to_dict()`: its keys are exactly the row keys |
| Preprocessing.PairsOfUniqueKeys | src/preprocessing.py:63-70 | with unique keys, each key maps to the value of its own row |
| Preprocessing.RowsWithKey | src/preprocessing.py:67-68 | the rows carrying a key, strictly increasing, and all of them |
| Preprocessing.ValuesOfRows | src/preprocessing.py:67-68 | a key's group lists the values of its rows, in row order |
| Preprocessing.UniqueKeyGroupIsSingleton | src/preprocessing.py:67-70 | with unique keys, each group is the single value of that key's row |
| Preprocessing.ValuesOfAbsent | src/preprocessing.py:67-68 | a key no row carries has an empty group |
| Preprocessing.MappingOf | src/preprocessing.py:63-70 | one-to-one iff no key repeats, mapping each key to its row's value; otherwise every key maps to the list of its rows' values in row order |
| Preprocessing.CreateMappingDictionaryFromTwoColumns | src/preprocessing.py:54-70 | succeeds iff both columns exist, and then is the mapping of the key column to the value column; `df[column_value]` is read first, so its `KeyError` comes first |
| Preprocessing.CreateCosts | src/preprocessing.py:82-113 | succeeds iff the five columns exist; inventory and purchase are keyed by `component`, production by `equipment_formula`; each missing lookup, in the source's order (`component`, `inventory_cost`, `purchase_cost`, `operation_cost`, `equipment_formula`), is the `KeyError` the call raises |
| Preprocessing.NextParen | src/preprocessing.py:42 | the position of the next parenthesis of either kind, with none before it |
| Preprocessing.RemoveParenGroups | src/preprocessing.py:42 | removing `\([^()]*\)` matches never lengthens a header |
| Preprocessing.RemoveParenGroupsDropsGroup | src/preprocessing.py:42 | a parenthesis-free group after a prefix with no `(` is removed, and the rest is processed on |
| Preprocessing.PrefixWithoutOpeningKept | src/preprocessing.py:42 | a prefix with no `(` is kept as it is |
| Preprocessing.RemoveParenGroupsWithoutGroups | src/preprocessing.py:42 | a header lacking `(` or lacking `)` is unchanged |
| Preprocessing.LeadingCharKept | src/preprocessing.py:42 | a leading character other than `(` is kept |
| Preprocessing.LeadingGroupDropped | src/preprocessing.py:42 | a leading group without nested parentheses is dropped |
| Preprocessing.UnderscoreInsertionNeverMatches | src/preprocessing.py:43 | the pattern `(?<=[a-z])(?=[A-Z])(?=[/])` never matches, because no character is both an upper-case letter and `/`, so the step changes nothing |
| Preprocessing.RStrip | src/preprocessing.py:44 | `rstrip()`: a prefix of the header, ending in a character outside Python's white-space set (ASCII and Unicode), with only such white space removed after it |
| Preprocessing.ReplaceChar | src/preprocessing.py:45-47 | literal `str.replace` of one character: every remaining character is either an original character other than the replaced one, or from the replacement; a header without that character is unchanged |
| Preprocessing.ReplaceCharConcat | src/preprocessing.py:45-47 | replacing a character distributes over concatenation |
| Preprocessing.LowerChar | src/preprocessing.py:48 | ASCII capitals become lower-case letters, and other characters are kept |
| Preprocessing.Lower | src/preprocessing.py:48 | `lower()` maps every character by `LowerChar` |
| Preprocessing.NormaliseColumnName | src/preprocessing.py:41-49 | a normalised header contains no space, `.`, `/` or ASCII capital |
| Preprocessing.NormaliseWithoutGroups | src/preprocessing.py:41-49 | for a header without `(` and without trailing white space, normalisation is the replacements followed by lower-casing |
| Preprocessing.ReplaceCharOnce | src/preprocessing.py:45-47 | replacing a character that occurs once substitutes the replacement at that place and keeps the rest |
| Preprocessing.ProductMaterialSlashDropped | src/preprocessing.py:47 | dropping `/` turns `Product/Material` into `ProductMaterial` |
| Preprocessing.ProductMaterialLowered | src/preprocessing.py:48 | lower-casing `ProductMaterial` gives `productmaterial` |
| Preprocessing.ProductMaterialHeader | tests/e2e_test/production_problem_test.py:46-56 | the header `Product/Material` normalises to `productmaterial`, the key column the test reads |
| Preprocessing.NormaliseLabels | src/preprocessing.py:41-49 | every label is normalised, in place |
| Preprocessing.RenamingIsNotChained | src/preprocessing.py:27-33 | the renaming is applied once: `product_material` becomes `material` while `material` becomes `component` |
| Preprocessing.RequiredDataDistinct | src/preprocessing.py:19-26 | the six required table names are distinct |
| Preprocessing.ReadSheets | src/preprocessing.py:35-38 | reads the six sheets in order as fresh, distinct tables; the first sheet missing from the workbook is the error, and every sheet before it exists |
| Preprocessing.CleanTable | src/preprocessing.py:40-50 | the table's labels are normalised in place; the returned new table carries the normalised and renamed labels and the same data |
| Preprocessing.CleanTables | src/preprocessing.py:40-50 | every table, in order, is replaced by its cleaned and renamed copy |
| Preprocessing.ReadProductionProblemExcelTemplate | src/preprocessing.py:9-51 | an assertion failure iff a required table has no sheet name; otherwise it fails iff a sheet is missing; on success it maps exactly the six names to fresh tables with the final labels and the source data |
| BillsOfMaterials.ZippedPairRow | src/bills_of_materials.py:21-27 | row `i` of a zipped pair column is `(first[i], second[i])` |
| BillsOfMaterials.ZippedPairLength | src/bills_of_materials.py:21-27 | zipping two columns as long as the table gives a column as long as the table |
| BillsOfMaterials.ZippedKeysRepeat | src/bills_of_materials.py:21-23 | the zipped `formula_parent` keys repeat iff two rows share both formula and parent |
| BillsOfMaterials.Bom.Create | src/bills_of_materials.py:12-41 | the caller's table gains `formula_parent` and then `component_proportion`, with no row or other column changed; a missing column is `KeyError` at the first failed lookup, with the earlier assignment left in place; `_bom_raw` is the mapping between the two new columns |
| BillsOfMaterials.Bom.CreateWithDefaults | src/bills_of_materials.py:12-41 | with the default column names the construction succeeds iff the four columns exist, and then the parent materials are the distinct `manufactured_good` values |
| BillsOfMaterials.Bom.Init | src/bills_of_materials.py:19-41 | the object keeps the caller's table itself, not a copy, together with the raw mapping and the four column names |
| BillsOfMaterials.Bom.AllParentMaterials | src/bills_of_materials.py:43-49 | the distinct values of column `manufactured_good`, each some row's parent, without duplicates, in first-occurrence order; `AttributeError` when the column is missing |
| BillsOfMaterials.CustomParentColumnIsIgnored | src/bills_of_materials.py:43-49 | a table whose parent column has another name has no parent materials, because the property always reads `manufactured_good` |
| BillsOfMaterials.BomRawOfSingleRowRecipes | src/bills_of_materials.py:29-33 | when no `(formula, parent)` key repeats, `_bom_raw` maps each key to its row's `(child, proportion)` |
| BillsOfMaterials.BomRawOfMultiRowRecipes | src/bills_of_materials.py:29-33 | when some key repeats, every key maps to the list of its rows' `(child, proportion)` pairs, in row order |
| Optimizers.NewSetup | src/optimizers/manufacturing_optimizer.py:30-91 | `tmax` is the simulation duration; each index space is used as given when supplied non-empty, and is otherwise built over `[t0, tmax]` (the t0 index over `[t0, t0]`; the equipment-time space by the shared `build_equipment_time_indexes` over the equipment and `[t0, tmax]`) |
| Optimizers.DefaultSetupAgreesWithBuilders | src/optimizers/manufacturing_optimizer.py:54-82 | with nothing supplied, the optimiser's all-time, t0, production and equipment-time spaces equal the ones its builders build for themselves (the equipment-time space through the one shared `build_equipment_time_indexes`), and the production index covers every `(m, e, f, t)` the objective names |
| Optimizers.ProductionVariable | src/variables.py:56-69 | the `production` family declares one variable per production index |
| Optimizers.FilledDemandVariable | src/variables.py:20-33 | the `filled_demand` family declares one variable per material-time index |
| Optimizers.InventoryVariable | src/variables.py:4-17 | the `inventory_quantity` family declares one variable per material-time index |
| Optimizers.PurchasedQtyVariable | src/variables.py:36-53 | the `purchased_quantity` family declares one variable per material-time index |
| Optimizers.EquipmentStatusVariable | src/optimizers/manufacturing_optimizer.py:176 | the `equipment_status` family declares one variable per equipment-time index |
| Optimizers.ObjectiveExpression | src/optimizers/manufacturing_optimizer.py:341-372 | the objective expression is homogeneous linear: it has no constant term |
| Optimizers.ProfitTerms | src/optimizers/manufacturing_optimizer.py:350-372 | the objective has one term per all-time index |
| Optimizers.CostRowValue | src/optimizers/manufacturing_optimizer.py:357-368 | for one formula, the production-cost sum over equipment evaluates to `Σ_e prodCost(e, f) * prod[m, e, f, t]`, default 0.0 |
| Optimizers.CostsValue | src/optimizers/manufacturing_optimizer.py:357-369 | the production-cost sum over formulas, then equipment, evaluates to the sum of those per-formula values |
| Optimizers.ProfitTermValue | src/optimizers/manufacturing_optimizer.py:350-370 | the term of `(m, t)` evaluates to `price*filled - invCost*inv - purchCost*purch - (Σ_{f, e} prodCost(e, f) * prod[m, e, f, t]) * batch`, with every missing lookup 0.0 |
| Optimizers.ObjectiveValue | src/optimizers/manufacturing_optimizer.py:341-372 | the objective evaluates to the sum of those terms over the all-time index |
| Optimizers.ObjectiveIsLinear | src/optimizers/manufacturing_optimizer.py:334-372 | the objective is linear in the assignment, and the all-zero assignment gives 0 |
| Optimizers.ObjectiveUsesDeclaredVariables | src/optimizers/manufacturing_optimizer.py:350-372 | when the production index covers the objective's indices, every variable the objective names is declared by `_create_variables` |
| Optimizers.HeadersMatchTestColumns | src/optimizers/manufacturing_optimizer.py:395-423 | each result's last header is its value column (`batches`, `quantity`, `quantity`, `quantity`, `status`), the one the test filters on; the index headers name the index record's fields |
| Optimizers.TextsOfMember | src/bills_of_materials.py:49 | a material is among the text cells kept iff it is a text cell of the column |
| Optimizers.TextsOfDistinct | src/bills_of_materials.py:49 | distinct cells give distinct materials |
| Optimizers.BomFactsOf | src/optimizers/manufacturing_optimizer.py:158 | the parent materials the flow and purchasing steps use are those of `bom.all_parent_materials`: exactly the text values of column `manufactured_good`, without duplicates |
| Optimizers.SetOf | src/optimizers/manufacturing_optimizer.py:149-158 | `set(xs)` has exactly the members of the list |
| Optimizers.DeclaredAtDefaultSpaces | src/optimizers/manufacturing_optimizer.py:163-176 | over the default spaces, the inventory, purchase, filled-demand and production variables of every material and period in `[t0, tmax]` are declared |
| Optimizers.InventoryFamiliesUseDeclaredVariables | src/constraints_builders/inventory_constraints.py:12-47 | over the default spaces, the initial-inventory and safety-stock families name only declared variables |
| Optimizers.DemandFamiliesUseDeclaredVariables | src/constraints_builders/demand_constraints.py:19-56 | the two demand families name only declared variables |
| Optimizers.PurchasingFamiliesUseDeclaredVariables | src/constraints_builders/purchasing_consrtaints.py:9-44 | the two purchasing families name only declared variables |
| Optimizers.ClosedHoursUsesDeclaredVariables | src/constraints_builders/production_constraints.py:49-65 | the closed-hours production family names only declared variables |
| Optimizers.FlowVarsDeclared | src/constraints_builders/flow_constraints.py:35-96 | over the default spaces, every variable a balance equation at `(m, t)` with `t0 <= t < tmax` can name is declared, when the parents are materials |
| Optimizers.FlowUsesDeclaredVariables | src/constraints_builders/flow_constraints.py:35-102 | the flow balance family names only declared variables, when the parents are materials |
| Optimizers.BuiltFamiliesUseDeclaredVariables | src/optimizers/manufacturing_optimizer.py:143-176 | after `build_model` over the default spaces with `t0 <= tmax`, the inventory, closed-hours, flow, demand and purchasing families name only variables `_create_variables` declares |
| Optimizers.BuiltModelInventory | src/optimizers/manufacturing_optimizer.py:143-202 | a feasible assignment of the built model starts every material at its initial inventory and ends it at or above its safety stock, and both dictionaries list every material |
| Optimizers.BuiltModelProduction | src/optimizers/manufacturing_optimizer.py:204-228 | a feasible assignment has zero production at every closed hour of the horizon |
| Optimizers.BuiltModelPurchases | src/optimizers/manufacturing_optimizer.py:157-159 | in a feasible assignment, a non-zero purchase is of a material that is not a BOM parent, at an hour in 8..20 |
| Optimizers.BuiltModelDemand | src/optimizers/manufacturing_optimizer.py:278-301 | a feasible assignment fills at most the default-0 demand, and nothing off the default filling hour 8 |
| Optimizers.BuiltModelNetFlowCoversSafetyStock | src/optimizers/manufacturing_optimizer.py:143-161 | in a feasible assignment, initial inventory plus the net flows over the horizon reaches the safety stock |
| Optimizers.TablesOfDomain | src/optimizers/manufacturing_optimizer.py:425-430 | the results dictionary has a key exactly for each family's id |
| Optimizers.TablesOfLookup | src/optimizers/manufacturing_optimizer.py:425-430 | the table under a family's id is that family's table when no later family has the same id |
| Optimizers.ResultsOf | src/optimizers/manufacturing_optimizer.py:387-438 | `generate_results` fails with the `AttributeError` of `None.id` iff some variable family is unset |
| Optimizers.ResultTuple | src/optimizers/manufacturing_optimizer.py:432-438 | the named tuple is built iff the five keys are present, from the five tables under them; otherwise `KeyError` on a missing key |
| Optimizers.DeclaredModelResults | src/optimizers/manufacturing_optimizer.py:374-440 | with all five families set, the results are the five families' tables, in field order |
| Optimizers.BuiltModelDeclaresAllVariables | src/optimizers/manufacturing_optimizer.py:143-176 | after `build_model` every variable family is set |
| Optimizers.UnbuiltModelHasNoResults | src/optimizers/manufacturing_optimizer.py:93-98 | before `build_model`, `generate_results` fails on the unset variables |
| Optimizers.BuildingTwiceIsBuildingOnce | src/optimizers/manufacturing_optimizer.py:121-161 | every step overwrites the same fields from the same inputs, so building again with the same inputs leaves the same fields |
| Optimizers.ManufacturingOptimizer.constructor | src/optimizers/manufacturing_optimizer.py:30-119 | the fixed setup is `NewSetup` of the arguments, and every variable, constraint, objective and result field is unset |
| Optimizers.ManufacturingOptimizer.CreateVariables | src/optimizers/manufacturing_optimizer.py:163-176 | sets the five variable fields, and nothing else |
| Optimizers.ManufacturingOptimizer.CreateInventoryConstraints | src/optimizers/manufacturing_optimizer.py:178-202 | sets the two inventory constraint fields from a builder over the optimiser's materials and horizon |
| Optimizers.ManufacturingOptimizer.CreateProductionConstraints | src/optimizers/manufacturing_optimizer.py:204-254 | sets the six production constraint fields; `no_production_at_t0` is the closed-hours family |
| Optimizers.ManufacturingOptimizer.CreateMaterialFlowBalanceConstraints | src/optimizers/manufacturing_optimizer.py:256-276 | sets the flow balance field, with the optimiser's batch size |
| Optimizers.ManufacturingOptimizer.CreateDemandConstraints | src/optimizers/manufacturing_optimizer.py:278-301 | sets the two demand fields; `no_filled_demand_at_t0` is the filling-hour family |
| Optimizers.ManufacturingOptimizer.CreatePurchasingConstraints | src/optimizers/manufacturing_optimizer.py:303-323 | sets the two purchasing fields |
| Optimizers.ManufacturingOptimizer.BuildObjectiveFunction | src/optimizers/manufacturing_optimizer.py:325-339 | sets the objective to the objective expression, maximised |
| Optimizers.ManufacturingOptimizer.BuildModel | src/optimizers/manufacturing_optimizer.py:121-161 | reads the parent materials from the bill of materials (`BomFactsOf`) and then runs the seven steps of `BuildModelFrom` |
| Optimizers.ManufacturingOptimizer.BuildModelFrom | src/optimizers/manufacturing_optimizer.py:143-161 | runs the seven steps in their fixed order: production gets the set of component materials, purchasing the set of parent materials, with a run limit of 4 and a filling hour of 8 |
| Optimizers.ManufacturingOptimizer.GenerateResults | src/optimizers/manufacturing_optimizer.py:374-440 | returns the results of the current fields and stores them on success; on failure no field changes |
| Optimizers.CollectResults | src/optimizers/manufacturing_optimizer.py:387-438 | the loop over the five variables in order builds the results dictionary, and then the named tuple |
| Optimizers.TestHorizonEndsAtLastOpenHour | tests/e2e_test/production_problem_test.py:36 | the test's horizon `((maxPeriod // 24 + 1) * 24) - 4` is always hour 20 of a day: the last open hour, followed by a closed one; it is at or after every demand hour whose hour of day is at most 20, and less than a day after the last demand hour |

## Left out

- The solver and the Pyomo machinery are not modelled: `Var`, `Constraint`, `Objective`, `solve()` and the feasibility check. Constraints are predicates over an assignment, and the `NonNegativeReals` domain is a precondition (`Feasible`, `NonNegativeFilledDemand`).
- Excel input is not modelled. `pd.read_excel` becomes a lookup in a `workbook` map from sheet name to `Sheet`.
- The driver `src/main.py`, the CSV output, the fixture `tests/conftest.py` and the expected objective value 120125 are not modelled; that value needs data and a solver.
- `src/indexes.py` is not modelled. It is an unused tuple subclass, replaced by the index datatypes.
- Floating point is not modelled. Costs, proportions and stock levels are `real`, and nothing is claimed about rounding.
- These functions are called but their bodies are not part of this model, so each is an argument:
  - `get_required_quantity` becomes `requiredQuantity` in `BomFacts`;
  - `all_component_materials` becomes `allComponentMaterials`;
  - `components_cannot_be_produced` and both `equipment_status_*` families become `Unshown` families, known only by their rows;
  - `build_equipment_formula_time_indexes` becomes an index space passed in;
  - `build_equipment_time_indexes` becomes one builder argument, which the optimiser's default and the production builder both apply to the equipment and `[t0, tmax]`;
  - `EquipmentStatusVariable`'s id is taken to be `equipment_status`, the key `generate_results` reads;
  - `get_variable_results_on_dataframe_format` becomes the `toTable` argument of `GenerateResults`.
- Optimizers.ManufacturingOptimizer.CreateProductionConstraints: the optimiser passes `minimum_units_in_batch` to a `ProductionConstraintsBuilder` constructor that takes no such argument; each builder is modelled as its own file defines it, so this `TypeError` is not modelled.
- `Bom` defines no `all_component_materials` or `get_required_quantity`, so a call to either would raise `AttributeError`. The model does not say that `build_model` completes as written.
- `self.objective` and `self.results` are not initialised in `__init__`. The model starts them unset like the other fields.
- `no_purchase_qty_at_t0` is never assigned by any step. It stays unset.
- A Python `sum` over an empty range is the integer 0. The comparison of that sum with a capacity is then a plain boolean, which Pyomo rejects. The model treats the empty sum as the expression 0, so this error is not modelled.
- The safety-stock rule indexes the variable with the one-element list the builder returns, rather than with its element. The model uses `(m, tmax)`.
- The filling-hour family is indexed by `set(all_materials_all_time_indexes)`, which drops duplicates and order. The model keeps the list. Emission and satisfaction statements are about membership, so they are unaffected.
- `Series.groupby(level=0)` orders the groups by key. The model states each group's contents and row order, not the dictionary's key order.
- NaN keys are not modelled, and neither is pandas' handling of cells by type. A cell is text, a number or a tuple.
- Tables.DataFrame.Column: with duplicate labels, pandas returns a sub-table. The model returns the first matching column.
- Tables.DataFrame.SetColumn and Tables.DataFrame.SetLabels: their length `requires` stand in for the length checks pandas makes.
- Preprocessing.LowerChar: only ASCII capitals are lower-cased; Unicode case mapping is not modelled.
- Preprocessing.RemoveParenGroups: its contract states only the length bound; the group removals are stated by the lemmas beside it, for headers of those shapes, and nested parentheses are covered only by the definition.
- Preprocessing.NormaliseColumnName: its contract states the characters that cannot remain; the exact result is stated by NormaliseWithoutGroups only for headers without `(` and trailing white space.
- Optimizers.ManufacturingOptimizer.BuildModel: requires the bill of materials' table to have a `manufactured_good` column; without it `set(bom.all_parent_materials)` raises `AttributeError`, which is not modelled. Cells of that column that are not text name no material and are dropped.
- Optimizers.BuiltFamiliesUseDeclaredVariables: coverage is proved only over the default index spaces with `t0 <= tmax` and parents among the materials. Families built over caller-supplied spaces can name variables that were never declared, which Pyomo reports as a `KeyError`; the model does not follow that error. The capacity, maximum-run and three `Unshown` families are not covered, because their index spaces come from builders that are not part of this model.
- Time arithmetic uses Dafny's `%` and `/`. Their divisor is always 24, which is positive, so they agree with Python's floor `%` and `//` for negative times too.

## Notes on the source

- The capacity relation sums `production` in batches without the batch size, although the capacity is read as a production quantity. The model follows the code.
- An `(equipment, formula)` pair missing from `max_capacity` gets no capacity constraint, rather than zero capacity. The model follows the code.
- `all_parent_materials` always reads the column `manufactured_good`, whatever `parent_column_name` the `Bom` was built with. The model follows the code (`CustomParentColumnIsIgnored`).
