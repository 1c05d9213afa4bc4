# OpenQuake engine core, modelled in Dafny

This project models three sequential parts of the OpenQuake seismic hazard and
risk engine and proves properties of them.

- **The job-configuration pipeline of `openquake/engine.py`.**
  - Include-aware resolution of a job configuration file (`_parse_config_file`).
  - Filtering, path rewriting and defaulting of the resolved parameters
    (`_prepare_config_parameters`).
  - Typed writing of parameters into job-profile columns
    (`_store_input_parameters`), the job-type list of `_prepare_job`, and the
    `.xml` filter of `_get_source_models`.
  - `CalculationProxy`: its accessors, its memoised site selection
    (`sites_to_compute`, `read_sites_from_exposure`) and the rewriting of file
    parameters (`_slurp_files`).
  - The order in which `_launch_calculation` drives hazard and risk calculators
    through their four phases.
  - The worker branch of `run_calculation`, which records `succeeded` or `failed`.
- **The bookkeeping of the event-based risk calculator
  (`openquake/calculators/risk/event_based/core.py`).**
  - The `"row!col"` keys of grid points and their decoding.
  - The per-site collation of ground-motion fields read from the database or
    from the key-value store.
  - The hand-over of those slices to the key-value store (`slice_gmfs`).
  - The `None` guards of the per-asset loss computations.
  - The file name and skip branch of the aggregate-curve plot.
- **The utilities of `openquake/utils/general.py`.**
  - The `singleton` class decorator.
  - The `MemoizeMutable` memo table.
  - The textual `ProgressBar`.

The modules follow the program:

- `ConfigResolver`, `ParameterPreparer`, `JobProfileBuilder`, `CalcProxy` and
  `CalculatorDispatch` cover `engine.py`.
- `EventBased` covers the event-based calculator.
- `GeneralUtils` covers the utilities.
- `Results`, `Seqs`, `Strings`, `Paths`, `Writes` and `ParamCatalog` hold the
  Python built-ins and registries they share. `ParamCatalog` stands for
  `PARAMS`, `PATH_PARAMS` and `CALCULATION_MODE`.

Where the source changes state step by step, the model does too:

- `CalculationProxy`, the job profile, the key-value stores, `Singleton`,
  `MemoizeMutable` and `ProgressBar` are classes whose methods update their fields.
- Each statement loop of the source (`for` or `while`) is a `while` loop,
  proved against a reference function, and the properties are proved about
  that function. List comprehensions and `zip` are recursive functions.

Some of the source's behaviour is modelled as written:

- Resolution follows `config_file` being reassigned at engine.py:444. A second
  include in a file is therefore looked up relative to the first include's
  directory.
- Resolution has no cycle detection. Fuel stands for the interpreter's
  recursion limit.

## Model

| member | source | states |
|---|---|---|
| ConfigResolver.ParseConfigFile | openquake/engine.py:415-454 | the loop over a file's entries, with its recursion into includes, computes exactly the reference resolution `Resolve`, error cases included |
| ConfigResolver.MissingRootFails | openquake/engine.py:426-431 | resolution fails naming the root file if and only if the absolute root path is not in the file system |
| ConfigResolver.NotFoundIsMissing | openquake/engine.py:429-431 | a not-found failure, at any include depth, only ever names a path that really is missing |
| ConfigResolver.ResolvedShape | openquake/engine.py:439-454 | every stored key is upper-cased and no `*_INCLUDE` key is stored; BASE_PATH holds the root file's absolute directory, whatever the includes set; the sections have no repetitions |
| ConfigResolver.ResolveMatchesTrace | openquake/engine.py:439-452 | resolution is the later-wins merge of every assignment in inclusion order (includes expanded in place, the root's BASE_PATH last), over the same set of sections; resolution and trace fail alike |
| ConfigResolver.BasePathKeyWellFormed | openquake/engine.py:452 | the BASE_PATH key is already upper case and is not an include key |
| ParameterPreparer.CalcMode | openquake/engine.py:462 | the mode lookup succeeds exactly when CALCULATION_MODE is present and registered, and then yields the registered mode |
| ParameterPreparer.Kept | openquake/engine.py:465-478 | the filter keeps exactly the parameters registered for the mode, with unchanged values |
| ParameterPreparer.PrepareConfigParameters | openquake/engine.py:457-502 | the two loops compute the reference preparation `Prepare`, error cases included |
| ParameterPreparer.PreparedParams | openquake/engine.py:462-502 | the output keys are exactly the registered parameters of the mode, plus COMPUTE_MEAN_HAZARD_CURVE for classical hazard+risk jobs, where it is "true" whatever was given; path parameters are joined onto BASE_PATH, all other values are unchanged, and sections pass through |
| ParameterPreparer.RewritePathsValues | openquake/engine.py:480-485 | with a base path, each listed path parameter that is present becomes `join(BASE_PATH, v)` and nothing else changes |
| ParameterPreparer.RewritePathsFails | openquake/engine.py:480-485 | path rewriting fails, with KeyError('BASE_PATH'), exactly when BASE_PATH is absent and some path parameter is present |
| ParameterPreparer.ModeRequired | openquake/engine.py:462 | a missing or unregistered CALCULATION_MODE fails the lookup with that key |
| ParameterPreparer.MissingBasePath | openquake/engine.py:480-485 | without BASE_PATH, preparation fails exactly when a kept parameter is a path parameter |
| ParameterPreparer.PrepareIdempotent | openquake/engine.py:457-502 | preparing already prepared parameters (absolute base path) returns them unchanged |
| JobProfileBuilder.ParseFloats | openquake/engine.py:619 | the float list succeeds exactly when every token parses, and holds each token's float in order; a failure names a token that does not parse |
| JobProfileBuilder.BooleanCoercion | openquake/engine.py:603-606 | a boolean is false exactly when its stripped, lower-cased text is "0" or "false"; letter case and surrounding white space do not matter |
| JobProfileBuilder.ArrayCoercion | openquake/engine.py:618-623 | array values are exactly the non-empty, delimiter-free tokens of the stripped text (after to_db for character arrays); a float array fails exactly when a token does not parse, and otherwise holds the float of each token |
| JobProfileBuilder.SkippedIffUntyped | openquake/engine.py:605-627 | a parameter is skipped exactly when it has no type and no to_db; only a float array can fail |
| JobProfileBuilder.StoreUserIsApply | openquake/engine.py:606-629 | storing user values one by one is applying their column writes in order, and fails with the same error |
| JobProfileBuilder.StoreInputParameters | openquake/engine.py:599-633 | the procedure succeeds exactly when the reference `Stored` does and reports its error otherwise; on success the columns are the defaults, then the user values, then the imt fix-up |
| JobProfileBuilder.StoreDefaults | openquake/engine.py:602-604 | the defaults loop applies exactly the default writes of the mode, in PARAMS order |
| JobProfileBuilder.StoreUserValues | openquake/engine.py:606-629 | the user-values loop matches the reference one-at-a-time store in its success and its error, and in the columns on success |
| JobProfileBuilder.UserWriteLands | openquake/engine.py:606-629 | a user parameter's coerced value is what its column holds after the loop |
| JobProfileBuilder.UserValueWins | openquake/engine.py:602-629 | user values win over defaults: after storing, a user parameter's column holds the value coerced from the user's text |
| JobProfileBuilder.DefaultWriteLands | openquake/engine.py:602-604 | a parameter of the mode with a default has that default in its column after the defaults loop |
| JobProfileBuilder.DefaultWhenNotGiven | openquake/engine.py:602-633 | a parameter of the mode that the user did not set keeps its default |
| JobProfileBuilder.UnknownParameterFails | openquake/engine.py:607 | a user parameter missing from PARAMS makes storing fail |
| JobProfileBuilder.StoreSucceedsIff | openquake/engine.py:606-629 | storing succeeds exactly when every user parameter is registered and coercible |
| JobProfileBuilder.NormalizeImtEffect | openquake/engine.py:631-633 | unless imt is "sa", period and damping are None afterward; no other column changes, and with imt "sa" nothing changes |
| JobProfileBuilder.JobType | openquake/engine.py:562-563 | the comprehension keeps at most one entry per section; JobTypeWords and JobTypeHas state which entries |
| JobProfileBuilder.JobTypeWords | openquake/engine.py:562-563 | the job type lists only "hazard" and "risk" |
| JobProfileBuilder.JobTypeHas | openquake/engine.py:562-563 | the job type lists "hazard" (or "risk") exactly when a section of that name, in any letter case, is present |
| JobProfileBuilder.GetSourceModels | openquake/engine.py:574-596 | the loop over parsed elements collects exactly the reference list of model paths |
| JobProfileBuilder.SourceModelsContents | openquake/engine.py:581-596 | a logic tree that is not `.xml` lists nothing; every path found ends in `.xml`; the paths found are exactly those of the uncertainty-model elements, joined onto the logic tree's directory |
| CalcProxy.CoordsSwapPairs | openquake/engine.py:259-262 | coordinates come in floor(n/2) pairs, pair i being (verts[2i+1], verts[2i]) |
| CalcProxy.SitesScenario | openquake/engine.py:240-247 | SITES = 37.5,-122.2 37.5,-122.1 gives the sites (-122.2, 37.5) and (-122.1, 37.5), in that order |
| CalcProxy.CalculationProxy.constructor | openquake/engine.py:82-112 | parameters, id, base path and serialization targets are stored; sections keep no repetitions; sites and block keys start empty |
| CalcProxy.CalculationProxy.BasePath | openquake/engine.py:114-123 | the base path given at construction wins; otherwise it is the BASE_PATH parameter if present, else None |
| CalcProxy.CalculationProxy.GetItem | openquake/engine.py:182-188 | an absent parameter reads as None; a present one without a to_job transform reads as its raw text |
| CalcProxy.CalculationProxy.Imls | openquake/engine.py:298-303 | the levels are None unless INTENSITY_MEASURE_LEVELS is set with a non-empty value, and are then that transformed parameter |
| CalcProxy.CalculationProxy.ExtractCoords | openquake/engine.py:259-262 | extraction succeeds exactly when the parameter is a list of numbers, and yields its pairs |
| CalcProxy.CalculationProxy.Region | openquake/engine.py:170-180 | without REGION_VERTEX there is no region; otherwise the vertices are extracted first, and the region exists exactly when they are numbers and `float()` accepts REGION_GRID_SPACING; an absent or unreadable spacing fails with NotAFloat, and the cell size is that float |
| CalcProxy.CalculationProxy.ExposureListing | openquake/engine.py:334-344 | the errors come in the source's order: a missing EXPOSURE (KeyError), then a missing base path for a relative EXPOSURE, then the region's error, then a missing exposure file; otherwise the reader's listing for the exposure path and the region |
| CalcProxy.CalculationProxy.ExposurePath | openquake/engine.py:335-336 | an absolute EXPOSURE is the path as it is, with or without a base path; a relative one is joined onto the base path |
| CalcProxy.AbsoluteExposureWithoutBase | openquake/engine.py:335-336 | without any base path an absolute EXPOSURE never fails for the missing base path, and the reader is asked for that very file |
| CalcProxy.CalculationProxy.SitesToCompute | openquake/engine.py:222-257 | a non-empty cache is returned unchanged; otherwise the selected sites are returned and cached when the selection succeeds |
| CalcProxy.CalculationProxy.SlurpFiles | openquake/engine.py:196-212 | without a base path nothing changes; otherwise the parameters and store end as the reference `Slurp` leaves them, also when a missing file stops the loop, and the method fails with the same error |
| CalcProxy.SitesFromCoords | openquake/engine.py:241-247 | the loop builds one Site(lon, lat) per coordinate pair, in order |
| CalcProxy.ReadSitesFromExposure | openquake/engine.py:322-350 | a failing listing is passed on; otherwise the result is the listed sites without repetitions, in first-occurrence order |
| CalcProxy.SelectionPrecedence | openquake/engine.py:234-255 | exposure sites, for a risk job asking for them, win over the SITES list, which wins over the region grid |
| CalcProxy.ExposureSitesDistinct | openquake/engine.py:344-350 | exposure sites have no repetitions, are exactly the listed sites, and keep the order in which each was first listed |
| CalcProxy.ExplicitSites | openquake/engine.py:240-247 | the SITES list gives one site per lat, lon pair, longitude first, in order |
| CalcProxy.SlurpFails | openquake/engine.py:203-208 | slurping fails exactly when some `*_FILE` parameter names a missing file |
| CalcProxy.SlurpStopsAtMissing | openquake/engine.py:203-212 | at the first missing file the loop stops with an error naming its path; the parameters and store keep what the earlier file parameters wrote |
| CalcProxy.SlurpedFile | openquake/engine.py:203-212 | afterward, a file parameter holds the blob key of its file's contents and its `_PATH` companion holds the joined path |
| CalcProxy.SlurpKeepsOthers | openquake/engine.py:203-212 | parameters that are neither file parameters nor `_PATH` companions keep their values |
| CalcProxy.SlurpStoresBlob | openquake/engine.py:207-210 | when blob keys identify contents, the store holds each slurped file's contents under the key its parameter now holds |
| CalcProxy.CalculationProxy.Has | openquake/engine.py:155-158 | has(name) holds exactly when the parameter is present with non-empty text |
| CalcProxy.CalculationProxy.Equals | openquake/engine.py:190-191 | `__eq__` compares the parameters only, so a proxy equals itself whatever its sites, sections or id |
| CalcProxy.EqualProxiesAgree | openquake/engine.py:190-191 | proxies equal under `__eq__` (same parameters) answer has, getitem, imls, coordinates and region alike |
| CalcProxy.IsJobCompleted | openquake/engine.py:146-153 | an unknown calculation fails the lookup; otherwise the job is completed exactly when its status is "succeeded" or "failed" |
| CalculatorDispatch.RunCalculator | openquake/engine.py:765-768 | one calculator's four phases run in lifecycle order, stopping at the first that raises |
| CalculatorDispatch.LaunchCalculation | openquake/engine.py:755-768 | the domain loop computes exactly the reference launch over hazard, then risk |
| CalculatorDispatch.PhasesRunPrefix | openquake/engine.py:765-768 | the phases invoked are a prefix of the lifecycle: all of them without an error, and the raising phase last |
| CalculatorDispatch.DomainRun | openquake/engine.py:755-768 | a domain's events are a prefix of its four phases, all four when nothing fails, and end with the raising phase |
| CalculatorDispatch.RiskLaunch | openquake/engine.py:755-768 | the risk step alone follows risk's four phases when RISK is a section, and runs nothing otherwise |
| CalculatorDispatch.LaunchFollowsLifecycle | openquake/engine.py:755-768 | the events are always a prefix of hazard's phases followed by risk's (each only if its section is present); without an error the whole trace runs, and after a raise that phase is the last event |
| CalculatorDispatch.LaunchHazardFirst | openquake/engine.py:755-768 | the launch is the hazard step, or a KeyError for a missing hazard calculator, followed, unless it stopped, by the risk step |
| CalculatorDispatch.LaunchOkIff | openquake/engine.py:755-768 | a launch over any domain list succeeds exactly when every domain in the sections has a calculator for the mode and none of its phases raises |
| CalculatorDispatch.LaunchSucceedsIff | openquake/engine.py:755-768 | the hazard+risk launch succeeds exactly when each present section's calculator exists for the mode and none of its phases raises |
| CalculatorDispatch.PhasesRunOk | openquake/engine.py:765-768 | a calculator's phases run without error exactly when none of them raises |
| CalculatorDispatch.StatusText | openquake/engine.py:699-703 | the status text is "succeeded" exactly for Succeeded and "failed" exactly for Failed |
| CalculatorDispatch.SerializeTargets | openquake/engine.py:659-660 | only "db" and "xml" are accepted; the database always comes first, and XML is added exactly for "xml" |
| CalculatorDispatch.StartCalculation | openquake/engine.py:659-678 | an unknown output type is refused; otherwise a new calculation record is created in the running state, beside the serialization targets |
| CalculatorDispatch.RunWorker | openquake/engine.py:692-704 | a missing input file met by `to_kvs`'s slurping fails the calculation before any phase runs; otherwise the worker's events are the launch's; it records succeeded when the launch returns and failed when it raises; the proxy's parameters and the store end as `_slurp_files` leaves them, unchanged without a base path |
| CalculatorDispatch.SetupFailsIff | openquake/engine.py:747 | `to_kvs` fails exactly when there is a base path and some `*_FILE` parameter names a missing file |
| CalculatorDispatch.WorkerOutcomeIsCompleted | openquake/engine.py:699-703 | once the worker has recorded its outcome, is_job_completed reports the calculation as completed |
| CalculatorDispatch.UnfinishedIsNotCompleted | openquake/engine.py:146-153 | a pending or running calculation is not completed |
| EventBased.Filename | openquake/calculators/risk/event_based/core.py:40-42 | the plot file name is a relative `.svg` file name without a slash that starts with the job id |
| EventBased.FilenameInjective | openquake/calculators/risk/event_based/core.py:40-42 | different calculations never share a plot file name |
| EventBased.GmfKey | openquake/calculators/risk/event_based/core.py:184 | a "row!col" key holds the separator exactly once, right after the row's text |
| EventBased.DecodeKey | openquake/calculators/risk/event_based/core.py:199-200 | a key decodes exactly when split("!") gives two pieces that int() both accepts, and the point is their values; any other piece count fails to unpack |
| EventBased.DecodeGmfKey | openquake/calculators/risk/event_based/core.py:184 | decoding a "row!col" key with split("!") and int() recovers the grid point that produced it |
| EventBased.KeyPieces | openquake/calculators/risk/event_based/core.py:184 | a key splits into exactly its row text and its column text |
| EventBased.DecodeKeyWithoutSeparator | openquake/calculators/risk/event_based/core.py:199 | a key without "!" is one piece, and unpacking it into row and column fails |
| EventBased.DecodeKeyRowNotAnInt | openquake/calculators/risk/event_based/core.py:199-200 | a key whose row piece is not an integer is refused, naming that piece |
| EventBased.GmfKeyInjective | openquake/calculators/risk/event_based/core.py:184 | distinct grid points have distinct keys |
| EventBased.SitesToGmfKeys | openquake/calculators/risk/event_based/core.py:178-187 | one key per site, in site order, each the "row!col" key of the site's grid point |
| EventBased.SiteGmfsAtSites | openquake/calculators/risk/event_based/core.py:191-200 | each site's key holds the value of every field at the site's grid point, in field order; every entry belongs to some site, so no sites give an empty dictionary |
| EventBased.AppendField | openquake/calculators/risk/event_based/core.py:198-200 | the inner loop appends to each key's list the field's value at the point the key decodes to, and keeps the key set |
| EventBased.CollateFields | openquake/calculators/risk/event_based/core.py:193-200 | seeding an empty list per key and then appending field by field gathers every field at each key's point |
| EventBased.GetDbGmfs | openquake/calculators/risk/event_based/core.py:189-202 | the database collation is exactly the per-site reference: the site keys mapped to one value per output, in output order |
| EventBased.AppendHistory | openquake/calculators/risk/event_based/core.py:210-219 | the realization loop of one history gathers its field sets in realization order |
| EventBased.CollateFieldSets | openquake/calculators/risk/event_based/core.py:206-219 | the nested loops gather every (history, realization) field set, history-major |
| EventBased.GetKvsGmfs | openquake/calculators/risk/event_based/core.py:204-221 | the key-value-store collation is the per-site reference over every field of every field set, history-major |
| EventBased.KvsFieldsAt | openquake/calculators/risk/event_based/core.py:209-219 | the fields of history i, realization j appear contiguously after those of all earlier histories and of history i's earlier realizations |
| EventBased.UniformFieldSetOffset | openquake/calculators/risk/event_based/core.py:209-219 | with n fields per field set, history i's realization j starts at offset (i * realizations + j) * n |
| EventBased.SliceGmfs | openquake/calculators/risk/event_based/core.py:223-235 | every key of the block's collation splits in two, and the store receives exactly each site's slice under gmf_set_key of its column and row, in dictionary order |
| EventBased.StoreSlices | openquake/calculators/risk/event_based/core.py:228-235 | the loop applies exactly the slice writes, in the given key order |
| EventBased.SiteWrite | openquake/calculators/risk/event_based/core.py:229-230 | a grid point's slice goes under gmf_set_key of the point's column text, then its row text |
| EventBased.SliceWritesDistinct | openquake/calculators/risk/event_based/core.py:228-235 | different keys of a block are stored under different GMF-set keys |
| EventBased.SliceThenRead | openquake/calculators/risk/event_based/core.py:223-235 | after slicing, whatever the dictionary order, the GMF-set key of every site's grid point holds that site's values with the TSES and time span |
| EventBased.ComputeLossRatios | openquake/calculators/risk/event_based/core.py:332-350 | None exactly when the asset's taxonomy has no vulnerability function; otherwise the ratios computed with that function |
| EventBased.ComputeLossRatioCurve | openquake/calculators/risk/event_based/core.py:352-386 | None exactly for an unknown taxonomy or an all-zero curve; a returned curve has a non-zero ordinate |
| EventBased.ComputeLossCurve | openquake/calculators/risk/event_based/core.py:388-403 | None exactly for a missing asset; otherwise the ratio curve with every abscissa scaled by the asset's value |
| EventBased.UnknownTaxonomyGivesNone | openquake/calculators/risk/event_based/core.py:339-365 | an asset of unknown taxonomy yields neither loss ratios nor a loss-ratio curve (it is not skipped: see "## Left out") |
| EventBased.LossCurveNotAllZero | openquake/calculators/risk/event_based/core.py:375-394 | a loss curve derived from a returned ratio curve is never all zeros |
| EventBased.ForPlotting | openquake/calculators/risk/event_based/core.py:45-59 | the plot data carries the curve's points, the fixed titles and "PoE in <time span> years" |
| EventBased.PlotAggregateCurve | openquake/calculators/risk/event_based/core.py:62-92 | without AGGREGATE_LOSS_CURVE nothing happens; otherwise the plot succeeds exactly when BASE_PATH, OUTPUT_DIR and INVESTIGATION_TIME are present, and is written to join(join(BASE_PATH, OUTPUT_DIR), file name), whose last component is the calculation's file name, with the curve's plot data |
| GeneralUtils.Singleton.GetInstance | openquake/utils/general.py:33-39 | a cached instance is returned unchanged; otherwise cls() runs once and its fresh result is cached; cls() never runs more than once |
| GeneralUtils.GetInstanceTwice | openquake/utils/general.py:29-40 | two calls return the same object, and cls() has run exactly once; the cached entry is the object returned |
| GeneralUtils.MemoizeMutable.Call | openquake/utils/general.py:50-55 | the first call for a key stores fun(args); a later call with that key returns the stored value without calling fun; no existing entry changes; when equal keys mean equal results, the result is fun(args) |
| GeneralUtils.Truncate | openquake/utils/general.py:92 | int() of a float truncates toward zero |
| GeneralUtils.Repeat | openquake/utils/general.py:93-94 | n * s has n copies' worth of characters of s, and none when n is not positive |
| GeneralUtils.ProgressOf | openquake/utils/general.py:100-104 | an increment, measured in percent of end: p * end == increment * 100 |
| GeneralUtils.Advanced | openquake/utils/general.py:83-89 | after adding, progress is at most 100: the sum while it stays below 100, exactly 100 otherwise |
| GeneralUtils.StepOf | openquake/utils/general.py:79 | a step times the width is 100 |
| GeneralUtils.ProgressBar.constructor | openquake/utils/general.py:69-81 | the options are stored and the progress is the raw start value, as written |
| GeneralUtils.ProgressBar.Proportional | openquake/utils/general.py:59-63 | the same options, with the progress starting at start in percent of end, as documented |
| GeneralUtils.ProgressBar.GetProgress | openquake/utils/general.py:100-104 | the increment measured in percent of the bar's end |
| GeneralUtils.ProgressBar.Add | openquake/utils/general.py:83-89 | the progress advances by the increment's percentage, capped at 100, and the bar itself is returned |
| GeneralUtils.ProgressBar.Reset | openquake/utils/general.py:106-109 | the progress returns to start in percent of end, and the bar itself is returned |
| GeneralUtils.ProgressBar.ToString | openquake/utils/general.py:91-96 | the text is the out_format of int(progress/step) fill units, the remaining blank units and int(progress); for a progress between 0 and 100 on a bar of positive width the filled units lie between 0 and width, and one-character fill and blank make the two parts width characters together |
| GeneralUtils.DefaultProgressBar | openquake/utils/general.py:69-81 | the default bar: start 0, end 10, width 12, "=" and ".", the default format, progress 0 |
| GeneralUtils.ProgressOfAdds | openquake/utils/general.py:100-104 | measuring in percent is linear: the percentage of a + b is the sum of the percentages |
| GeneralUtils.ProgressOfWholeRange | openquake/utils/general.py:100-104 | an increment of end is 100 percent, and an increment of 0 is none |
| GeneralUtils.AdvancedIsMonotone | openquake/utils/general.py:83-89 | a non-negative increment never moves a progress of at most 100 back |
| GeneralUtils.AdvancedTwice | openquake/utils/general.py:83-89 | two non-negative increments in a row act as their sum |
| GeneralUtils.FullStaysFull | openquake/utils/general.py:83-89 | a full bar stays full under a non-negative increment |
| GeneralUtils.ProgressedInRange | openquake/utils/general.py:79-92 | for a progress between 0 and 100, the filled units lie between 0 and width: none at 0, all at 100 |
| GeneralUtils.RenderedBarWidth | openquake/utils/general.py:91-96 | with one-character fill and blank, a bar at 0..100 percent shows "[", the filled units, ">", the blanks, "] ", the percentage and "%", and between its brackets it is exactly width characters wide |
| GeneralUtils.StartFiveOfTen | openquake/utils/general.py:61-62 | the state 5 of 10 is 50 percent, not the 5 the constructor leaves |
| GeneralUtils.ProportionalStart | openquake/utils/general.py:61-62 | a bar started as documented at start == end is full, and at start 0 is empty |
| Strings.ParseIntToString | openquake/calculators/risk/event_based/core.py:199-200 | int() of the "%s" text of an integer is that integer |
| Strings.TokensAreWords | openquake/engine.py:619-623 | the tokens of ARRAY_RE.split with empty ones dropped are non-empty and contain no delimiter |
| Strings.StripUpper | openquake/engine.py:603-606 | upper-casing commutes with strip |
| Paths.Join | openquake/engine.py:481 | os.path.join: an absolute second part replaces the first; otherwise the result starts with the first part and ends with the second |
| Paths.JoinAbsIdempotent | openquake/engine.py:481 | joining onto an absolute directory twice is joining once |
| Seqs.Dedup | openquake/engine.py:344-350 | the list without repetitions holds exactly the elements of the input |
| Seqs.DedupKeepsFirstOccurrenceOrder | openquake/engine.py:344-350 | de-duplication keeps the order in which elements first occur |
| Writes.ApplyLastWrite | openquake/calculators/risk/event_based/core.py:228-235 | after a run of dictionary writes, a key holds the value of its last write |

## Left out

- Operating-system processes: the forks, `waitpid`, the supervisor, SIGINT
  handling and `close_connection` of `run_calculation`. The parent and
  supervisor branches are left out. Only the worker's status decision is
  modelled.
- The database: the `_prepare_job` transaction and re-read, `Input`,
  `InputSet` and `CalcStats` records, `from_kvs`, `get_status_from_db` and
  `_record_initial_stats`. The statuses `is_job_completed` reads are a map
  from calculation id to status text.
- The steps of `_launch_calculation` before its loop other than slurping the
  input files (statistics, the JSON write of `to_kvs`, creating the output
  directory), and `_job_from_file`, `import_job_profile`,
  `_insert_input_files`, `build_nrml_path` and `extract_values_from_config`:
  these are file, database or float-parsing work.
- File and XML reading. What `ConfigParser` reports for a file is a list of
  (section, key, value) entries. `etree.iterparse` output is a list of
  (tag, text) elements. The files `_slurp_files` reads are a map from path
  to contents.
- Geometry. GEOS and EWKT construction, `shapes.Region` grid enumeration,
  `RegionConstraint` and `grid.point_at` are functions passed in. The exposure
  reader's filtering is a function too.
- Float text parsing (`float()`) is a function passed in. `int()` is modelled
  on decimal text with an optional sign and surrounding white space.
- The event-based numerics: loss-ratio and BCR mathematics, numpy fields,
  celery tasks and `TimeoutError`, `_tses` and `_time_span`. The TSES and time
  span are given values. The field read at a grid point is a function.
- `AnimatedProgressBar.show_progress`: it only writes to stdout.
- The registries `PARAMS`, `PATH_PARAMS`, `CALCULATION_MODE`, `CALCS` and
  `ARRAY_RE` come from code outside this model. They are values passed in.
  `ARRAY_RE` is a set of delimiter characters, with runs of delimiters
  splitting like one because empty tokens are dropped.
- Dictionary iteration order (`params.items()`, `PARAMS.items()`,
  `gmfs.keys()`, `gmfs.items()`) is a sequence passed in that lists each key
  once. The results proved hold for every such order.
- String case is ASCII only. `os.path.abspath` has no normalisation of "."
  and "..". The working directory is passed in.
- ConfigResolver.Resolve: the recursion limit of the interpreter is fuel; a
  cyclic include runs out of it and fails with RecursionLimit.
- ConfigResolver.ResolveMatchesTrace: compares sections as sets, because
  `list(set(sections))` has no defined order. The model keeps first
  occurrences (Seqs.Dedup).
- CalcProxy.CalculationProxy.constructor: sections are de-duplicated in
  first-occurrence order, standing for the unordered `list(set(sections))`.
  The job-profile and calculation records it also takes are not stored.
- CalcProxy.CalculationProxy.GetItem: a parameter's to_job transform is a
  function from its text to a value. The contract does not constrain what that
  transform returns.
- EventBased.SliceThenRead: needs `gmf_set_key` to be readable back (a parser
  recovers its arguments). That key scheme is outside this model.
- EventBased.SliceWritesDistinct: needs `gmf_set_key` to be readable back, for
  the same reason. Without that, two grid points could share a GMF-set key.
- EventBased.ComputeLossRatioCurve: the write of the ratio curve's JSON under
  `loss_ratio_key` (core.py:378-381) is not modelled. Only the returned curve is.
- EventBased.ComputeLossCurve: the write of the loss curve's JSON under
  `loss_curve_key` (core.py:396-400) is not modelled. Only the returned curve is.
- `_compute_loss` (core.py:255-286) is not modelled: the aggregate curve and
  the conditional losses are numerics. For an asset of unknown taxonomy it
  multiplies the None loss ratios by the asset's value, which raises
  TypeError and stops the block. It does not skip the asset.
- CalcProxy.CalculationProxy.ExtractCoords: refuses, with NotCoordinates, a
  parameter whose value is not a list of numbers. Python would slice raw text
  into characters and pair those up, or raise TypeError for None. The geometry
  code that receives such pairs is outside this model.
- CalcProxy.CalculationProxy.constructor: `mark_job_as_current` (engine.py:101),
  which registers the calculation for the key-value store's garbage
  collection, is not modelled.
- Diagnostics: every `print` and `LOG` call of the modelled code is left out.
  They only report progress or errors. Examples are engine.py:201, 207, 241,
  341-342, 469, 475, 497, 697 and 762-763, and core.py:76-77, 92, 231-232,
  343-345 and 361-363.
- CalcProxy.SlurpStoresBlob: needs blob keys that identify contents, as the
  SHA-1 of `generate_blob_key` is meant to.
- GeneralUtils.Singleton.GetInstance: a decorated class is known by its name.
  Calling it creates a fresh Instance and has no other effect.
- GeneralUtils.MemoizeMutable.Call: the pickled key of the arguments is a
  function passed in. Positional and keyword arguments together are one
  argument value.
- GeneralUtils.ProgressBar.constructor: requires a non-zero end and width.
  The source raises ZeroDivisionError at general.py:79 or at 104 for them, and
  that error is not modelled.
- GeneralUtils.ProgressOf, GeneralUtils.StepOf and GeneralUtils.Advanced
  require a non-zero divisor for the same reason.
- GeneralUtils.ProgressBar.ToString: `out_format` is a function of the fill
  text, the blank text and the integer progress, in place of `%`-formatting a
  dictionary. Values are real numbers, not floating point.

## Findings

| source | as written | input that shows it | evidently intended | confidence | as-written member | corrected member |
|---|---|---|---|---|---|---|
| openquake/utils/general.py:79-81 | the constructor calls `reset()`, which sets progress to start in percent of end, and then overwrites progress with the raw `start` | start = 5, end = 10: progress is 5 (5 %), while the class documentation at general.py:61-62 says this state is 50 % | progress starts at start * 100 / end, as `reset()` computes | not executed | GeneralUtils.ProgressBar.constructor, GeneralUtils.StartFiveOfTen | GeneralUtils.ProgressBar.Proportional, GeneralUtils.ProportionalStart |
