# CRREM and retrofit calculations of the ESG real-estate pages

This project models the calculation layer of a set of Streamlit pages for real-estate ESG
analysis. The layer covers:

- **CRREM stranding evaluation** (`backend/calculators/crrem.py`). The single-asset mode does:
  - archetype auto-fill with defaults;
  - the region lookup, then the first pathway row for the region and asset class;
  - the delta to target, the stranding year and the recommended retrofit year;
  - the capex advice and the tenant/landlord cost split.

  The batch runner evaluates every uploaded row and records a failing row as an `error` row.
- **Retrofit ROI and carbon payback** (`pages/ROI_Calculator.py`):
  - the five reference lookups;
  - capex and the energy, money and emission savings;
  - the 11-entry cash-flow series, its discounting, NPV, simple ROI and payback;
  - the post-retrofit intensity against an optional CRREM target;
  - the ten-row export table.
- **Transition plan with EPC valuation uplift** (`pages/TransitionPlan.py`). It looks up the
  uplift, applies the placeholder savings and makes the strict check against the pathway target.
- **Portfolio emissions projection** (`streamlit_app/TransitionPlan.py`). A retrofit-year map is
  filled per asset. A year table for 2024..2035 is then accumulated in place, asset by asset.
- **Threshold classifiers and first-crossing search**:
  - the three-band stranding-year estimate (`pages/Dashboard.py`, `pages/StakeholderPlaybooks.py`);
  - the carbon and EPC status bands and the guarded energy intensity (`pages/ESG_AI_Assistant.py`);
  - the first year on the linear sample pathway that the asset exceeds (`streamlit_app/CRREM_Calculator.py`).
- **Portfolio views**:
  - the dashboard KPIs: mean intensities and the most common stranding estimate;
  - the investor playbook: carbon delta, the top five by delta, and counts per stranding estimate.
- **CSV schema validation** (`backend/utils/file_validator.py`). It returns the missing
  required columns in required order, and a success or error record.

Modules:

| module | file | models |
|---|---|---|
| `Wrappers` | wrappers.dfy | `Option` (a lookup that can miss) and `Result` (a calculation that can abort) |
| `Lookup` | lookup.dfy | the `table[mask].iloc[0]` / `.values[0]` first-match search |
| `Pathways` | pathways.dfy | the CRREM pathway table and its two lookups |
| `Sums` | sums.dfy | `sum(...)` over reals |
| `Crrem` | crrem.dfy | `backend/calculators/crrem.py` |
| `RoiCalculator` | roi_calculator.dfy | `pages/ROI_Calculator.py` |
| `TransitionPlan` | transition_plan.dfy | `pages/TransitionPlan.py` |
| `EmissionsProjection` | emissions_projection.dfy | `streamlit_app/TransitionPlan.py` |
| `AssetKpis` | asset_kpis.dfy | the per-asset figures that `pages/Dashboard.py` and `pages/StakeholderPlaybooks.py` share |
| `EsgAssistant` | esg_assistant.dfy | `pages/ESG_AI_Assistant.py` |
| `Playbooks` | stakeholder_playbooks.dfy | `pages/StakeholderPlaybooks.py` |
| `Dashboard` | dashboard.dfy | `pages/Dashboard.py` |
| `StrandingPlot` | crrem_calculator.dfy | `streamlit_app/CRREM_Calculator.py` |
| `FileValidator` | file_validator.dfy | `backend/utils/file_validator.py` |

Reference tables are sequences of records. Money, intensities and rates are `real`.

- A Python exception that a page catches and reports becomes the `Failure` branch of a
  `Result`, naming which lookup missed.
- A lookup that may miss without raising returns an `Option`.
- The batch runner's loop is a method with a loop invariant.
- The emissions projection is a method. Its nested loops update a year-keyed map, just as the
  page updates its dictionary.

Design choices and where they differ from the page:

- **Retrofit year.** The page tests the truth value of the stranding year before it sets the
  retrofit year (`backend/calculators/crrem.py:84`). A pathway year 0 therefore yields a
  stranding year but no retrofit year. `Crrem.Evaluate` states this exactly.
- **Zero capex in the ROI.** A zero capex makes the ROI division undefined. It is numpy float
  arithmetic, which returns a non-finite value instead of raising. The model returns `None`
  and does not report a calculation error.
- **Advice.** The advice compares the capex itself with the payback-years threshold parameter
  (`backend/calculators/crrem.py:85`). The model follows that comparison as written.
- **IRR.** The IRR routine is a parameter `irrOf` of the ROI calculation. It can give a rate or
  no solution, or it can raise; raising aborts the calculation.
- **Widget choices.** The per-asset retrofit-year widget is a parameter `pick`. A repeated asset
  name shares one map entry, as in the page's dictionary.

## Model

| member | source | states |
|---|---|---|
| `Lookup.FirstIndex` | pages/ROI_Calculator.py:59-63 | the index found matches, no earlier row matches, and None exactly when no row matches |
| `Lookup.First` | pages/ROI_Calculator.py:59-63 | the row found is a matching row with no match before it; None exactly when no row matches |
| `Lookup.FirstIsAt` | pages/ROI_Calculator.py:59-63 | a matching row with no earlier match is the one the search returns |
| `Pathways.FirstForClass` | backend/calculators/crrem.py:75-81 | the first pathway row of the region and asset class, whatever its year; None iff the class has no row there |
| `Pathways.TargetFor` | pages/ROI_Calculator.py:83-84 | target of the first row matching region, class and year exactly; None iff no row matches |
| `Sums.SumConstant` | pages/ROI_Calculator.py:77 | the sum of n equal values v is n·v |
| `Sums.SumMonotone` | pages/ROI_Calculator.py:77 | element-wise smaller sequences have smaller sums |
| `Sums.SumShift` | pages/StakeholderPlaybooks.py:29 | subtracting c from every element subtracts n·c from the sum |
| `Crrem.ParameterValue` | backend/calculators/crrem.py:44-45 | value of the first config row with that parameter name; None iff there is none |
| `Crrem.LoadParameters` | backend/calculators/crrem.py:44-45 | both the discount rate and the payback threshold must be present, and they are taken from their first rows |
| `Crrem.Autofill` | backend/calculators/crrem.py:56-66 | a matching archetype gives its floor area and intensity; a missing workbook or no match gives 1000.0 and 85.0 |
| `Crrem.RegionOf` | backend/calculators/crrem.py:74 | the CRREM region of the first reference row of the country; None iff the country has none |
| `Crrem.Evaluate` | backend/calculators/crrem.py:82-84 | delta = intensity − target; stranding year = pathway year iff delta > 0; retrofit year = year − 5 iff stranded and the year is non-zero |
| `Crrem.AdviceFor` | backend/calculators/crrem.py:85 | "Retrofit recommended" iff capex > payback threshold, otherwise "No immediate retrofit" |
| `Crrem.DefaultCapex` | backend/calculators/crrem.py:71 | the proposed capex is 250 € per m² and non-negative for a non-negative area |
| `Crrem.CostSplit` | backend/calculators/crrem.py:94-98 | tenant + landlord = capex, tenant·100 = capex·ratio, and both lie in [0, capex] for a ratio in 0..100 |
| `Crrem.EvaluateSingle` | backend/calculators/crrem.py:71-98 | a missing region stops the page, and so does a region without a pathway for the class; the report exists iff both lookups succeed, and it holds the first class pathway's target and evaluation, the capex default, the advice and the cost split |
| `Crrem.ErrorMessage` | backend/calculators/crrem.py:145 | the text of a missing-column error is the column in quotes, so the column can be read back; "Missing pathway" exactly for a missing pathway |
| `Crrem.ErrorMessageInjective` | backend/calculators/crrem.py:145 | different failures leave different texts in the error column |
| `Crrem.EvaluateRow` | backend/calculators/crrem.py:120-145 | the recorded error is the first failure in source order: no country_code column, no region row, no asset_class column, no pathway, no carbon_intensity column, no floor_area column; a row is evaluated iff none occurs, with tenant = 30% of capex and landlord = the rest |
| `Crrem.RunBatch` | backend/calculators/crrem.py:118-147 | one output row per input row, in order, each keeping its input and holding that row's own outcome |
| `Crrem.FloorAreaNeededEvenWithCapex` | backend/calculators/crrem.py:133 | the capex default is evaluated eagerly, so a row without floor_area fails even when it has a capex |
| `Crrem.MissingPathwayRow` | backend/calculators/crrem.py:125-126 | a row without a pathway for its class becomes an error row reading "Missing pathway" |
| `RoiCalculator.CashFlows` | pages/ROI_Calculator.py:75 | 11 entries: −capex, then ten equal annual savings |
| `RoiCalculator.Discounted` | pages/ROI_Calculator.py:76 | discounted[i]·(1+r)^i = cf[i], so discounted[0] = cf[0] |
| `RoiCalculator.DiscountedAtZero` | pages/ROI_Calculator.py:76 | at rate 0 discounting leaves the cash flows unchanged |
| `RoiCalculator.Npv` | pages/ROI_Calculator.py:77 | at rate 0 the NPV is the plain sum of the cash flows |
| `RoiCalculator.Roi` | pages/ROI_Calculator.py:79 | roi·capex = Σ cf[1..] − capex; undefined (None) iff capex = 0 |
| `RoiCalculator.PaybackOf` | pages/ROI_Calculator.py:80 | payback·savings = capex when savings > 0; the "infinite" sentinel otherwise |
| `RoiCalculator.PostIntensity` | pages/ROI_Calculator.py:85 | post-retrofit intensity × floor area = energy after × carbon factor |
| `RoiCalculator.Stranded` | pages/ROI_Calculator.py:86 | stranded iff a target exists and the post intensity exceeds it; no target, not stranded |
| `RoiCalculator.ExportTable` | pages/ROI_Calculator.py:113-119 | ten rows for years start..start+9, the annual savings, and discounted[1..10] |
| `RoiCalculator.FindRows` | pages/ROI_Calculator.py:59-63 | the five lookups in page order (cost, tariff, discount, factor, price): the first one that misses is the error; success iff all five find a row, and the rows used are the first matches, each matching its keys |
| `RoiCalculator.Economics` | pages/ROI_Calculator.py:65-86 | capex, savings and emissions formulas; the cash flows; the IRR of them; the discounted flows and their NPV at the row's rate; the ROI and payback of the capex and savings; the start-year target, the post intensity and the stranded flag; the export table of the discounted flows |
| `RoiCalculator.Calculate` | pages/ROI_Calculator.py:56-123 | a missed lookup is the calculation error, and so is a raising IRR routine; a report exists iff every lookup succeeds and the IRR does not raise, and it is the economics of the rows found |
| `RoiCalculator.RoiClosedForm` | pages/ROI_Calculator.py:79 | ROI = (10·savings − capex)/capex |
| `RoiCalculator.NpvAtZeroRate` | pages/ROI_Calculator.py:76-77 | at rate 0 the NPV is 10·savings − capex |
| `RoiCalculator.NpvAtMostUndiscounted` | pages/ROI_Calculator.py:76-77 | with rate ≥ 0 and savings ≥ 0, the NPV is at most 10·savings − capex |
| `TransitionPlan.UpliftPercent` | pages/TransitionPlan.py:53-58 | the uplift of the first exact (country, from EPC, to EPC) match; None iff there is none |
| `TransitionPlan.UpliftValue` | pages/TransitionPlan.py:59 | value·100 = asset value·percent; within [0, asset value] for a percent in 0..100 |
| `TransitionPlan.Savings` | pages/TransitionPlan.py:62-66 | carbon saving = 8·area, energy saving = a quarter of it, and post intensity = current − 8 |
| `TransitionPlan.StrandedLabel` | pages/TransitionPlan.py:104 | "Yes" exactly for a stranded asset, "No" exactly for a compliant one |
| `TransitionPlan.GeneratePlan` | pages/TransitionPlan.py:51-104 | a missing uplift row is an error, and so is a missing pathway row; a plan exists iff both are found; it holds the uplift value of the first match, the savings triple, the retrofit-year target, stranded iff post intensity > target, and its label |
| `TransitionPlan.AtTargetIsCompliant` | pages/TransitionPlan.py:75 | a post intensity equal to the target is compliant, labelled "No" |
| `EmissionsProjection.SelectRetrofitYears` | streamlit_app/TransitionPlan.py:27-34 | the map has a key per asset name, holding the year chosen for that name |
| `EmissionsProjection.Years` | streamlit_app/TransitionPlan.py:37 | twelve years 2024..2035, ascending |
| `EmissionsProjection.Selection` | streamlit_app/TransitionPlan.py:27-34 | every asset has a retrofit year, namely the one chosen for its name |
| `EmissionsProjection.Contribution` | streamlit_app/TransitionPlan.py:44-48 | the full base before the retrofit year, 60% of it from that year on, so never above the base nor below 60% of it |
| `EmissionsProjection.Total` | streamlit_app/TransitionPlan.py:42-48 | with non-negative bases, a year's total lies between 60% of Σ base and Σ base |
| `EmissionsProjection.AddAsset` | streamlit_app/TransitionPlan.py:44-48 | every year's total grows by exactly that asset's contribution |
| `EmissionsProjection.ProjectEmissions` | streamlit_app/TransitionPlan.py:36-50 | one row per year 2024..2035 in order, each the sum over assets of full base before retrofit and 60% from it |
| `EmissionsProjection.PlanPortfolio` | streamlit_app/TransitionPlan.py:27-64 | the exported series is the projection for the chosen retrofit years |
| `EmissionsProjection.TotalNonIncreasing` | streamlit_app/TransitionPlan.py:44-48 | with non-negative bases, a later year's total never exceeds an earlier one's |
| `EmissionsProjection.TotalAfterAllRetrofits` | streamlit_app/TransitionPlan.py:45-48 | once every asset is retrofitted, the total is 0.6 × Σ base |
| `EmissionsProjection.TotalBeforeAnyRetrofit` | streamlit_app/TransitionPlan.py:44-46 | before every retrofit year, the total is Σ base |
| `EmissionsProjection.DefaultSelection` | streamlit_app/TransitionPlan.py:29-34 | with every selection at the default 2024, each year's total is 0.6 × Σ base |
| `AssetKpis.StrandingBucket` | pages/Dashboard.py:26-28 | 2025 iff intensity > 80, 2030 iff 60 < intensity ≤ 80, 2040 iff intensity ≤ 60 |
| `AssetKpis.BucketAntitone` | pages/StakeholderPlaybooks.py:26-28 | a higher intensity never gets a later estimate |
| `AssetKpis.EnergyIntensity` | pages/Dashboard.py:25 | intensity·area = energy (0 when the column is absent); not finite (None) iff area = 0 |
| `AssetKpis.Mean` | pages/Dashboard.py:33 | mean·n = Σ; None iff the column is empty |
| `AssetKpis.MeanWithinBounds` | pages/Dashboard.py:33 | the mean lies within any bounds of the column |
| `AssetKpis.CarbonColumn` | pages/Dashboard.py:33 | the intensity column, row by row |
| `AssetKpis.EnergyColumn` | pages/Dashboard.py:34 | the energy-intensity column, row by row; not finite iff some area is 0 |
| `AssetKpis.CountBucket` | pages/StakeholderPlaybooks.py:46 | a bucket's count never exceeds the number of rows |
| `AssetKpis.BucketCountsCoverRows` | pages/StakeholderPlaybooks.py:46 | the three bucket counts add up to the number of rows |
| `AssetKpis.CountPositive` | pages/StakeholderPlaybooks.py:46 | a bucket's count is positive iff some row falls in it |
| `EsgAssistant.CarbonStatusOf` | pages/ESG_AI_Assistant.py:36-41 | very high iff > 80, above average iff 60 < x ≤ 80, within target iff ≤ 60 |
| `EsgAssistant.EpcStatusOf` | pages/ESG_AI_Assistant.py:43-48 | poor iff F or G, moderate iff D or E, acceptable for anything else including "N/A" |
| `EsgAssistant.GuardedEnergyIntensity` | pages/ESG_AI_Assistant.py:50 | energy/area when area > 0, else 0; a missing energy value gives 0 |
| `EsgAssistant.Describe` | pages/ESG_AI_Assistant.py:27-50 | the summary of the first row with the selected name, with its carbon, EPC and energy status |
| `EsgAssistant.CarbonStatusMatchesBucket` | pages/ESG_AI_Assistant.py:36-41 | the assistant's bands coincide with the stranding-year buckets |
| `EsgAssistant.ZeroAreaGuard` | pages/ESG_AI_Assistant.py:50 | at zero area the unguarded formula has no finite value while the assistant reports 0 |
| `StrandingPlot.Threshold` | streamlit_app/CRREM_Calculator.py:30 | 100 exactly in 2020, lower in every later year, and within [64, 100] over 2020..2050 |
| `StrandingPlot.Pathway` | streamlit_app/CRREM_Calculator.py:29-30 | 31 (year, threshold) pairs for 2020..2050 with threshold = 100 − 1.2·(year − 2020) |
| `StrandingPlot.PathwayShape` | streamlit_app/CRREM_Calculator.py:30 | the thresholds fall strictly, from 100 in 2020 to 64 in 2050 |
| `StrandingPlot.EstimateStrandingYear` | streamlit_app/CRREM_Calculator.py:43-44 | the first year whose threshold the intensity exceeds, with no earlier such year; "2050+" iff there is none |
| `StrandingPlot.StrandedImmediately` | streamlit_app/CRREM_Calculator.py:43-44 | an intensity above 100 strands in 2020 |
| `StrandingPlot.NeverStrands` | streamlit_app/CRREM_Calculator.py:43-44 | an intensity of at most 64 gives "2050+" |
| `StrandingPlot.EstimateAntitone` | streamlit_app/CRREM_Calculator.py:43-44 | a higher intensity never strands later |
| `StrandingPlot.EstimateForAsset` | streamlit_app/CRREM_Calculator.py:26-44 | the estimate of the first row with the selected name; None iff no row has it |
| `Playbooks.InsertByDelta` | pages/StakeholderPlaybooks.py:38 | insertion adds exactly the new row to the multiset of rows |
| `Playbooks.InsertKeepsOrder` | pages/StakeholderPlaybooks.py:38 | insertion keeps a delta-descending sequence descending |
| `Playbooks.SortByDeltaDesc` | pages/StakeholderPlaybooks.py:38 | the sorted table is a permutation of the rows |
| `Playbooks.SortIsDescending` | pages/StakeholderPlaybooks.py:38 | the sorted table is ordered by delta, largest first |
| `Playbooks.Top5` | pages/StakeholderPlaybooks.py:38 | min(5, n) rows, drawn from the table |
| `Playbooks.Top5Descending` | pages/StakeholderPlaybooks.py:38 | the top five are ordered by delta, largest first |
| `Playbooks.Top5KeepsLargest` | pages/StakeholderPlaybooks.py:38 | no row left out has a larger delta than a row kept |
| `Playbooks.StrandingCounts` | pages/StakeholderPlaybooks.py:46 | the buckets that occur, in ascending year, each with its count |
| `Playbooks.StrandingCountsTotal` | pages/StakeholderPlaybooks.py:46 | the counts add up to the number of rows |
| `Playbooks.DeltaColumn` | pages/StakeholderPlaybooks.py:29 | delta = intensity − 50 for every row |
| `Playbooks.MeanShift` | pages/StakeholderPlaybooks.py:35 | shifting a column by c shifts its mean by c |
| `Playbooks.PortfolioHighlights` | pages/StakeholderPlaybooks.py:33-35 | the carbon and delta averages exist iff there are rows, the energy average iff moreover no area is 0; they are the means of the intensity and energy-intensity columns, and mean delta = mean intensity − 50 |
| `Dashboard.MostCommonBucket` | pages/Dashboard.py:35 | for a non-empty table, a bucket that occurs and has a maximal count |
| `Dashboard.ComputeKpis` | pages/Dashboard.py:25-35 | none for an empty table; otherwise the mean intensity, the mean of the energy-intensity column (present iff no area is 0) and the most common bucket |
| `Dashboard.DashboardView` | pages/Dashboard.py:20-46 | the validation message for a refused file; a validated non-empty table shows exactly its KPIs; a validated empty table fails |
| `Dashboard.AverageWithinRange` | pages/Dashboard.py:33 | the average intensity lies between the smallest and the largest row intensity |
| `FileValidator.RequiredColumns` | backend/utils/file_validator.py:4-7 | required columns exist exactly for "assets" and "utilities" |
| `FileValidator.MissingColumns` | backend/utils/file_validator.py:23 | exactly the required columns absent from the header, in required order; empty iff all are present |
| `FileValidator.Join` | backend/utils/file_validator.py:25 | the empty list joins to ""; otherwise the text starts with the first name and is as long as the names plus one separator between each pair |
| `FileValidator.JoinLayout` | backend/utils/file_validator.py:25 | every name sits at its offset (the names before it plus one separator each) and a separator sits just before every name but the first; with the length of `Join`, nothing else is in the text |
| `FileValidator.ValidateCsv` | backend/utils/file_validator.py:20-30 | error iff the read fails, the type is unknown or a column is missing; the message and the data per case |
| `FileValidator.AllRequiredPresent` | backend/utils/file_validator.py:23-27 | a header holding every required column, extras allowed, validates with the table |
| `FileValidator.OneMissingColumn` | backend/utils/file_validator.py:24-25 | a header lacking a required column is refused, and that column is listed |

## Left out

- Widgets, forms, the sidebar, metrics, `st.stop`, page configuration and navigation are left
  out. So are the UI-only pages `streamlit_app/Home.py`, `TA_app.py` and `streamlit_app/Upload.py`.
  The tables are given as in-memory sequences.
- File and table loading is left out: the CSV/Excel reads, the check for missing data files
  and the temporary-file writes. The validator takes the outcome of reading the CSV as a parameter.
- The Excel, JSON, HTML and CSV downloads and all charts are left out, because they only render.
- The IRR routine is an uninterpreted parameter. Its numerical solution is not modelled, and
  current numpy no longer provides it.
- IEEE floating point is not modelled: rounding, NaN, infinities and float formatting. Values are exact reals.
- The typology suggestions and HVAC index selection are left out. They only pre-fill widgets.
- The widget key crash that a repeated asset name causes on the emissions page is not modelled.
- That page's call to the validator is not repeated in `EmissionsProjection`. The validator
  and how a page reacts to it are modelled once, in `FileValidator` and `Dashboard.DashboardView`.
- RoiCalculator.Calculate: requires the discount row the page reads not to have a rate of
  exactly −1 (as do `Discounted`, `Npv` and `Economics`). At −1 numpy divides by zero and
  gives infinite discounted values, which exact reals do not represent. Every other rate,
  below −1 included, is modelled.
- RoiCalculator.Calculate: requires a floor area of at least 100 m². The input widget
  guarantees this.
- FileValidator.ValidateCsv: for an unknown file type the message is the type in single quotes.
  Python's `repr` differs for a type holding a quote, a backslash or a non-printable character,
  which the model does not reproduce; the validator is only called with "assets" and "utilities".
- RoiCalculator.Roi: for a zero capex it gives None. It does not model numpy's infinite or
  NaN result.
- AssetKpis.EnergyIntensity: for a zero floor area it gives None, standing for numpy's
  non-finite quotient.
- AssetKpis.Mean: does not model pandas' skipping of NaN values.
- Dashboard.ComputeKpis: when some row's energy intensity is not finite it gives no energy
  mean (None). pandas would give an infinite or NaN-skipping mean.
- Playbooks.PortfolioHighlights: gives no energy mean (None) in the same case as `Dashboard.ComputeKpis`.
- Playbooks.Top5: rows with equal delta are ordered by insertion. pandas' default sort is not
  stable, so the model does not fix which of them the page keeps.
- Dashboard.MostCommonBucket: on equal counts it picks 2025, then 2030, then 2040. pandas
  leaves the order of tied counts unspecified.
- TransitionPlan.GeneratePlan: requires a floor area of at least 100 m², which the input
  widget guarantees.
- EmissionsProjection.ProjectEmissions: requires every asset name to have a retrofit year. The
  page builds the map from the same names, as `EmissionsProjection.PlanPortfolio` shows.
