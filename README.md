# AGPE energy-settlement simulator — a Dafny model

This project models the calculation engine of a small self-generation (AGPE)
solar simulator: for a monthly consumption and a target solar compensation
percentage it builds one representative day of hourly demand and generation,
settles each hour into self-consumption (`autoconsumo`), surplus
(`excedente`) and grid import (`importada`), and bills the month with and
without the project. A second, small piece models the hand-written net present
value used when no financial library is installed, with the cash-flow vector
of the accompanying test script.

Quantities are exact Dafny `real`s and the hourly curves are sequences of
24 values. The two inputs the program takes from libraries are parameters:
the uniform noise draws (`noise`, 24 values in [0.8, 1.2]) and the clipped
sine curve (`raw`; `ClippedSineShape` says it is non-negative and zero outside
6:00–18:00).

Modules:
- `Series` — `Sum`, `Scale`, `Zeros` and the rescaling step (`Rescale`) with
  their lemmas.
- `Profiles` — the demand profile (a method that fills the multiplier table in
  a loop, proved equal to the function `DemandProfile`) and the solar profile.
- `Settlement` — the hourly split.
- `MonthlyBill` — the single-tier bill.
- `Simulation` — the pipeline `main` runs (demand → generation → settlement →
  bill) and its end-to-end properties.
- `Financial` — the fallback NPV, the annuity closed form and the test flows.

`streamlit_app.py` bills with one single-tier formula,
`cost_with = imported·CU − surplus·(CU − C)` (line 114), and that formula is
what is modelled.

## Model

| member | source | states |
|---|---|---|
| Profiles.Multiplier | streamlit_app.py:59-70 | the five-band hour-of-day table: every hour 0..23 gets a multiplier between 0.35 and 1.65; any other index keeps the table's initial 0 |
| Profiles.HourlyConsumptionProfile | streamlit_app.py:56-79 | filling the 24-entry multiplier array hour by hour, multiplying by the flat base and the noise (the function `Unscaled`, line 73), then applying the guarded rescale (lines 76-78), gives exactly the function `DemandProfile`, which is `Rescale` applied to `Unscaled` |
| Profiles.DemandProfileValid | streamlit_app.py:56-79 | for monthly ≥ 0 and noise in [0.8, 1.2], every hour of the demand profile is non-negative and the day sums to exactly monthly / 30 (for monthly > 0 because the unscaled sum is positive, for monthly = 0 because everything is zero) |
| Series.Rescale | streamlit_app.py:76-78 | when the unscaled sum is not positive the profile is returned unchanged |
| Series.RescaleSum | streamlit_app.py:76-78 | a series with positive sum, rescaled, sums to exactly the target total |
| Series.RescaleShape | streamlit_app.py:76-78 | rescaling keeps every ratio between two hours (`r[i]·s[j] = r[j]·s[i]`): the shape is preserved |
| Series.RescaleNonNegative | streamlit_app.py:76-78 | a non-negative series rescaled to a non-negative total stays non-negative |
| Profiles.SolarGenerationProfile | streamlit_app.py:81-94 | 24 zeros when the raw daily sum is 0 or percent ≤ 0; otherwise 30 × the day's sum equals monthly × percent / 100; an hour where the raw curve is 0 generates 0 |
| Profiles.SolarProportional | streamlit_app.py:90-93 | generation is the raw curve times one common scale: every ratio between two hours of the raw curve is kept |
| Profiles.SolarProfileShape | streamlit_app.py:83-93 | for the clipped sine curve and monthly ≥ 0 generation is non-negative and zero before 6:00 and after 18:00 |
| Profiles.SolarOverSizing | streamlit_app.py:90-93 | a percentage above 100 is not rejected: the month's generation then exceeds the month's consumption |
| Settlement.SettleHourly | streamlit_app.py:96-107 | demand and generation come back unchanged; per hour self-consumption is the smaller of the two, self-consumption + import = demand, self-consumption + surplus = generation, surplus and import are non-negative and never both positive |
| Settlement.SettlementUnique | streamlit_app.py:98-100 | any split of the hours that balances demand and generation with non-negative, never-both-positive surplus and import is exactly the settlement |
| Settlement.SettlementTotals | streamlit_app.py:98-100 | the daily totals balance: Σ self-consumption + Σ import = Σ demand, Σ self-consumption + Σ surplus = Σ generation, both Σ surplus and Σ import non-negative |
| Settlement.SettlementNoGeneration | streamlit_app.py:98-100 | with zero generation and non-negative demand, import equals demand and surplus and self-consumption are all zero |
| MonthlyBill.Billing | streamlit_app.py:109-125 | cost without = monthly × CU; the monthly import, surplus and self-consumption are 30 × the hourly sums; cost with = import × CU − surplus × (CU − C); cost with + saving = cost without; the saving percentage is 0 when cost without ≤ 0 |
| MonthlyBill.SavingsPercentage | streamlit_app.py:116 | when cost without > 0 the saving percentage × cost without = 100 × saving (the zero case for cost without ≤ 0 is in `Billing`'s contract) |
| MonthlyBill.NetBillingCost | streamlit_app.py:114 | the bill with the project is the net import (import − surplus) at CU plus C on every exported kWh |
| MonthlyBill.SavingsDecomposition | streamlit_app.py:111-115 | when consumption is 30 × the day's demand, the saving equals self-consumed energy × CU + surplus × (CU − C) |
| MonthlyBill.SavingsIdentity | streamlit_app.py:111-115 | for any settled day whose self-consumption plus import, times 30, is the monthly consumption, the saving equals self-consumed energy × CU + surplus × (CU − C) |
| MonthlyBill.NoSurplusNoSavings | streamlit_app.py:111-116 | with no surplus and all consumption imported the two bills are equal, the saving is 0 and its percentage is 0 |
| Simulation.MonthlyEnergyBalance | streamlit_app.py:201-204 | over the whole pipeline, 30 × (self-consumption + import) is the monthly consumption and 30 × (self-consumption + surplus) is the target monthly generation |
| Simulation.ZeroCompensationEnergy | streamlit_app.py:87-88 | with percent ≤ 0 the month imports exactly its consumption and exports nothing |
| Simulation.PipelineSavings | streamlit_app.py:201-204 | the saving of a simulated month is its self-consumed energy × CU plus its surplus × (CU − C) |
| Simulation.ZeroCompensationNoSavings | streamlit_app.py:201-204 | end to end with percent ≤ 0: import = monthly, surplus = self-consumption = 0, cost with = cost without, saving = 0, saving percentage = 0 |
| Simulation.Simulate | streamlit_app.py:201-204 | the run `main` performs returns exactly the settled day `SettledDay` (demand, then generation, then settlement) and exactly `Billing` of that day. For that result it proves the energy balance, the saving decomposition and the zero-compensation case |
| Financial.Pow | test_financial.py:28 | x^0 = 1 for every x, 0 included; a power of a non-zero base is non-zero, of a positive base positive |
| Financial.CalculateNpv | test_financial.py:26-28 | the NPV is the sum of the function `Discounted`, which divides flow t by (1 + rate)^t as line 28 does. The NPV of an empty list of flows is 0 and of a single flow that flow, at any rate, −1 included (the first flow is not discounted) |
| Financial.NpvAppend | test_financial.py:26-28 | appending a flow v to n flows adds v / (1 + rate)^n |
| Financial.NpvFirstUndiscounted | test_financial.py:26-28 | NPV(flows) = flows[0] + NPV(flows[1..]) / (1 + rate): t is counted from 0 |
| Financial.NpvZeroRate | test_financial.py:26-28 | at rate 0 the NPV is the plain sum of the flows |
| Financial.NpvAnnuity | test_financial.py:26-28 | an outlay a followed by n equal flows b has NPV a + b (1 − (1 + rate)^−n) / rate |
| Financial.Repeat | test_financial.py:34 | `[x] * n` has n entries, all x |
| Financial.TestFlows | test_financial.py:31-34 | the test flows have 21 entries: −10,000,000 first, then 1,000,000 twenty times |
| Financial.TestNpvClosedForm | test_financial.py:31-36 | their NPV at 0.10 is −10,000,000 + 1,000,000 (1 − 1.1^−20) / 0.1 |
| Financial.TestNpvNegative | test_financial.py:31-36 | that NPV is negative: at 10% the twenty savings do not repay the outlay |

## Left out

- Presentation: `apply_custom_styles`, `make_dataframe`, `plot_profiles`, `plot_monthly_comparison` and the widgets, metrics and tables of `main` (streamlit_app.py:3-46, :127-238). Only the four calculation calls of `main` (lines 201-204) are modelled, as `Simulation.Simulate`.
- Randomness: `np.random.uniform(0.8, 1.2, 24)` is replaced by the parameter `noise`. `NoiseInRange` takes the closed interval [0.8, 1.2], though numpy draws from [0.8, 1.2).
- Trigonometry: `np.sin` and `np.clip` have no exact real counterpart. The clipped curve is the parameter `raw`. Its values at the daylight hours are not modelled.
- Floating point: all quantities are exact reals. The balances the model proves hold exactly only in that setting. The source's `daily_raw_sum == 0` test is modelled as exact equality.
- Array shapes: `Settlement.SettleHourly` requires demand and generation of equal length. Numpy raises a broadcasting error for unequal lengths unless one of them is 1, which it broadcasts; `main` always passes two 24-value arrays, the case modelled.
- Financial.CalculateNpv: for two or more flows requires 1 + rate ≠ 0. At rate −1 numpy then divides flow 1 onward by 0.0 and returns an infinite or NaN value, which reals cannot represent. With 0 or 1 flows any rate is accepted, since (1 + rate)^0 is 1.
- The `numpy_financial` and `np.npv` / `np.irr` branches (test_financial.py:2-7, :10-13, :21-24) are calls into libraries that are not part of this model.
- `calculate_irr` is left out. Its fallback returns a fixed 0.10 and computes nothing. `Financial.TestNpvNegative` shows that 0.10 is not a root of the test flows.
- The `print` calls of test_financial.py are I/O.
- Integers in the test script (`10_000_000`, `1_000_000`) are modelled as reals, which is what numpy's division turns them into.
