# Hungarian take-home pay and state revenue calculator, modelled in Dafny

The page asks for a monthly gross salary, the number of children, five tick boxes
(under 25, mother under 30, mother of four or more, first-marriage allowance, personal
allowance) and, optionally, a monthly spending figure. On submit it works out:

- the personal income tax (SZJA) base,
- the income tax on it,
- the employee social-security contribution (TB),
- the employer's social contribution tax (szocho),
- net pay,
- the VAT (ÁFA) contained in the monthly spending,
- what the employee pays and what the state collects in all, per month and per year.

The page also has info buttons whose tooltips show one at a time.

Two modules:

- `tax.dfy`, module `Tax`: the submit calculation as pure functions over `real`.
  - The configuration record `Config` mirrors the `rates` and `deductions` blocks of the
    rates file.
  - The reference `(year, month)` stands in for the clock.
  - The deduction stage is there twice. `TaxBase` is a left fold of four `Allowance`
    steps. `ComputeTaxBase` is the handler's own form: one local base, reassigned by each
    clamped subtraction. Its `ensures` ties the two together.
  - `Calculate` runs the deduction stage, then `Settle`. `Settle` does the contributions,
    net pay, VAT, totals and yearly figures.
- `tooltips.dfy`, module `Tooltips`: the tooltip toggle.
  - Class `InfoTips` holds two boolean arrays: tooltip shown, button highlighted. Its
    methods update them in loops as `closeAllTips` and the click handlers do.
  - The functions `Clicked` and `Closed` on sequences specify those methods. Lemmas on
    `Count` show that at most one tooltip is visible.

Notes on the model:

- Taxable base with an exemption: a mother of four or more is checked first, then under
  25. Either way the base is exactly 0, so the income tax is exactly 0.
- Order of the allowances: without an exemption, young mother (the annual cap divided by
  12), personal, first marriage and family are taken off in that order. Each one is
  clamped against the base the earlier ones left. In exact arithmetic, with a
  non-negative gross and non-negative amounts, this gives the same base as taking off
  their sum once and flooring at zero (`StackedDeductionsClampOnce`). So for a
  non-negative gross the order matters only for negative configured amounts. A negative
  gross with nothing claimed stays negative, where the floored sum would give 0.
- Family allowance:
  - one or two children get the first or second table entry;
  - three or more get the third entry times the number of children, with no cap at three.
- Choice of family table: the source tests `year == 2025 && month >= 6`. So the newer
  table only applies from July to December 2025. From January 2026 the older table is
  used again (`Year2026UsesBeforeTable`). The model keeps this as written.
- Negative gross: the source does not clamp it, so `Calculate` is defined for every real
  gross. Only the bound lemmas assume `gross >= 0` and a non-negative configuration.
- Configuration shape: the model assumes (`WellFormed`) that both family tables have at
  least three entries (the rates file provides exactly three) and that
  `1 + afa_standard != 0`. The source itself reads only the selected table, only with
  children, and only up to index `min(children, 3) - 1`.
- Spending override: any number the field parses to is used, negative numbers included.
  When the field does not parse, net pay is used instead.

## Model

| member | source | states |
|---|---|---|
| `Tax.Deduct` | script.js:145-161 | one clamped step `base -= min(amount, base)`: from a non-negative base it never goes below 0; with a non-negative amount it never goes above the base; and it equals `max(base - amount, 0)` |
| `Tax.FamilyAllowance` | script.js:159-160 | the family allowance: 0 for no child, `table[0]` for one child, `table[1]` for two, `table[2] * children` for three or more (not capped at three) |
| `Tax.Allowances` | script.js:145-161 | the ensures fixes the count: exactly four stacked allowances; the definition lists them in the source's order (young mother, personal, first marriage, family), and `ComputeTaxBase`'s ensures ties that order to the step-by-step code |
| `Tax.ApplyAllowances` | script.js:145-162 | applying the allowances one after another never takes a non-negative base below 0, and with non-negative amounts never raises it |
| `Tax.FamilyTable` | script.js:156-158 | no ensures: the table chosen by the `year == 2025 && month >= 6` key; specified by `FamilyTableSelection` and `Year2026UsesBeforeTable` |
| `Tax.TaxBase` | script.js:137-163 | no ensures: the deduction stage as a fold of the four allowances after the two exemptions; specified by `ComputeTaxBase`, `TaxBaseBounds`, `StackedDeductionsClampOnce`, `FullExemption` and `NoAllowanceTaxesGross` |
| `Tax.ComputeTaxBase` | script.js:137-163 | the handler's step-by-step deduction stage computes exactly `TaxBase`; with gross ≥ 0 and a non-negative configuration the result lies in [0, gross] |
| `Tax.Calculate` | script.js:126-176 | the outcome's base is the deduction stage's result, and net pay + income tax + TB equals gross exactly |
| `Tax.Settle` | script.js:164-176 | no ensures: income tax, contributions, net pay, VAT, totals and yearly figures from the base; specified through `Calculate` by `IncomeTaxBounds`, `ContributionsDependOnlyOnGross`, `VatOnSpending`, `OverrideOnlyAffectsVat` and `TotalsAndYearly` |
| `Tax.TaxBaseBounds` | script.js:137-162 | for every flag combination and child count, a gross ≥ 0 with non-negative rates and allowances gives a taxable base in [0, gross] |
| `Tax.DeductTwice` | script.js:147-153 | for a non-negative base and non-negative amounts, two successive clamped steps equal one clamped step of the summed amounts |
| `Tax.ApplyAllowancesClampOnce` | script.js:145-162 | for a non-negative base and non-negative amounts, clamping each allowance against the running base gives `max(base - total claimed, 0)` |
| `Tax.StackedDeductionsClampOnce` | script.js:144-162 | for gross ≥ 0 and a non-negative configuration, without an exemption, the taxable base is gross less the sum of the claimed allowances, floored at 0 |
| `Tax.FullExemption` | script.js:140-143 | with `mother4plus` or `under25` set, the base and the income tax are exactly 0 whatever the other flags and children, and net pay is gross − gross·tb |
| `Tax.NoAllowanceTaxesGross` | script.js:137-164 | with no exemption, no allowance flag and no child, the base is the whole gross and the tax is gross·szja |
| `Tax.IncomeTaxBounds` | script.js:164-169 | with gross ≥ 0 and a non-negative configuration, income tax lies in [0, gross·szja], and net pay lies between gross·(1 − szja − tb) and gross·(1 − tb) |
| `Tax.FamilyTableSelection` | script.js:155-158 | outside July–December 2025 the newer family table does not affect any output; inside that half-year the older one does not |
| `Tax.Year2026UsesBeforeTable` | script.js:157 | a worked case with one child, no other allowance or exemption, and each table's first entry in [0, gross]: in January 2026 the base is gross less the older table's entry, the same as in January 2025; in December 2025 it is gross less the newer one's. The general choice comes from `FamilyTable` and `FamilyTableSelection` |
| `Tax.ContributionsDependOnlyOnGross` | script.js:167-168 | TB is gross·tb and szocho is gross·szocho for any two inputs with the same gross, whatever their flags, children, spending or date |
| `Tax.VatOnSpending` | script.js:172-173 | VAT is `spending·r/(1+r)`, where spending is the override if present and net pay if not; the pre-VAT price `p = spending − VAT` satisfies `p·(1+r) = spending` and `p·r = VAT` |
| `Tax.OverrideOnlyAffectsVat` | script.js:169-175 | a spending override leaves the base, income tax, TB, szocho, net pay and "you pay", monthly and yearly, as they are without it; VAT is computed from the override, and the total moves by exactly the VAT difference |
| `Tax.TotalsAndYearly` | script.js:175-189 | total = income tax + TB + szocho + VAT; "you pay" = income tax + TB; every yearly figure is 12× the monthly one; the yearly total is the sum of the yearly parts; yearly net + yearly "you pay" = 12·gross |
| `Tax.ExampleNoFlags` | script.js:164-175 | for gross 500 000 at 15 / 18.5 / 13 / 27 %, with no flag and no child: tax 75 000, TB 92 500, szocho 65 000, net 332 500, VAT 8 977 500/127 |
| `Tax.ExampleUnder25` | script.js:142-169 | for gross 500 000 under 25 at 15 / 18.5 / 13 / 27 %: tax 0, TB 92 500, net 407 500, whatever else is set |
| `Tooltips.Closed` | script.js:34-40 | its ensures gives only the length (one entry per button); the visibility after `closeAllTips`, every tooltip hidden; specified by `ClosedOutcome`, `InfoTips.CloseAllTips` and `InfoTips.DocumentClick` |
| `Tooltips.Clicked` | script.js:99-103 | its ensures gives only the length; the visibility after a click on button i, only tooltip i and only if it was hidden; specified by `ClickOutcome` and `InfoTips.Click` |
| `Tooltips.ClickOutcome` | script.js:97-106 | after a click on button i, at most one tooltip is visible and it can only be tooltip i; if tooltip i was visible, none is; if it was hidden, exactly tooltip i is |
| `Tooltips.ClosedOutcome` | script.js:34-40 | after closing all tooltips, no tooltip is visible |
| `Tooltips.CountOnlyAt` | script.js:6 | a visibility vector that is false except possibly at i counts one visible tooltip exactly when i is visible |
| `Tooltips.InfoTips.constructor` | script.js:63-69 | every button gets its own tooltip, created hidden, and no button is highlighted |
| `Tooltips.InfoTips.CloseAllTips` | script.js:34-40 | every tooltip is hidden and every highlight removed; the invariant holds afterwards |
| `Tooltips.InfoTips.Click` | script.js:97-106 | the new visibility is `Clicked(old visibility, i)`; the invariant holds: highlight ⇔ shown, at most one shown |
| `Tooltips.InfoTips.DocumentClick` | script.js:115 | a click anywhere else on the page hides every tooltip |

## Left out

- Loading the configuration with `fetch("rates_2025.json")` (script.js:11): the configuration is an input record.
- Input parsing (`parseFloat`, `parseInt`, `|| 0`, `Math.max(0, …)`, `isNaN`, script.js:126-133 and 172): gross is a `real`, the child count is a `nat`, and the spending field is an `Option<real>`. A child field that parses to NaN is not modelled; the source then skips the family step, and the model has no NaN.
- Floating point: the source computes in IEEE doubles. The model uses exact reals, so its identities (net + tax + TB = gross, yearly = 12 × monthly) are exact, where the doubles may be off by rounding.
- Display: `animateValue`, `Intl.NumberFormat`, `Math.round` and `requestAnimationFrame` (script.js:17-28) only format and animate the figures.
- The wall clock `new Date()` (script.js:156): it is the explicit `RefDate` parameter.
- The result-panel fade-in and the Chart.js pie chart (script.js:193-211): these are UI and a foreign library.
- Tooltip placement `positionTip` and `clamp` (script.js:42, 72-94), the styling classes (script.js:46-67) and the resize listener (script.js:108-111): they depend on the browser's element rectangles and viewport size, and they do not change which tooltip is visible.
- Event propagation: `stopPropagation` (script.js:98) is modelled by treating a button click and a click elsewhere as separate operations (`Click`, `DocumentClick`).
- A malformed family table (script.js:158-160), which matters only with `children > 0`. If the selected table is missing, `arr` is `undefined`, so `arr[2]` or `arr[idx]` throws a TypeError at script.js:160. The handler then stops and no figure is updated. If the table has fewer than `min(children, 3)` entries, the entry read is `undefined`, so the base and every figure after it become NaN. The model has neither exceptions nor NaN. It assumes both tables have at least three entries (`WellFormed`); longer tables are allowed, and nothing past index 2 is read.
