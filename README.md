# Progressive utility billing of an apartment-management backend

This project models the one piece of business logic in the apartment
backend: how an apartment's electricity and water bills are priced. Both
bills use a block-rate schedule. Consumption fills the tiers of the schedule
in order, each tier up to its limit at its own rate. Units beyond the last
tier are billed at an overflow rate. The subtotal is then raised by 10%.

- **Electricity** (`ElectricityBill`): the consumption is
  `current_index - previous_index`. A bill whose current reading is below
  the previous one is refused. The schedule is fixed:
  50 kWh at 1678, 50 at 1734, 100 at 2014, 100 at 2536, 100 at 2834, then 2927
  per kWh.
- **Water** (`WaterBill`): the consumption is entered directly. The schedule
  depends on the apartment's number of registered residents `p`: `4p` units
  at 6700, `2p` at 12900, then 14400. An apartment with no residents pays the
  flat 14400 per unit on everything.

Both bills recompute their derived fields on every save.

Layout:

- `tier_walk.dfy`, module `TierWalk`: the generic walk.
  - `Subtotal` is the walk as a recursive function.
  - `Walk` is the source's `for` loop, with its `remaining` and `amount`
    accumulators and its early `break`, proved equal to `Subtotal`.
  - `Allocation` gives the units billed per tier and `Leftover` the units
    left after the last tier.
  - `RateBounds` proves that every unit costs between the cheapest and the
    dearest rate of the schedule.
  - Lemmas prove conservation of units, the closed form of the leftover,
    in-order filling, the per-tier decomposition of the amount, the price of
    one more unit, and monotonicity.
- `bills.dfy`, module `Bills`: the two schedules and the two bill classes.
  - The classes have the source's mutable fields.
  - `Save` and `CalculateTotalAmount` are methods on them.
  - `ElectricityByBracket` and `WaterByBracket` are bracket-by-bracket
    reference definitions, proved equal to the walk on the real schedules.
  - `BillingExamples` follows five example bills through the classes:
    0→300 kWh costs 688160, 500 kWh costs 1321870, readings 100→50 are
    refused, 10 units of water with no residents cost 158400, and 20 units
    with two residents cost 242440.

The 10% surcharge is exact: `WithSurcharge(s) == s as real * 1.1`, a
rational number. The source multiplies by the binary float `1.1` instead.

The apartment's head-count is a `nat` parameter of the water bill's methods.
The source reads it through the bill's apartment reference, and the field is
a non-negative integer field.

Two behaviours of the code that the model keeps as they are:

- The electricity `save` (apartment/models.py:174-175) raises
  `ValueError("Current index cannot be smaller than the previous index.")`.
  The model returns `Rejected` with that message.
- `water_consumption` is a plain `IntegerField` (apartment/models.py:188),
  so a negative consumption is accepted. With residents it costs 0, because
  the walk stops at once. Without residents it costs `c * 14400`, which is
  negative, because the flat path has no such guard
  (`WaterFlatDiffersBelowZero`).

## Model

| member | source | states |
|---|---|---|
| TierWalk.Subtotal | apartment/models.py:158-169 | the walk itself: nothing left to bill costs 0 and no overflow is added (the `break`); with all rates positive, anything left to bill costs something; `Walk`, `RateBounds`, `Conservation`, `SubtotalByTier`, `NextUnit` and `Monotone` describe it further |
| TierWalk.Walk | apartment/models.py:158-169 | the loop over the tiers, with its early exit and the overflow charge after it, computes exactly `Subtotal`; its final `remaining` is exactly `Leftover`, never above the consumption, and never below 0 for a non-negative consumption |
| TierWalk.RateBounds | apartment/models.py:161-169 | the subtotal lies between the consumption times the cheapest rate of the schedule and the consumption times the dearest, the overflow rate included |
| TierWalk.Take | apartment/models.py:164 | the units billed in a tier are at most its limit and at most what remains, and equal one of the two (the `min`) |
| TierWalk.Allocation | apartment/models.py:161-166 | one entry per tier, and each tier bills between 0 and its limit |
| TierWalk.Conservation | apartment/models.py:158-169 | units billed per tier plus units left add up to the consumption; for a non-negative consumption the units left are exactly the overflow units |
| TierWalk.LeftoverClosedForm | apartment/models.py:161-169 | what is left is the input itself when non-positive, otherwise the units beyond the total capacity, never negative; so overflow is charged only once every tier is full |
| TierWalk.FillsInOrder | apartment/models.py:161-166 | tier i bills the consumption beyond the capacity of the tiers before it, clamped to between 0 and its own limit |
| TierWalk.SubtotalByTier | apartment/models.py:161-169 | the walk's amount is the sum over tiers of units times rate, plus overflow units times the overflow rate |
| TierWalk.NextUnit | apartment/models.py:161-169 | one more unit adds exactly the rate of the first tier still below its limit, or the overflow rate when all are full |
| TierWalk.Monotone | apartment/models.py:158-171 | zero or negative consumption costs nothing, and the subtotal never decreases as consumption grows |
| Bills.WithSurcharge | apartment/models.py:171 | the stored amount is the subtotal plus exactly one tenth of it, and ten times it is the whole number `11 * subtotal` (the `* 1.1`, also at line 221, taken exactly) |
| Bills.ElectricitySubtotal | apartment/models.py:150-169 | the walk over the fixed electricity schedule with overflow 2927: 0 for no consumption, and between 1678 and 2927 per kWh otherwise; `ElectricityClosedForm` gives it exactly |
| Bills.WaterSubtotal | apartment/models.py:199-219 | the walk over the resident-scaled tiers, or the flat 14400 per unit without residents: between 6700 and 14400 per unit for non-negative consumption, never negative with residents, and negative for negative consumption without residents |
| Bills.FirstTier | apartment/models.py:161-166 | a consumption that fits within the first tier costs that many units at its rate, and no overflow follows |
| Bills.PastFirstTier | apartment/models.py:161-166 | a consumption that fills the first tier pays its full limit and the walk goes on with the rest |
| Bills.UpperBrackets | apartment/models.py:154-169 | the walk over the electricity tiers from the third on, bracket by bracket, overflow at 2927 included |
| Bills.LowerBrackets | apartment/models.py:151-166 | up to 100 kWh the electricity subtotal is 1678 per kWh for the first 50, then 83900 plus 1734 per kWh |
| Bills.AboveLowerBrackets | apartment/models.py:151-169 | beyond 100 kWh the first two tiers cost 170600 and the rest follows the upper brackets |
| Bills.ElectricityClosedForm | apartment/models.py:150-171 | the electricity walk equals the bracket table: 0 for at most 0 kWh, `1678*kwh` up to 50, then 83900, 170600, 372000, 625600 and 909000 at the bracket edges, and `909000 + 2927*(kwh-400)` beyond 400 |
| Bills.ElectricityShape | apartment/models.py:151-171 | the electricity subtotal is 0 for no consumption, `1678*kwh` for 0 to 50 kWh, `909000 + (kwh-400)*2927` from 400 kWh on, and non-decreasing in consumption |
| Bills.WaterClosedForm | apartment/models.py:201-217 | with residents, the water walk equals its bracket table: `6700*c` up to `4p`, then `26800p + 12900(c-4p)` up to `6p`, then `52600p + 14400(c-6p)`; 0 for non-positive consumption |
| Bills.WaterFirstTier | apartment/models.py:201-217 | with residents, non-positive consumption costs 0 (the loop exits and no overflow is added) and consumption within `4p` costs `6700*c` |
| Bills.WaterFlatMatchesWalk | apartment/models.py:201-219 | with no residents and non-negative consumption, the flat `c*14400` equals the general walk over the two zero-capacity tiers |
| Bills.WaterFlatDiffersBelowZero | apartment/models.py:206-219 | with no residents and negative consumption the flat path is negative while the walk over zero-capacity tiers gives 0 |
| Bills.WaterMonotone | apartment/models.py:198-221 | the water subtotal never decreases as consumption grows, with or without residents |
| Bills.ElectricityBill.constructor | apartment/models.py:138-141 | a new bill holds the given readings, `total_kwh` 0 and `total_amount` 0 |
| Bills.ElectricityBill.CalculateTotalAmount | apartment/models.py:150-171 | the amount for the recorded `total_kwh` is the bracket-table subtotal times 1.1, computed by the tier loop |
| Bills.ElectricityBill.Save | apartment/models.py:173-178 | refused with the source's message exactly when the current reading is below the previous one, leaving `total_kwh` and `total_amount` unchanged; otherwise `total_kwh` becomes the non-negative difference of the readings and `total_amount` its bracket-table price times 1.1; the readings never change |
| Bills.WaterBill.constructor | apartment/models.py:188-189 | a new bill holds the given consumption and `total_amount` 0 |
| Bills.WaterBill.CalculateTotalAmount | apartment/models.py:198-221 | with residents, the bracket-table price of the consumption times 1.1; without residents, `consumption*14400` times 1.1 |
| Bills.WaterBill.Save | apartment/models.py:223-225 | `total_amount` is recomputed from the current consumption and head-count on every save, whatever it held before; nothing else changes |

## Left out

- Persistence: `super().save(...)`, the ORM, field declarations, `Meta`, choices and validators are framework behaviour. `Save` stops where the source hands the record over to be stored.
- Floating point: the source multiplies by the binary float `1.1` and stores the result in a `DecimalField` with two decimal places and ten digits. The model keeps the exact rational `subtotal * 11 / 10` and models neither float rounding nor the decimal field's rounding or digit limit.
- Integer width: the database's integer columns have bounds, and the model's integers are unbounded.
- The apartment lookup through the bill's foreign key is not modelled. The head-count is a parameter, read at the time of the call as the source reads it at save time.
- Exceptions: the `ValueError` raised by the electricity `save` is the result value `Rejected(message)`.
- The other models (`User`, `Apartment` apart from its head-count, `Storage`, `Feedback`, the survey models, `VehiclePass`), the `__str__` methods, and the views, serializers, URL routes and admin registration hold no computation. They are not part of this model.
