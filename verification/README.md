# SOMA analytics: A/B comparison and HTTP wrapping, in Dafny

This project models the in-process logic of the SOMA analytics backend: a small
read-only service that loads pre-aggregated A/B-test figures from database views and
serves them as JSON.

- `AbTest` (`ab_test.dfy`) models `get_comparison_metrics`. It takes the per-variant
  statistics rows as a parameter. It picks the first row of arm "A" and the first row of
  arm "B". It computes B's average completion time minus A's, and that difference as a
  percentage of A's average, which is 0 when A's average is not positive. It then
  classifies the percentage into one of four buckets: harder, easier, moderate or similar.
  A list with fewer than two rows, or one lacking either arm, yields an error payload.
- `Api` (`api.dfy`) models the HTTP handlers. Every route under `/api/` turns a raised
  error into an HTTP 500 whose detail is the error's message. The recent-completions
  route caps `limit` at 500 and defaults it to 100. The comparison's error payloads are
  returned values, so they reach the client as successful responses.
- `Records` (`records.dfy`) holds the row types the views deliver. `Wrappers`
  (`wrappers.dfy`) holds `Option` and `Result`.

Each call into the data layer is a parameter: the rows it returned, or the message of the
error it raised. For recent completions it is a function from the forwarded limit to that
outcome. Python floats are `real`s.

Three facts about the code shape the model:
- The `limit` clamp has an upper bound only, so 0 and negative limits are forwarded as given (api.py:101-102).
- The percentage is 0 for every non-positive A average (analysis/ab_test.py:148).
- A missing arm is a returned payload, not a raised error (analysis/ab_test.py:141-144).

## Model

| member | source | states |
|---|---|---|
| AbTest.FindFirst | analysis/ab_test.py:138-139 | the lookup returns the position of the first row whose variant is the given code, and none exactly when no row has that code |
| AbTest.IsFirstUnique | analysis/ab_test.py:138-139 | at most one position is the first row of an arm, so "the first A row" is well defined |
| AbTest.Compare | analysis/ab_test.py:130-171 | (its success branch is the helper `Summarize`, lines 146-171) fewer than two rows gives "Need data from both variants for comparison"; two or more rows lacking an arm gives "Missing data for variant A or B"; metrics are returned exactly when both arms are present; on success the time difference is B's average minus A's, and the percentage and bucket are derived from the echoed averages |
| AbTest.PercentDiff | analysis/ab_test.py:148 | with a positive A average the percentage times A's average is 100 times the time difference; otherwise it is exactly 0, and no division by zero can happen |
| AbTest.PercentSignFollowsTimeDiff | analysis/ab_test.py:147-148 | with a positive A average the percentage is positive, negative or zero exactly when B's average is above, below or equal to A's |
| AbTest.Interpret | analysis/ab_test.py:151-159 | harder exactly above +20, easier exactly below -20, moderate exactly for magnitudes in (10, 20], similar exactly for magnitudes up to 10; the four intervals partition the reals |
| AbTest.ThresholdsAreStrict | analysis/ab_test.py:151-159 | a percentage of exactly ±20 is moderate and exactly ±10 is similar |
| AbTest.NonPositiveBaselineIsSimilar | analysis/ab_test.py:148-159 | when A's average is not positive the percentage is 0 and the result is always "similar" |
| AbTest.BothArmsMeanTwoRows | analysis/ab_test.py:132-144 | a list holding both arms has at least two rows, so the length check only chooses between the two error messages |
| AbTest.CompareUsesFirstRows | analysis/ab_test.py:138-171 | when both arms are present the result is a success whose averages, medians and completion counts are those of the first A row and the first B row, and whose time difference is B's average minus A's |
| AbTest.FindFirstReadsOnlyVariant | analysis/ab_test.py:138-139 | the lookup depends only on the rows' variant codes |
| AbTest.CompareReadsOnlyEchoedFields | analysis/ab_test.py:138-171 | two row lists that agree on variant, average, median and completion count of every row give the same result; no other field is read |
| AbTest.SlowerBExample | analysis/ab_test.py:147-153 | A averaging 50 and B averaging 65 give a difference of 15, a percentage of 30 and the "harder" bucket |
| AbTest.MissingArmExamples | analysis/ab_test.py:132-144 | two A rows pass the length check and still give the missing-arm error; a single row gives the too-few-rows error |
| Api.Guard | api.py:73-76 | a handler answers with a JSON body exactly when the analysis call returned normally, and with status 500 otherwise |
| Api.GuardRoundTrip | api.py:73-76 | the body is the returned value and the detail is the raised error's message, so the call's outcome is recoverable from the response |
| Api.ClampLimit | api.py:101-102 | the forwarded limit is at most 500, at most the requested limit, and is either the requested limit or 500 |
| Api.ClampKeepsSmallLimits | api.py:101 | every limit up to 500, including 0 and negative ones, is forwarded unchanged |
| Api.ClampCapsLargeLimits | api.py:101-102 | every limit above 500 becomes exactly 500 |
| Api.ClampIdempotent | api.py:101-103 | clamping an already clamped limit changes nothing |
| Api.ForwardedLimit | api.py:93-103 | an omitted limit forwards 100; a given one forwards its clamp |
| Api.VariantStatsRoute | api.py:66-76 | the statistics route's response recovers exactly the rows returned or the error message raised, and an error answer has status 500 |
| Api.ConversionFunnelRoute | api.py:79-89 | the funnel route's response recovers exactly the rows returned or the error message raised, and an error answer has status 500 |
| Api.RecentCompletionsRoute | api.py:92-105 | the response recovers exactly the data layer's outcome for the forwarded limit, min(limit, 500) or 100 when none is given, so always a limit of at most 500; an error answer has status 500 |
| Api.RecentCompletionsAtMostMax | api.py:97-103 | if the data layer never returns more rows than asked for, a successful response holds at most 500 rows |
| Api.ComparisonRoute | api.py:108-118 | the comparison route is an HTTP 500 carrying the message exactly when loading the statistics failed; otherwise its body is the comparison of the loaded rows |
| Api.ComparisonErrorsAreNotHttpErrors | api.py:115-116 | too few rows or a missing arm produce a successful JSON response whose body is the error payload |

## Left out

- Database access: opening the engine, reading `DATABASE_URL`, the SQL queries and the view contents. Each data-layer call is a parameter instead.
- `get_variant_stats`, `get_conversion_funnel` and `get_recent_completions`: their rows and row order come from SQL and are inputs to the model. Turning timestamps into text is pandas formatting and is not modelled.
- Rounding of the echoed values to two or one decimal places, and the `int` cast of completion counts: the model keeps exact reals and whole-number counts. NaN and infinite floats are not modelled either.
- The interpretation texts: the four messages are the `Interpretation` enumeration.
- Errors raised inside the comparison itself, such as a row without a `variant` key: the rows are typed records, so only the loading of the statistics can fail.
- Framework behaviour: FastAPI's rejection of a non-integer `limit` before the handler runs, app construction, CORS, the `/` metadata route, `/health` (it reads the wall clock) and the server start-up.
- Api.RecentCompletionsAtMostMax: the bound on returned rows rests on the data layer's SQL `LIMIT`, which the model takes as a hypothesis rather than proving.
