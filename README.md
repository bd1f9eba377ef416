# RFV customer segmentation — a Dafny model

This project models the computational core of the RFV page in `app_RFV_2.py`.
RFV stands for Recency, Frequency, Value. The page takes a log of purchases and
builds one row per customer:

- **Recency**: days from the customer's latest purchase to the latest purchase day of the whole log.
- **Frequency**: the number of the customer's purchases.
- **Value**: the sum of the customer's purchase totals.

It then computes the 0.25, 0.50 and 0.75 quantiles of each column once, over the whole customer
population. It grades every customer A to D on each metric. Recency is better when lower, so the
lowest quarter gets 'A'. Frequency and Value are better when higher, so the highest quarter gets 'A'.
The three letters form a 3-character score, and four curated scores map to a marketing action.

Modules, one per file:

- `Wrappers` (`wrappers.dfy`): `Option`, for the missing action that `Series.map` yields.
- `Frames` (`frames.dfy`): keyed tables and the inner join `merge(on=...)`, in left-table order.
- `Aggregation` (`aggregation.dfy`): the purchase log, the `groupby` reductions (max day, count,
  sum), the three per-metric frames, and the RFV table built by joining them on the customer id.
- `Quantiles` (`quantiles.dfy`): the default pandas quantile. It sorts the column and interpolates
  linearly at position p·(n−1), which is type 7 of Hyndman and Fan. Computed over `real`.
- `Grading` (`grading.dfy`): `recencia_class` and `freq_val_class`.
- `Segmentation` (`segmentation.dfy`): the quartile table, the per-row grades, score and action, the
  loop that fills the new columns, and the per-action tally.
- `Pipeline` (`pipeline.dfy`): one run from the log to the graded table.

Days are integer day numbers and money is `real`, so all arithmetic is exact. Customer ids are
integers. `groupby` sorts its keys, so the RFV table is in ascending id order.

The code does not check for an empty log; the model returns `Report(None, [])` for one.

## Model

| member | source | states |
|---|---|---|
| `Grading.RecencyClass` | app_RFV_2.py:27-40 | the result is one of 'A'–'D'; 'A' iff x ≤ Q0.25, 'B' iff Q0.25 < x ≤ Q0.50, 'C' iff x is above Q0.25 and Q0.50 and at most Q0.75, 'D' iff x is above all three |
| `Grading.FreqValClass` | app_RFV_2.py:42-55 | the result is one of 'A'–'D' and is the letter reversal (A↔D, B↔C) of the Recency grade for the same cut points; 'D' iff x ≤ Q0.25, 'C' iff Q0.25 < x ≤ Q0.50, 'B' and 'A' likewise above |
| `Grading.Mirror` | app_RFV_2.py:48-55 | the letter reversal maps a grade to a different grade |
| `Grading.RecencyClassIsQuarter` | app_RFV_2.py:33-40 | for ordered cut points, the Recency grade is "ABCD" indexed by how many cut points lie strictly below x |
| `Grading.FreqValClassIsQuarter` | app_RFV_2.py:48-55 | for ordered cut points, the Frequency/Value grade is "DCBA" indexed by the same count |
| `Grading.RecencyClassMonotone` | app_RFV_2.py:27-40 | x ≤ y implies grade(x) ≤ grade(y) alphabetically; this holds even for unordered cut points |
| `Grading.FreqValClassMonotone` | app_RFV_2.py:42-55 | x ≤ y implies grade(x) ≥ grade(y) alphabetically |
| `Quantiles.Sort` | app_RFV_2.py:134 | the column sorted ascending, as a permutation of the column (same multiset) |
| `Quantiles.Position` | app_RFV_2.py:134 | the interpolation position p·(n−1) lies in [0, n−1] |
| `Quantiles.Interpolate` | app_RFV_2.py:134 | linear interpolation between the order statistics around the position; `InterpolateBetween` and `InterpolateMonotone` state that the value lies between those two statistics and never decreases as the position grows |
| `Quantiles.Quantile` | app_RFV_2.py:134 | the pandas default quantile of a column; its contract is stated by `QuantileWithinRange`, `QuantileMonotone`, `QuantileExtremes`, `QuantileOfOne` and `QuantileOrderFree` |
| `Quantiles.QuantileWithinRange` | app_RFV_2.py:134 | every quantile lies between the column's minimum and maximum |
| `Quantiles.QuantileMonotone` | app_RFV_2.py:134 | p1 ≤ p2 implies Quantile(p1) ≤ Quantile(p2), so Q0.25 ≤ Q0.50 ≤ Q0.75 |
| `Quantiles.QuantileExtremes` | app_RFV_2.py:134 | level 0 gives the minimum and level 1 the maximum |
| `Quantiles.QuantileOfOne` | app_RFV_2.py:134 | for a one-row column, every quantile equals the single value |
| `Quantiles.QuantileOrderFree` | app_RFV_2.py:134 | columns holding the same values in any row order have equal quantiles |
| `Quantiles.SortedUnique` | app_RFV_2.py:134 | two sorted sequences with the same multiset are equal, so the sorted column is unique |
| `Frames.InnerJoin` | app_RFV_2.py:124-125 | `merge(on=...)` with the default inner join; its contract is stated by `JoinAt` and `JoinAligned` |
| `Frames.JoinAt` | app_RFV_2.py:124-125 | if the right table's keys are pairwise distinct and every left key occurs among them, the inner join has one row per left row, in left order, paired with its matching right row |
| `Frames.JoinAligned` | app_RFV_2.py:124-125 | joining two tables with the same distinct keys in the same order keeps the keys and pairs the i-th payloads |
| `Aggregation.MaxDay` | app_RFV_2.py:95 | the latest day is some row's day and no row's day exceeds it |
| `Aggregation.Purchases` | app_RFV_2.py:100 | a customer's group holds only that customer's rows, all of them from the log; it is non-empty iff the customer bought |
| `Aggregation.PurchasesMultiset` | app_RFV_2.py:100-111 | each row of the customer occurs in the group exactly as often as in the log, and no other row occurs; so the group's size, the Frequency, counts duplicates |
| `Aggregation.PurchasesComplete` | app_RFV_2.py:100 | every row of the customer is in the customer's group |
| `Aggregation.Customers` | app_RFV_2.py:100 | the group keys are strictly increasing and are exactly the customers of the log |
| `Aggregation.LastPurchase` | app_RFV_2.py:100 | the customer's latest purchase day is the day of one of the customer's rows and no row of the customer is later |
| `Aggregation.Recency` | app_RFV_2.py:95-102 | Recency is never negative; `CustomerRecency` adds that it is 0 iff the customer bought on the log's latest day |
| `Aggregation.Frequency` | app_RFV_2.py:110-111 | the number of the customer's rows: at most the log size, positive iff the customer bought; `PurchasesMultiset` and `ColumnSums` state the count itself |
| `Aggregation.Value` | app_RFV_2.py:117-118 | the sum of the customer's totals; `ColumnSums` states that the Value column adds up to the log's total |
| `Aggregation.RecencyFrame` | app_RFV_2.py:100-102 | the Recency frame, one row per group key; `RfvTableRows` states its rows after the joins |
| `Aggregation.FrequencyFrame` | app_RFV_2.py:110-111 | the Frequency frame, one row per group key; `RfvTableRows` states its rows after the joins |
| `Aggregation.ValueFrame` | app_RFV_2.py:117-118 | the Value frame, one row per group key; `RfvTableRows` states its rows after the joins |
| `Aggregation.RfvTable` | app_RFV_2.py:124-126 | the merged RFV table; `RfvTableRows` and `EveryCustomerOnce` state its rows and its index |
| `Aggregation.RfvTableRows` | app_RFV_2.py:100-126 | after both joins, row i carries the Recency, Frequency and Value of the i-th customer, with one row per customer |
| `Aggregation.EveryCustomerOnce` | app_RFV_2.py:124-126 | the table's index holds every customer of the log exactly once, no other id, in ascending order |
| `Aggregation.CustomerRecency` | app_RFV_2.py:95-102 | Recency ≥ 0 and Frequency ≥ 1; Recency is 0 iff the customer bought on the log's latest day |
| `Aggregation.RecencyRange` | app_RFV_2.py:95-110 | the same facts for every row of the RFV table |
| `Aggregation.SomeCustomerIsRecent` | app_RFV_2.py:95-102 | a non-empty log has a customer with Recency 0 |
| `Aggregation.OverPartition` | app_RFV_2.py:110-117 | over distinct ids covering the log, group sizes sum to the log size and group totals to the log total |
| `Aggregation.ColumnSums` | app_RFV_2.py:110-118 | the Frequency column sums to the number of log rows and the Value column to the sum of all totals |
| `Segmentation.QuartilesOf` | app_RFV_2.py:134 | the three quartiles of a column are ordered and lie within the column's range |
| `Segmentation.ComputeQuartiles` | app_RFV_2.py:134 | the quartiles of the three columns over the whole population; each triple is ordered and lies within its own column's minimum and maximum |
| `Segmentation.Action` | app_RFV_2.py:159-166 | the lookup of a score in the `dict_acoes` map (`ActionMap`); `ActionDefinedExactly` and `ActionsOfScores` state its contract |
| `Segmentation.ActionDefinedExactly` | app_RFV_2.py:159-166 | a score has an action iff it is 'AAA', 'DDD', 'DAA' or 'CAA'; otherwise the action is missing, not an error |
| `Segmentation.ActionsOfScores` | app_RFV_2.py:159-164 | 'DAA' and 'CAA' map to the same text; 'AAA', 'DDD' and that text are pairwise different |
| `Segmentation.GradeRow` | app_RFV_2.py:138-141 | a graded row keeps its metrics; its Recency letter is `RecencyClass` of the row's Recency against the Recency quartiles, and its Frequency and Value letters are `FreqValClass` of each metric against that metric's own quartiles; for ordered quartiles these are "ABCD" and "DCBA" indexed by the number of cut points below the value; the score is the three letters in R, F, V order and the action is the score's mapped action |
| `Segmentation.GradeAll` | app_RFV_2.py:138-166 | every row graded against one quartile table; `Segment` states that the loop computes it |
| `Segmentation.Segment` | app_RFV_2.py:138-166 | the loop fills a newly allocated array with one graded row per customer, each graded against the same quartile table |
| `Segmentation.BestCustomerScoresAAA` | app_RFV_2.py:138-166 | Recency ≤ Q0.25 with Frequency and Value above Q0.75 gives score 'AAA' and the curated 'AAA' action |
| `Segmentation.UncuratedScoreHasNoAction` | app_RFV_2.py:166 | a row scored 'ABC' gets no action |
| `Segmentation.LeastRecencyGradedA` | app_RFV_2.py:134-138 | a customer with the smallest Recency of the population gets 'A' |
| `Segmentation.LeastFrequencyValueGradedD` | app_RFV_2.py:134-140 | a customer with the smallest Frequency, or the smallest Value, gets 'D' for it |
| `Segmentation.SingleRowScoresADD` | app_RFV_2.py:134-141 | in a one-customer population the score is 'ADD', with no action |
| `Segmentation.Tally` | app_RFV_2.py:181 | the count of rows with a given action, at most the number of rows; `TallyCoversAll` states how the counts add up |
| `Segmentation.TallyCoversAll` | app_RFV_2.py:181 | the per-action tally, counting "no action" as a category, sums to the number of customers |
| `Pipeline.ReportOf` | app_RFV_2.py:134-166 | quartiles exist iff the table is non-empty; one graded row per table row, same metrics, action matching score |
| `Pipeline.RfvReport` | app_RFV_2.py:95-166 | the graded table of a log; `ReportCustomers` and `ReportQuartilesAndActions` state its contract |
| `Pipeline.RunRfv` | app_RFV_2.py:95-166 | a run yields the graded table of the log's RFV table, against quartiles computed once over all customers |
| `Pipeline.ReportCustomers` | app_RFV_2.py:100-166 | the final table lists every customer of the log exactly once, in ascending id order |
| `Pipeline.ReportQuartilesAndActions` | app_RFV_2.py:134-166 | the quartile table exists iff the log is non-empty; every row's action is the one its score maps to |
| `Pipeline.LatestBuyersGradedA` | app_RFV_2.py:95-138 | a customer who bought on the log's latest day has Recency 0 and Recency grade 'A' |
| `Pipeline.LowestGradedD` | app_RFV_2.py:134-140 | a customer with the population's smallest Frequency, or smallest Value, gets 'D' for it |
| `Pipeline.SingleCustomerScoresADD` | app_RFV_2.py:95-166 | a log with one customer yields one row, scored 'ADD', with no action |

## Left out

- Page setup, titles, `st.write` output, the sidebar and the file upload (app_RFV_2.py:60-90) are user interface.
- CSV parsing and date inference in `pd.read_csv` (line 90) are library behaviour. The input is a sequence of parsed records, and days are integer day numbers. `Timedelta.days` floors a difference with a time-of-day part; that case is not modelled.
- Missing values are not modelled. pandas `count` skips null purchase codes, `sum` skips NaN totals, `max` skips NaT days, and `groupby` drops rows with a null customer id. In the model every record is complete.
- Customer ids are integers. With string ids, `groupby` would order the table lexicographically; that order is not modelled.
- Floating-point sums and interpolation are modelled as exact `real` arithmetic.
- The histograms (lines 147-156) are chart rendering.
- `convert_df`, `to_excel` and the download button (lines 12-23, 176-177) serialise through pandas, xlsxwriter and BytesIO. The export round-trip is therefore not modelled.
- The write to a fixed Windows path (lines 170-173) is filesystem I/O.
- The `@st.cache_data` memoisation is a presentation concern.
- The DataFrames are changed in place in the source: the dropped column at line 105, `set_index(..., inplace=True)` at line 126, and the columns added at lines 138-141 and 166. The model builds new values instead. The five column additions are one loop that fills an array of graded rows, so their order is not modelled.
- A Value ≥ 0 bound is not claimed: the code does not check that purchase totals are non-negative.
