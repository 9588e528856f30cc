# Merchant Transaction Dashboard: classification and JI pipeline

This project models the computational core of the Merchant Transaction
Dashboard, a Streamlit page. An operator uploads a sheet of card
transactions and picks a merchant (a trading name) and, optionally, one of
its merchant IDs. The operator also enters three merchant discount rates
(MDR) and the current month. The page then shows:

- a bar chart of month-to-date volume per card network;
- a pie chart of ON US / OFF US / INTL volume, leaving out the rows whose
  card type is exactly "JCB" or "CUP" (a "JCB INT" row stays, under INTL);
- a table of volume per raw card type;
- the JI (merchant discount revenue) for the month and its yearly projection.

The model is pure, like the source. Each row is a `Record` with MERCHANT_ID,
TRADING_NAME, CARD_TYPE and MTD_VOL. The sheet is a `seq<Record>`, and every
stage of the pipeline is a function with lemmas about it. There are five
modules:

- `Dataset`: the record type, boolean-mask row selection (`Where`) and
  `unique()` (`Distinct`).
- `Classifier`: `classify_card_type` and `classify_transaction`, built on
  substring containment (Python's `in` on strings).
- `Selection`: the merchant / merchant-ID filter with the `"All MIDs"`
  sentinel, and the two option lists of the sidebar.
- `Aggregation`: `groupby(key)['MTD_VOL'].sum()` as a map from key to summed
  volume, and its three uses (by network, by routing without JCB/CUP, by raw
  card type).
- `JiEstimator`: `calculate_ji_amounts` without the currency formatting.

Amounts are exact `real`s. The source uses binary floating point, so the
model states the arithmetic the source intends rather than its rounding.

## Model

| member | source | states |
|---|---|---|
| `Classifier.ContainsIffOccurs` | JI_macro_dashboard_streamlit.py:60-66 | The containment test used by the classifiers holds exactly when the pattern occurs at some position of the label. |
| `Classifier.ClassifyCardType` | JI_macro_dashboard_streamlit.py:59-69 | The network is the highest-priority one (VC, then MC, JCB, CUP) whose name occurs in the label. It is Other exactly when none of the four occurs. So a label containing both "VC" and "MC" is VC. |
| `Classifier.CardTypeRuleDeterminesNetwork` | JI_macro_dashboard_streamlit.py:59-69 | Any network meeting the first-match-in-priority-order rule is the one `classify_card_type` returns, so the rule determines the result. |
| `Classifier.ClassifyTransaction` | JI_macro_dashboard_streamlit.py:75-83 | The routing is one of four categories. ON US exactly for "VC ON US" / "MC ON US". INTL exactly for other labels containing "INT". Other exactly for the labels "JCB" and "CUP". OFF US for everything else. |
| `Classifier.LabelsDistinct` | JI_macro_dashboard_streamlit.py:59-83 | No two network categories, and no two routing categories, carry the same label, so the categories stand for the strings the two classifiers return without merging any of them. |
| `Classifier.NoIntInJcbOrCup` | JI_macro_dashboard_streamlit.py:78-81 | Neither "JCB" nor "CUP" contains "INT", so the INTL test placed before the JCB/CUP test never takes those two labels. |
| `Classifier.ClassifyOnUsLabel` | JI_macro_dashboard_streamlit.py:59-83 | "VC ON US" is network VC and routing ON US. |
| `Classifier.ClassifyOffUsLabel` | JI_macro_dashboard_streamlit.py:59-83 | "MC OFF US" is network MC and routing OFF US. |
| `Classifier.ClassifyJcbIntLabel` | JI_macro_dashboard_streamlit.py:59-83 | "JCB INT" is network JCB and routing INTL: the "INT" test wins over the exact JCB test. |
| `Classifier.ClassifyJcbLabel` | JI_macro_dashboard_streamlit.py:59-83 | "JCB" is network JCB and routing Other. |
| `Classifier.ClassifyUnknownLabel` | JI_macro_dashboard_streamlit.py:59-83 | The label "AMEX" falls through every test: network Other, routing OFF US. |
| `Dataset.Where` | JI_macro_dashboard_streamlit.py:88-93 | Mask selection keeps each row satisfying the mask as often as it occurs in the input, and no other row. |
| `Dataset.WhereConcat` | JI_macro_dashboard_streamlit.py:88-93 | Mask selection keeps row order: it distributes over concatenation. |
| `Dataset.WhereNested` | JI_macro_dashboard_streamlit.py:88-93 | Selecting with a finer mask after a coarser one is the same as selecting with the finer mask alone. |
| `Dataset.Distinct` | JI_macro_dashboard_streamlit.py:39-43 | `unique()` yields exactly the values present in the input, each once, and the first value of the input comes first. |
| `Dataset.DistinctFirstAppearance` | JI_macro_dashboard_streamlit.py:39-43 | `unique()` lists values in order of first appearance: of any two values it lists, the earlier one occurs in the input before the later one first does. |
| `Selection.MerchantData` | JI_macro_dashboard_streamlit.py:88-93 | With "All MIDs", the selection is exactly the rows with the chosen trading name. Otherwise it is exactly the rows with that name and that merchant ID. Row multiplicities are kept. |
| `Selection.MerchantDataConcat` | JI_macro_dashboard_streamlit.py:88-93 | The selection is order-preserving: selecting from two parts of the sheet and concatenating equals selecting from the whole. |
| `Selection.SpecificMidWithinAllMids` | JI_macro_dashboard_streamlit.py:88-93 | A single-ID selection is the subsequence of the "All MIDs" selection made of that ID's rows. |
| `Selection.AllMidsIsUnionOfIds` | JI_macro_dashboard_streamlit.py:88-93 | Each row of the chosen name appears in its own ID's selection as often as in the "All MIDs" selection, and in no other ID's selection. So "All MIDs" is the union of the per-ID selections, with nothing duplicated or omitted. |
| `Selection.NoMatchIsEmpty` | JI_macro_dashboard_streamlit.py:88-93 | A trading name that no row carries gives the empty selection, not an error. |
| `Selection.MerchantOptions` | JI_macro_dashboard_streamlit.py:37-40 | The merchant list holds each trading name of the sheet once, in order of first appearance in the sheet, so the first row's name comes first. |
| `Selection.MidOptions` | JI_macro_dashboard_streamlit.py:43-44 | The ID list starts with "All MIDs", followed by each merchant ID used under the chosen name, once each, in order of first appearance among that name's rows. |
| `Aggregation.SuperCardType` | JI_macro_dashboard_streamlit.py:72 | The Super_Card_Type column of every row follows the first-match rule of `classify_card_type` on that row's CARD_TYPE. |
| `Aggregation.TransactionType` | JI_macro_dashboard_streamlit.py:85 | The Transaction_Type column of every row is ON US exactly for "VC ON US" / "MC ON US", INTL exactly for the other labels containing "INT", and Other exactly for "JCB" and "CUP". |
| `Aggregation.SumWhere` | JI_macro_dashboard_streamlit.py:132-134 | The filtered sum `rows[rows[key] == k]['MTD_VOL'].sum()`, defined row by row: the volume of the rows whose key is `k`, 0 when there are none. It is the reference that `GroupSum`, `LookupGroupSum` and `CategoryJi` are stated against; it carries no contract of its own. |
| `Aggregation.SumWhereBounded` | JI_macro_dashboard_streamlit.py:132-134 | With non-negative volumes, the filtered sum of one key lies between 0 and the total volume of the rows. |
| `Aggregation.GroupSum` | JI_macro_dashboard_streamlit.py:95 | The keys of a grouped sum are exactly the key values present in the rows, with no duplicates. Each value is the volume of the rows with that key. Empty input gives the empty map. |
| `Aggregation.LookupGroupSum` | JI_macro_dashboard_streamlit.py:132-134 | Reading a grouped sum with default 0 gives the filtered sum `rows[rows[key] == k]['MTD_VOL'].sum()`, which is 0 for an absent key. |
| `Aggregation.SumWherePermutation` | JI_macro_dashboard_streamlit.py:95 | A per-key volume does not depend on the order of the rows. |
| `Aggregation.GroupSumPermutation` | JI_macro_dashboard_streamlit.py:95 | A grouped sum does not depend on the order of the rows. |
| `Aggregation.GroupSumTotal` | JI_macro_dashboard_streamlit.py:95 | The values of a grouped sum add up to the total volume of the rows. |
| `Aggregation.VolumeByNetwork` | JI_macro_dashboard_streamlit.py:95 | The bar chart has one entry per network present among the rows, holding that network's volume. |
| `Aggregation.PieRows` | JI_macro_dashboard_streamlit.py:108 | The pie chart's rows are the selected rows minus those whose CARD_TYPE is exactly "JCB" or "CUP". |
| `Aggregation.VolumeByRouting` | JI_macro_dashboard_streamlit.py:108-109 | The pie chart has one entry per routing category present among the rows other than exact JCB/CUP, holding that category's volume over those rows. |
| `Aggregation.VolumeByCardType` | JI_macro_dashboard_streamlit.py:175 | The summary table has one entry per raw card type present, holding that card type's volume. |
| `Aggregation.RoutingHasNoOtherSlice` | JI_macro_dashboard_streamlit.py:80-81 | The pie chart never has an Other slice: only the excluded labels are routed Other. |
| `Aggregation.RoutingIgnoresJcbCup` | JI_macro_dashboard_streamlit.py:108-109 | Inserting a "JCB" or "CUP" row anywhere leaves the pie chart unchanged. |
| `Aggregation.NetworkCountsJcbCup` | JI_macro_dashboard_streamlit.py:95 | The same row adds its volume to the JCB (or CUP) bar of the bar chart. |
| `Aggregation.PieKeepsJcbInternational` | JI_macro_dashboard_streamlit.py:108 | A "JCB INT" row is not excluded from the pie chart. It falls in the INTL slice while counting under JCB in the bar chart. |
| `Aggregation.TwoRowNetworkVolumes` | JI_macro_dashboard_streamlit.py:95 | Two rows of different networks give a bar chart with one bar per row. |
| `Aggregation.TwoRowRoutingVolumes` | JI_macro_dashboard_streamlit.py:108-109 | Two rows of different routings, both kept, give one pie slice per row, and every other category sums to 0. |
| `JiEstimator.ApplyRate` | JI_macro_dashboard_streamlit.py:132-134 | A rate in percent applied to a volume is 0 when the volume or the rate is 0, and is the whole volume at 100%. |
| `JiEstimator.ApplyRateAdditive` | JI_macro_dashboard_streamlit.py:132-134 | Applying a rate distributes over adding volumes. |
| `JiEstimator.CategoryJi` | JI_macro_dashboard_streamlit.py:132-134 | The JI of one routing category is 0 when its rate is 0 and when no selected row has that category. |
| `JiEstimator.CategoryJiAdditive` | JI_macro_dashboard_streamlit.py:132-134 | The JI of one category over two concatenated selections is the sum of its JI over each. |
| `JiEstimator.Annualise` | JI_macro_dashboard_streamlit.py:137 | Under the month box's bounds 1..12 the projection is defined. Projection × month = monthly total × 12. For month 12 it equals the monthly total. It is 0 exactly when the total is 0, has the total's sign, and is at least the total when the total is non-negative. |
| `JiEstimator.AnnualiseAdditive` | JI_macro_dashboard_streamlit.py:137 | Projecting two amounts separately and adding gives the projection of their sum. |
| `JiEstimator.CalculateJiAmounts` | JI_macro_dashboard_streamlit.py:129-137 | The monthly total is exactly ON US + OFF US + INTL. The yearly projection × month = total × 12, with no division by zero for months 1..12. For month 12 the projection is the monthly total. |
| `JiEstimator.JiMatchesRoutingSlices` | JI_macro_dashboard_streamlit.py:131-135 | Each JI component is the matching pie-chart slice (0 if absent) times its rate in percent. Computing JI on all selected rows and the pie chart on the JCB/CUP-less rows therefore agree. |
| `JiEstimator.RoutingSliceVolume` | JI_macro_dashboard_streamlit.py:131-135 | For ON US, OFF US and INTL, the pie-chart slice holds the whole volume of that category among the selected rows. |
| `JiEstimator.OtherRowsNotCounted` | JI_macro_dashboard_streamlit.py:131-135 | Removing the JCB/CUP rows does not change the volume of any category other than Other. |
| `JiEstimator.JiIgnoresOtherRows` | JI_macro_dashboard_streamlit.py:131-135 | A row routed Other, inserted anywhere, changes no JI amount. |
| `JiEstimator.JiAdditive` | JI_macro_dashboard_streamlit.py:131-137 | Every JI amount of two concatenated selections, including the projection, is the sum of the amounts of the parts. |
| `JiEstimator.JiOfZeroVolume` | JI_macro_dashboard_streamlit.py:131-137 | With zero volume, in particular with an empty selection, every JI amount and the projection are 0. |
| `JiEstimator.ExampleClassified` | JI_macro_dashboard_streamlit.py:59-83 | The worked example's rows "VC ON US" and "MC OFF US" are VC / ON US and MC / OFF US, and both are kept for the pie chart. |
| `JiEstimator.ExampleVolumes` | JI_macro_dashboard_streamlit.py:95-109 | Worked example, charts: VC 1000 and MC 500; ON US 1000 and OFF US 500. |
| `JiEstimator.ExampleRoutingSums` | JI_macro_dashboard_streamlit.py:132-134 | Worked example, filtered sums: ON US 1000 and OFF US 500. |
| `JiEstimator.ExampleJi` | JI_macro_dashboard_streamlit.py:129-137 | Worked example, month 1, rates 1% / 2% / 0%: JI is 10, 10 and 0, the monthly total is 20 and the yearly projection is 240. |

## Left out

- The Streamlit page itself is not modelled. That covers page setup, the session-state upload flag, expanders, columns, metrics and table display. These are presentation with no computed result. The month box's bounds 1..12 become the precondition `ValidMonth`.
- File loading (`pd.read_excel`) and the conversion of LAST_TRXN_DATE are not modelled. They are library I/O, and LAST_TRXN_DATE is never read by the computations, so `Record` has no date field. The model assumes the loader yields well-typed rows: every CARD_TYPE is text and every MTD_VOL a number. In the source, a blank or non-text CARD_TYPE reaches `classify_card_type` (:60, applied at :72) as a non-string value, and `'VC' in value` raises a TypeError that stops the page before any grouping; a blank MTD_VOL is a NaN that the sums skip. Neither case is modelled.
- The Plotly charts (`px.bar`, `px.pie`, `update_traces`, `update_layout`) are not modelled. They are rendering calls into a library; the model stops at the data they are given.
- `format_currency` and the `"${:,.2f}"` lambdas are not modelled. They format strings for display, and their rounding belongs to floating point.
- Binary floating point is not modelled. Volumes and rates are exact reals, so the model has no rounding drift in sums or in `volume * (rate / 100)`.
- The Super_Card_Type and Transaction_Type columns are not stored on the record. `Aggregation.SuperCardType` and `Aggregation.TransactionType` compute them from CARD_TYPE, which gives the same value per row as the column assignments at :72 and :85.
- The row order of pandas' grouped output (sorted by key) is not modelled. A grouped sum is a `map`, which has keys and values but no order. The charts and table only display that order.
- The sidebar offers only names and IDs present in the sheet. The model does not rely on this: any name or ID may be passed, and one that matches nothing selects no rows.
