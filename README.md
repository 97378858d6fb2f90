# Childhood chronic malnutrition screens, modelled in Dafny

The repository holds three small Streamlit pages that screen a child under
five for chronic malnutrition (*desnutrición crónica infantil*, DCI). This
project models the decision logic behind them.

- `app.py`, modelled in `growth_bands.dfy` (module `GrowthBands`) and `chatbot.dfy` (module `Chatbot`):
  - a table of normal height bands at 12, 24, 36, 48 and 60 months;
  - `clasificar_nino`, which places a height below, above or inside the band for its age;
  - `generar_recomendaciones`, which picks a feeding guide by looking for key phrases in the classifier's message;
  - the reference series of the comparison chart;
  - a keyword-driven simulated chatbot that appends each exchange to the session's chat history.
- `proyecto.py`, modelled in `dci.dfy` (module `Dci`):
  - a linear expected-height rule (`classify_dci`, first definition);
  - an illustrative WHO-style reference table for 0 to 60 months (`get_who_data`);
  - a Z-score rule over that table (`classify_dci`, second definition);
  - the three Z-band columns the chart adds to the table in place.
- `streamlit_app.py`, modelled in `bmi_screen.dfy` (module `BmiScreen`): a body-mass-index proxy that flags an index below 14.

Shared pieces:
- `series.dfy` (module `Series`): NumPy's `arange` for positive steps.
- `text.dfy` (module `Text`): Python's substring test `key in s`, with lemmas for deciding it on concrete texts.
- `wrappers.dfy` (module `Wrappers`): `Option` and `Result`.

Parts that are pure computation are functions and lemmas. Two parts mutate state in place, so each is a class:
- the session's chat history, `Chatbot.ChatSession`;
- the pandas frame `who_df`, which the script rebuilds on every run and which gains three columns, `Dci.WhoFrame`.

Heights, weights and indices are `real`. Ages are `int`.

Some things the code does that a reader may not expect:

- `app.py:93` passes the weight and the age to `generar_recomendaciones` in swapped positions. That function ignores both, so the guide is unaffected. `GrowthBands.Analizar` makes the call in the swapped order and proves the guide is still the one the status calls for.
- `proyecto.py` defines `classify_dci` twice. The analysis at line 132 runs before the second definition (line 161) is executed, so the page always uses the linear rule. The Z-score call at line 185 is commented out. `Dci.RulesDisagree` shows that this choice is visible to users. At 24 months and 90 cm, the linear rule reports a risk and the Z-score rule does not. At 1 month and 48 cm, the results are reversed.
- The linear rule's expected height falls from 109.9 cm at 24 months to 90.7 cm at 25 months (`Dci.ExpectedHeightShape`). A child can therefore be at risk at 24 months and normal one month later at the same height.
- The reference tables are illustrative rather than real WHO data. The model follows the literals in the code.

The long message literals in `growth_bands.dfy` and `chatbot.dfy` are written as concatenations of shorter pieces, sometimes split inside a word. The text is character for character the source's. The pieces only let the verifier decide which key phrases each message contains.

## Model

| member | source | states |
|---|---|---|
| `GrowthBands.TallasReferencia` | app.py:34-41 | The band table has exactly the ages 12, 24, 36, 48 and 60. Every band has min < max. |
| `GrowthBands.ClasificarNino` | app.py:27-53 | An age outside the table gives the out-of-range message and no status. Otherwise the status is "bajo" iff the height is below the band minimum, "alto" iff it is above the maximum, and "normal" iff it lies in the band, edges included. The message always matches the status. |
| `GrowthBands.MessageFor` | app.py:44-53 | The message literal paired with each status; what the messages contain is stated by `GrowthBands.MessageKeys` and the pairing by `GrowthBands.ClasificarNino`. |
| `GrowthBands.MessageKeys` | app.py:43-53 | Of the four classifier messages, only the "bajo" one contains "desnutrición crónica" and only the "normal" one contains "crecimiento normal" (both directions). |
| `GrowthBands.GenerarRecomendaciones` | app.py:55-79 | The result is always one of the three guide texts; which guide each classifier message receives is stated by `GrowthBands.RecommendationFollowsStatus`. |
| `GrowthBands.RecommendationFollowsStatus` | app.py:55-79 | Given any classifier message, the recommendation dispatch returns the micronutrient guide for "bajo", the healthy-growth guide for "normal", and the general guide for "alto" and out-of-range, whatever measurements are passed. |
| `GrowthBands.Analizar` | app.py:90-94 | The handler stores the classification of (age, height). It also stores the guide the status calls for, despite the swapped arguments at line 93. Finally it stores the child's data with that status. |
| `GrowthBands.Midpoints` | app.py:116 | The element-wise mean of two equal-length series has their length and lies halfway between them at every point. |
| `GrowthBands.EdadRef` | app.py:113 | `np.arange(12, 61, 12)`; its value [12, 24, 36, 48, 60] is stated by `GrowthBands.ChartMatchesTable`. |
| `GrowthBands.TallaMinRef` | app.py:114 | The lower band literal; `GrowthBands.ChartMatchesTable` states it agrees with the table's minima. |
| `GrowthBands.TallaMaxRef` | app.py:115 | The upper band literal; `GrowthBands.ChartMatchesTable` states it agrees with the table's maxima. |
| `GrowthBands.TallaMediaRef` | app.py:116 | The midpoint series; `GrowthBands.ChartMatchesTable` states it lies strictly inside every band. |
| `GrowthBands.ChartMatchesTable` | app.py:113-116 | The chart's ages are `arange(12, 61, 12)` = [12, 24, 36, 48, 60], exactly the table's keys. At each age the chart's band is the table's band, and the midpoint lies strictly inside it. |
| `Series.Arange` | app.py:113 | `arange(start, stop, step)` with a positive step: element i is start + i·step, every element is below stop, and one more step would reach stop. |
| `Series.ArangeLength` | proyecto.py:145 | The number of elements is the number of steps that fit below stop (61 for `arange(0, 61)`). |
| `Chatbot.Reply` | app.py:158-165 | The answer to a lower-cased prompt is the first-matching rule's answer from the ordered keyword rules, or the fallback when no rule matches. |
| `Chatbot.RulesMatch` | app.py:158-163 | The three keyword rules, in order: "desnutrición crónica"; "alimentación" or "dieta"; "qué hacer" or "recomiendas". Each has its answer. |
| `Chatbot.FirstMatch` | app.py:158-165 | With no matching rule the result is the fallback. When rule k matches and no earlier rule does, the result is rule k's answer. |
| `Chatbot.TurnKeepsAlternating` | app.py:150-168 | Appending a user entry and then an assistant entry keeps the history alternating user/assistant from the start. |
| `Chatbot.Submitted` | app.py:148 | Python truthiness of the chat input: a prompt counts iff it is present and non-empty; its effect is stated by `Chatbot.ChatSession.Submit`. |
| `Chatbot.ChatSession.constructor` | app.py:139-140 | The history starts empty. |
| `Chatbot.ChatSession.Submit` | app.py:148-168 | A non-empty prompt appends the user's prompt as typed, then the answer to the lower-cased prompt, and returns that answer. No prompt, or an empty one, leaves the history unchanged. The history stays alternating. |
| `Dci.ClassifyLinear` | proyecto.py:19-39 | The result is "at risk" iff the height is strictly below 90 % of the expected height. The threshold itself is normal. |
| `Dci.ExpectedHeight` | proyecto.py:30-33 | For ages 0 to 60 (the slider offers 1 to 60) the expected height lies between 49.9 and 115.2 cm; its shape is stated by `Dci.ExpectedHeightShape`. |
| `Dci.StatusText` | proyecto.py:37-39 | The shown text is "Riesgo de Desnutrición Crónica" exactly for the risk status, which is the test the page makes at line 134. |
| `Dci.ExpectedHeightShape` | proyecto.py:30-33 | The expected height never decreases within 0–24 months or within 25 months and up. It drops from 109.9 cm at 24 months to 90.7 cm at 25. |
| `Dci.LinearMonotoneInHeight` | proyecto.py:36-39 | At a fixed age, anyone shorter than an at-risk child is at risk, and anyone taller than a normal child is normal. |
| `Dci.GetWhoData` | proyecto.py:143-159 | The table has 61 rows with ages 0 to 60 in order. Every standard deviation is positive. The medians strictly increase with age. |
| `Dci.WhoColumnsShape` | proyecto.py:146-157 | The median and standard-deviation literals have 61 entries each, positive deviations and increasing medians. |
| `Dci.FindRow` | proyecto.py:165 | The lookup fails iff the age is absent. Otherwise it returns the first row index with that age. |
| `Dci.ClassifyZScore` | proyecto.py:161-174 | An age with no row fails with a no-reference-data error. Otherwise the result is "at risk" iff (height − median)/sd < −2 for that age's row, so z = −2 is normal. |
| `Dci.BelowTwoDeviations` | proyecto.py:169-171 | For a positive sd, z < −2 iff the height is below median − 2·sd. |
| `Dci.ZScoreOnAgeKeyedTable` | proyecto.py:161-174 | On a table whose row i has age i, the lookup succeeds iff the age is a row number. The rule then flags exactly the heights below that row's "Z-score -2" value. |
| `Dci.ZScoreOnWhoData` | proyecto.py:161-174 | On the page's table, exactly the ages 0 to 60 have a row. For those ages the rule flags exactly the heights below the "Z-score -2" value. |
| `Dci.ZPlus2` | proyecto.py:191 | The "Z-score +2" column has one value per row; its values are stated by `Dci.ZBandsOrdered`. |
| `Dci.ZMinus2` | proyecto.py:193 | The "Z-score -2" column has one value per row; its values are stated by `Dci.ZBandsOrdered`. |
| `Dci.ZBandsOrdered` | proyecto.py:191-193 | Where the deviation is positive, the "Z-score -2" value is below the median, which is below the "Z-score +2" value. Each is two deviations from the median. |
| `Dci.WhoFrame.FromWhoData` | proyecto.py:159 | The frame holds the table's ages, medians and deviations. |
| `Dci.WhoFrame.AddZScoreColumns` | proyecto.py:191-193 | In place, the frame gains the columns "Z-score +2", "Z-score 0" and "Z-score -2", computed from the median and the deviation. The ages and every other column are unchanged, and every column keeps one value per row. |
| `Dci.ChartColumns` | proyecto.py:177-193 | After the chart step on the page's table, the three new columns have 61 values each and are strictly ordered at every age. The Z-score rule flags exactly the heights below the "Z-score -2" column. |
| `Dci.Analyze` | proyecto.py:128-137 | The status shown is the linear rule's. The error box appears iff the status is "at risk". |
| `Dci.RulesDisagree` | proyecto.py:132 | At 24 months and 90 cm, the shown (linear) status is "at risk" while the Z-score rule says normal. At 1 month and 48 cm, the shown status is normal while the Z-score rule says "at risk". |
| `Dci.WhoRows1And24` | proyecto.py:147-153 | The "Z-score -2" values of the page's table are 50.5 cm at 1 month and 81.8 cm at 24 months. |
| `BmiScreen.MetresSquared` | streamlit_app.py:33 | The square of a positive height in metres is positive, so the index is always defined. |
| `BmiScreen.Imc` | streamlit_app.py:33 | The index times the squared height in metres gives back the weight. A positive weight gives a positive index. |
| `BmiScreen.Assess` | streamlit_app.py:31-39 | Missing data iff not all of age, weight and height are positive. Otherwise the outcome carries the positive index. It is malnourished iff the index is below 14, and not malnourished iff the index is 14 or more. |
| `BmiScreen.MalnourishedIffUnderweight` | streamlit_app.py:33-34 | With complete data, the child is flagged iff the weight is below 14 times the squared height in metres. |
| `BmiScreen.LighterStaysFlagged` | streamlit_app.py:33-35 | At the same height, a lighter child is flagged whenever a heavier one is. |
| `BmiScreen.Analyze` | streamlit_app.py:30-39 | The outcome is `Assess` of the measurements. The box is error, success or warning according to the outcome. The text carries the name and the formatted index, or the missing-data warning. |
| `BmiScreen.NameOnlyAffectsText` | streamlit_app.py:17-37 | Two children with different names and the same measurements get the same outcome and the same box. |
| `BmiScreen.EightKilosAtSixtyFive` | streamlit_app.py:33-37 | 8 kg at 65 cm (index about 18.93) is not malnourished. |

## Left out

- The Streamlit page itself is not modelled: widgets, layout, containers, headers, the image and the "Guardar datos" echo. These are UI. The widget value bounds (for example `min_value=1`) are not assumed: every classifier is total over the child's measurements.
- Streamlit's rerun mechanics are not modelled. Of `st.session_state`, only the chat history is modelled, as `Chatbot.ChatSession`. The stored analysis is modelled as the value `GrowthBands.Analizar` returns.
- `get_recommendations_from_openai` (proyecto.py:41-82) is not modelled. It is an HTTP call to an external service.
- `load_dotenv` and the API-key input (proyecto.py:2-3, 92-94) are not modelled. They are environment and I/O.
- Dci.Analyze: takes a non-empty API key as given. In proyecto.py the classification (line 132), the reference table and the chart step (lines 191-193) all sit inside the `else` branch of `if not openai_api_key` (lines 93-95), so with no key the page classifies nothing.
- Chart rendering with matplotlib and Plotly (app.py:119-130, proyecto.py:196-221) is not modelled. It is library calls; only the series these calls receive are modelled.
- IEEE floating point is not modelled; values are exact reals. Facts about exact boundaries (z = −2, an index of exactly 14, a height equal to a band edge) hold over reals and may not hold bit for bit in Python.
- Python's `str.lower()` is not modelled. `Chatbot.ChatSession.Submit` takes it as a parameter `lower`, and `Chatbot.Reply` is stated over the lower-cased text.
- The `{imc:.2f}` formatting is not modelled. `BmiScreen.Analyze` takes it as a parameter `twoDecimals`.
- Series.Arange: only positive steps are modelled. The only calls are `arange(12, 61, 12)` and `arange(0, 61)`.
- Dci.ClassifyZScore: requires a positive standard deviation in every row. With a zero deviation, Python would divide by zero and return inf or nan. The table at proyecto.py:152-157 has no such row (`Dci.GetWhoData`).
- Dci.ClassifyZScore: the error result stands for pandas raising `IndexError` from `.iloc[0]` on an empty selection. An exception is not modelled.
- GrowthBands.Midpoints, Dci.ZPlus2, Dci.ZMinus2: require series of equal length, as NumPy and pandas broadcasting does here. Broadcasting of unequal shapes is not modelled.
- GrowthBands.GenerarRecomendaciones: its measurement parameters are taken as reals, since Python accepts any value there and ignores them. The properties are stated in `GrowthBands.RecommendationFollowsStatus`.
