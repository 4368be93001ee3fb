# Pump monitor: verified model of the analyser and the ticker intake

This project models the two pieces of the Telegram pump monitor that hold its
behaviour, and proves properties of them in Dafny 4.11.

- **The pump-score heuristic** (`analyze_symbol`). The input is the candle
  window and the order-book snapshot the exchange returned. The function
  computes four indicators:
  - the last volume over the mean of the earlier ones;
  - the relative change from the first close to the last one;
  - the summed quantity of the first ten bid levels and of the first ten ask levels;
  - the order-book imbalance `(bid - ask) / (bid + ask)`.

  Three fixed rules then fire on these: the volume ratio above 2 adds 0.4,
  the price change above 1% adds 0.3, and the imbalance above 0.2 adds 0.3.
  The score is capped at 1.0. Each rule that fires appends one explanation,
  in the order volume, price, order book.
- **The chat front end** (`bot.py`). `/start` adds the chat to the set of
  chats waiting for a ticker. For a waiting chat, the text is stripped. It is
  refused when nothing is left, and refused when it is not all upper case.
  Otherwise it is normalised to a symbol ending in `USDT` and the chat leaves
  the waiting set. The analysis then runs on that symbol, and the report comes
  back as a header, the score as a percentage `int(score * 100)`, a blank
  line and one bullet per explanation.

Files and modules:

- `numerics.dfy`, module `Numerics`: `Option`, sums and means of sequences,
  float64 division with its infinities and NaN, and Python's truncating `int()`.
- `pump_analyzer.dfy`, module `PumpAnalyzer`: the indicators, the rules, the
  function `Analysis` and the step-by-step method `AnalyzeSymbol`.
- `text.dfy`, module `Text`: `strip()`, `upper()`, `endswith` and
  command extraction.
- `bot.dfy`, module `Bot`: ticker intake and symbol normalisation, the
  report lines, and the class `TickerBot` whose field `waiting` is the
  `WAITING_FOR_TICKER` set.

How numbers and failures are modelled:

- Numbers are `real`. Rounding is not modelled.
- Where numpy divides by zero it does not raise. It returns an infinity or
  NaN, modelled by the datatype `Ext`. A rule comparing against a threshold
  uses IEEE comparison, so NaN never fires a rule.
- Where plain Python would raise, the model returns `Err`. The cases are a
  failed fetch, an empty candle list, a zero first close, and an empty side of
  the book. The bot turns `Err` into its error message.
- The network is a parameter. The bot method receives `exchange: string -> Market`,
  which says what the exchange answers for a symbol. `None` marks a fetch that
  raised.

Two observations about the code:

- Bybit's v5 kline endpoint lists candles newest first. So `volumes[-1]` and
  `closes[-1]` pick the oldest candle. The model takes the window in the order
  given and does not fix this.
- Over exact arithmetic the weights add up to at most 1.0, so the cap
  `min(score, 1.0)` never changes the score (`ScoreIsWeightOfExplanations`).
  In float64, too, 0.4 + 0.3 + 0.3 is exactly 1.0, so the cap never changes
  the score in the program either.

## Model

| member | source | states |
|---|---|---|
| PumpAnalyzer.AnalyzeSymbol | pump_analyzer.py:27-84 | The method computes the indicators, raises the score rule by rule, appends the explanations and caps the score. Its result equals the function `Analysis` on every input, for both the error results and the report. |
| PumpAnalyzer.Analysis | pump_analyzer.py:29-50 | Analysis succeeds exactly when the klines were fetched and non-empty, the first close is non-zero, and the book was fetched with both sides non-empty. A successful report has a score in [0, 1] and at most three explanations. |
| PumpAnalyzer.CandleErrorsFirst | pump_analyzer.py:29-43 | A kline failure (fetch, empty list, zero first close) is the error reported, whatever the order book is, because the candles are read before the book is fetched. |
| PumpAnalyzer.VolumeRatio | pump_analyzer.py:34-36 | When the earlier candles exist and their volumes sum to a positive total, ratio × total = last volume × their count. Otherwise the ratio is 0. This covers the single candle, whose mean is NaN. |
| PumpAnalyzer.VolumeRatioNonNegative | pump_analyzer.py:34-36 | With non-negative volumes the volume ratio is non-negative. |
| PumpAnalyzer.VolumeRatioMonotone | pump_analyzer.py:34-36 | Raising the last volume, with the earlier ones fixed, never lowers the ratio. |
| PumpAnalyzer.PriceChange | pump_analyzer.py:39 | For a non-empty close list with a non-zero first close, change × first = last − first. |
| PumpAnalyzer.PriceRuleMeaning | pump_analyzer.py:39-63 | For a positive first close, the price rule fires exactly when the last close exceeds the first by more than 1%. |
| PumpAnalyzer.TopLiquidityIgnoresDeepLevels | pump_analyzer.py:48-49 | Levels after the tenth never change a side's liquidity. |
| PumpAnalyzer.TopLiquidity | pump_analyzer.py:48-49 | With non-negative quantities, a side's liquidity is non-negative. |
| PumpAnalyzer.Imbalance | pump_analyzer.py:50 | With non-zero total liquidity the imbalance is finite and imbalance × total = bid − ask. With zero total it is +inf when the bid side is larger, −inf when the ask side is larger, and NaN when both are zero. |
| PumpAnalyzer.ImbalanceRange | pump_analyzer.py:50 | With non-negative sides and positive total liquidity, the imbalance is finite and in [−1, 1]. It is positive exactly when the bid side exceeds the ask side. |
| PumpAnalyzer.ImbalanceOfEmptyLiquidity | pump_analyzer.py:50-68 | With both sides at zero liquidity the imbalance is NaN, and the order-book rule does not fire. |
| PumpAnalyzer.Explanations | pump_analyzer.py:55-70 | There is one explanation per fired rule. Each rule's explanation is present exactly when its rule fires. The entries are in the order volume, price, order book. The list is empty exactly when no rule fires. |
| PumpAnalyzer.PumpScore | pump_analyzer.py:54-73 | The score lies in [0, 1]. It is 0 exactly when no rule fires. |
| PumpAnalyzer.ScoreIsWeightOfExplanations | pump_analyzer.py:54-73 | The score equals the summed weights of the explanations listed beside it, and that sum never exceeds the cap. |
| PumpAnalyzer.ExampleVolumeSpikeWithBidWall | pump_analyzer.py:27-84 | Example: four candles of volume 10, then one of 50, flat price, 80 bid against 20 ask. This gives ratio 5, change 0, imbalance 0.6, explanations [volume, order book] and score 0.7. |
| Numerics.Min | pump_analyzer.py:73 | `min(score, 1.0)` is one of its two arguments and is no larger than either. |
| Numerics.Mean | pump_analyzer.py:35 | The mean is undefined (NaN) exactly for the empty list. Otherwise mean × count = sum. |
| Numerics.Divide | pump_analyzer.py:50 | A float64 quotient is finite exactly for a non-zero divisor, and then quotient × divisor = dividend. Division by zero gives +inf for a positive dividend, −inf for a negative one, and NaN for zero. |
| Numerics.Truncate | bot.py:58 | `int()` truncates toward zero. For x ≥ 0 the result r satisfies 0 ≤ r ≤ x < r + 1. For x < 0 it satisfies r − 1 < x ≤ r ≤ 0. |
| Text.Strip | bot.py:26 | The stripped text is empty exactly when the text is all whitespace. Otherwise it starts and ends with a non-space character. |
| Text.StripDropsOnlySpace | bot.py:26 | The stripped text is the contiguous slice of the text that starts after its leading whitespace, and every character outside that slice is whitespace. |
| Text.StripIdempotent | bot.py:26 | Stripping twice equals stripping once. |
| Text.Upper | bot.py:34 | The upper-case form has the same length and maps each character through the letter case mapping. |
| Text.UpperIsUpper | bot.py:34 | An upper-cased text passes the upper-case test. |
| Text.Command | bot.py:15 | A text has a command exactly when it starts with `/`. The command is what follows the `/` up to the first whitespace, the first `@` or the end of the text, whichever comes first. |
| Bot.Normalize | bot.py:39 | The symbol ends with `USDT` and has the text as a prefix. It is the text unchanged when the text already ends with `USDT`, and otherwise exactly four characters longer. |
| Bot.NormalizeIdempotent | bot.py:39 | Normalising a symbol twice equals normalising it once. |
| Bot.NormalizeKeepsUpper | bot.py:34-39 | Normalising an upper-case text gives an upper-case symbol. |
| Bot.ReadTicker | bot.py:26-39 | A text that is all whitespace is refused as empty. A text whose stripped form is not upper case is refused as not upper case. Any other text yields the stripped text itself when it already ends with `USDT`, and the stripped text followed by `USDT` otherwise; that symbol is upper case. |
| Bot.ScorePercent | bot.py:58 | For a score in [0, 1] the percentage is in [0, 100]. For a non-negative score it is the whole part of score × 100. |
| Bot.ReportPercentInRange | bot.py:58 | Every successful analysis shows a percentage between 0 and 100. |
| Bot.RenderReport | bot.py:58-67 | The report lines are the header with the symbol, the percentage, a blank line, and then exactly one bullet per explanation, in order. |
| Bot.TickerBot.constructor | bot.py:5 | The waiting set starts empty. |
| Bot.TickerBot.Start | bot.py:16-20 | `/start` sends the welcome and the ticker prompt, and adds the chat to the waiting set. |
| Bot.TickerBot.HandleTicker | bot.py:24-70 | An empty or non-upper-case text sends one refusal and leaves the waiting set unchanged. A valid ticker removes exactly that chat from the set. It then sends the symbol, followed by the report of the analysis of that symbol, or by the analysis error. |
| Bot.TickerBot.OnMessage | bot.py:15-75 | Routing follows registration order. `/start` always goes to the start handler. A waiting chat's other text goes to the ticker handler. Everyone else gets the `/start` hint, and the waiting set is unchanged. |

## Left out

- The HTTP helpers `_get_klines` and `_get_orderbook` are network I/O. Their results are the `Market` parameter, with `None` for a request that raised.
- The second, random `analyze_symbol` (pump_analyzer.py:89-97) is a placeholder that returns a random score in [0.2, 0.9] with three fixed explanations. It follows the real definition (pump_analyzer.py:27-84) in the same file, after a stray code-fence line at pump_analyzer.py:85. Read as one module, that later `def` would be the name `from pump_analyzer import analyze_symbol` (bot.py:2) binds. The model deliberately connects `HandleTicker` to the first, real definition, and the random stub is not modelled.
- Floating point is not modelled. Numbers are exact reals, so the rounding of sums, quotients and `score * 100` is not captured. The `.2f` formatting in the explanation texts is also left out: an explanation is a tag carrying its number.
- numpy itself is not modelled. Means and slice sums are sequence functions.
- Parsing of the exchange's strings with `float()` is not modelled. Candles and levels arrive as numbers.
- Text.UpperChar: every character other than a–z and U+0430–U+045F is left unchanged, so texts Python would upper-case (é, ñ, ÿ, µ, Greek letters, ß → SS) are accepted by the model and refused by the program.
- Text.Command follows the command extraction of the Telegram library as an assumption, because the library is not part of this model. It also ignores whether the message is a text message at all.
- Bot.TickerBot.OnMessage: messages are modelled one at a time. Each message is routed against the waiting set that the previous handler left. telebot's default threaded dispatch (loader.py:13 keeps `threaded=True`) is not captured. In it, the filter at bot.py:23 can be tested for a whole batch of updates before earlier handlers in that batch have run. So two tickers in one batch can both be analysed, and a ticker sent right after `/start` in the same batch can reach the fallback.
- Sending messages is modelled as the returned `Reply` list. Telegram messaging itself, the message text and Markdown, the handler decorators, polling and loader.py (token and configuration loading) are left out.
- The exception-to-message path at bot.py:46-50 is kept only as the `AnalysisFailed` reply for the errors the analysis can raise. Other exceptions are not modelled.
- The check for `"pump_score"` at bot.py:53-55 is not modelled. It cannot fail for the real analysis, which always returns a score.
