# casinha_bot in Dafny

casinha_bot is a Telegram bot for a shared house with three residents: bruno,
joão and raissa. This project models its two cores and proves properties of
them.

- **The /gastei conversation.** A five-state dialog asks for an expense's
  type, value, description and buyer, shows the answers for confirmation and,
  on "Sim", submits them lower-cased to a form. "reset" or "Reset" abandons
  it from any state. "Não" abandons it only at the confirmation step; before
  that it is taken as an answer.
- **The /fechamento settlement.** It reads the expenses of two spreadsheets:
  one typed by hand, in "R$ 1.234,56" style, and one filled by the bot's
  form, with "1234,56" amounts and "dd/mm/yyyy hh:mm:ss" stamps. It keeps one
  month's expenses and computes the total, each resident's share under the
  fixed 36.42% / 36.42% / 27.16% split, what each paid, and each one's
  balance.

Modules:

- `Wrappers`: `Option` and `Result`.
- `Text`: digits, `str.lower`, `int()` and `float()` on text with the
  whitespace they skip, and the regex replacement of a literal pattern.
- `Format`: `facts_to_str`.
- `Dialog`. `Step` is what one text message does to one conversation; the
  handlers' filters are modelled as predicates on the text. `Run` folds `Step`
  over many messages. The class `ConversationHandler` holds every open
  conversation's state and every user's `user_data`, and updates them in place
  per message.
- `Normalize`: `process_manual_data`, `process_bot_data` and `get_data`, over
  rows whose cells are strings. The first cell that does not convert aborts
  the whole read with `MalformedAmount` or `MalformedDate`, as the unguarded
  pandas conversions raise.
- `Settlement`: `process_args`, `filter_target_month`, the four `calculate_*`
  functions and the computation of `fechamento_command`.
  - `CalculatePaymentsBreakdown` and `CalculateCostDivision` are methods, like
    the loop and the successive dictionary assignments in the source.
  - Each method is proved equal to a specification function, `PaidMap` or
    `CostDivision`.
  - `Settle` and the lemmas about it use those functions.

Money is modelled as follows:

- Amounts read from the sheets are exact reals.
- `round(x, 2)`, which the source applies to numpy sums and so is numpy's
  round, is modelled on the exact value. It gives integer
  cents, rounding half to even.
- Total, shares and balances are those rounded cents.
- Per-payer paid sums are not rounded, as in the source.

The clock (`date.today().year`) is the parameter `currentYear`.

Where the code and a plain reading of the bot's intended behaviour differ,
the model follows the code:

- `user_data` is never cleared, neither at /gastei nor at the end of a
  conversation.
- `^…$` patterns also accept the word followed by one final newline, as
  Python's `$` does.
- Manual payer names are not lower-cased. "Bruno" stays "Bruno", and its
  amounts count in no resident's payments (`SumSplitsByPayer`).
- The paid sums are not rounded.
- /gastei inside an open conversation is ignored, because re-entry is off.
- A malformed cell fails the whole report rather than skipping its row.

## Model

| member | source | states |
|---|---|---|
| Text.Lower | casinha_bot.py:126 | `str.lower` gives a string equal to its argument up to letter case, with no upper-case letter left |
| Text.LowerUnique | casinha_bot.py:126 | that contract fixes the result: the only string equal to s up to case with no upper-case letter is Lower(s) |
| Text.LowerIdempotent | casinha_bot.py:126 | lower-casing twice is lower-casing once |
| Text.ParseInt | casinha_bot.py:195-197 | Python's `int()` in base 10: surrounding whitespace (tab to carriage return, the space and the non-ASCII spaces `str.isspace()` accepts, but not the separators U+001C..U+001F), an optional sign and at least one digit, None where Python raises ValueError; IntRoundTrip, LeadingSpaceIgnored and LeadingSeparatorRejected are its partners |
| Text.IntRoundTrip | casinha_bot.py:195-197 | `int()` reads back the decimal spelling of every integer |
| Text.ParseFloat | casinha_bot.py:163 | Python's `float()` on plain decimal notation with the same surrounding whitespace as `int()`, None where Python raises ValueError; also used for the bot amounts at casinha_bot.py:179; CentsRoundTrip, LeadingSpaceIgnored and LeadingSeparatorRejected are its partners |
| Text.LeadingSpaceIgnored | casinha_bot.py:195-197 | a leading whitespace character that `int()` and `float()` skip, the no-break space and the other non-ASCII spaces among them, changes neither result (the same holds for the amounts at casinha_bot.py:163) |
| Text.LeadingSeparatorRejected | casinha_bot.py:195-197 | a leading U+001C..U+001F makes both `int()` and `float()` fail, as in Python, although `str.isspace()` counts it as whitespace (the same holds for the amounts at casinha_bot.py:163 and 179) |
| Text.CentsRoundTrip | casinha_bot.py:163 | `float()` reads "<reais>.<cc>" back as that many cents over 100 |
| Text.ReplaceAll | casinha_bot.py:160-165 | `re.sub` with a literal pattern: left to right, occurrences never overlap; ReplaceAllNoMatch, ReplaceAllAbsent, ReplaceAllLeading, ReplaceCharAt and ReplaceCharGone state its effect |
| Text.ReplaceAllNoMatch | casinha_bot.py:165 | a string in which the pattern does not occur comes back unchanged |
| Text.ReplaceCharAt | casinha_bot.py:162 | replacing one character by another keeps the length; exactly the occurrences change |
| Text.ReplaceCharGone | casinha_bot.py:161 | after replacing every ".", no "." is left |
| Format.FactsToStr | casinha_bot.py:33-36 | the listing opens and closes with a newline |
| Format.FactsToStrLines | casinha_bot.py:33-36 | split at newlines, the listing is an empty line, one "key: value" line per entry in order, and an empty line |
| Format.FactsToStrEmpty | casinha_bot.py:36 | an empty dictionary is listed as two newlines |
| Dialog.IsGastei | casinha_bot.py:275 | `CommandHandler("gastei")`: the text opens with the command gastei in any letter case; GasteiForms checks it on examples |
| Dialog.IsReset | casinha_bot.py:280 | `Filters.regex("^(r|R)eset$")`: "reset" or "Reset", optionally followed by one newline as Python's `$` allows; UpperResetIsData is its partner |
| Dialog.HandlerMatches | casinha_bot.py:277-306 | a state handler's filter: text that is neither a command nor a reset word, and in SEND_DATA only "Sim" |
| Dialog.FallbackMatches | casinha_bot.py:310 | the fallback's filter: a reset word or "Não"; Confirmation and NaoIsDataBeforeConfirmation state its effect |
| Dialog.RunHandler | casinha_bot.py:57-143 | the state's handler never removes an answer; in each of the first four states it stores the text under that state's own key (`Answer`), moves to the next state (`Next`) and leaves every other answer as it was; in SEND_DATA the answers are unchanged; it submits exactly in SEND_DATA with all four answers stored, submitting the data lower-cased and ending the conversation; in every other state it moves to a different, open state |
| Dialog.Step | casinha_bot.py:274-311 | a message submits exactly when the conversation is in SEND_DATA, the text is "Sim" and all four answers are stored; what it submits is the data lower-cased, and the conversation then ends; no stored answer is ever removed |
| Dialog.Lowered | casinha_bot.py:126-132 | each of the four form fields equals its stored answer up to letter case and holds no upper-case letter |
| Dialog.StartOnlyByGastei | casinha_bot.py:275 | with no conversation, exactly /gastei opens one, in WAIT_EXPENSE_TYPE, without touching user_data; other text changes nothing |
| Dialog.GasteiForms | casinha_bot.py:275 | "/gastei", "/Gastei" and "/gastei agora" start the dialog; "/gasteii" and "gastei" do not |
| Dialog.FourAnswers | casinha_bot.py:57-115 | four data messages store tipo, valor, descrição and comprador in turn and reach SEND_DATA, submitting nothing |
| Dialog.AnswersThenSim | casinha_bot.py:57-143 | from WAIT_EXPENSE_TYPE, four answers and "Sim" end the conversation having submitted one form, the answers lower-cased |
| Dialog.FullDialog | casinha_bot.py:274-311 | /gastei, four answers and "Sim" submit the answers lower-cased and leave no conversation |
| Dialog.DespesaScenario | casinha_bot.py:57-143 | "despesa", "50,00", "mercado", "Bruno", "Sim" submit despesa / 50,00 / mercado / bruno |
| Dialog.RunUploads | casinha_bot.py:274-311 | over any messages, there are at most as many submissions as messages, and every submitted form is lower-cased; Run is the fold of Step this is about |
| Dialog.RunAppend | casinha_bot.py:274-311 | handling two batches of messages in turn is handling their concatenation, submissions in order |
| Dialog.ResetAborts | casinha_bot.py:310 | "reset" or "Reset" ends the conversation from every state, storing and submitting nothing |
| Dialog.UpperResetIsData | casinha_bot.py:280 | "RESET" is an answer in WAIT_EXPENSE_TYPE and is ignored in SEND_DATA |
| Dialog.NaoIsDataBeforeConfirmation | casinha_bot.py:277-310 | before SEND_DATA, "Não" is taken by the state's handler as an answer and the conversation goes on |
| Dialog.Confirmation | casinha_bot.py:302-310 | in SEND_DATA: "Sim" submits and ends; "Não" or a reset word ends without submitting; any other text changes nothing |
| Dialog.CommandsIgnoredInConversation | casinha_bot.py:280 | inside a conversation, every command, /gastei included, changes nothing |
| Dialog.StepKeepsInv | casinha_bot.py:57-131 | every message preserves the invariant that each state's earlier answers are stored |
| Dialog.RunKeepsInv | casinha_bot.py:274-311 | any sequence of messages preserves that invariant |
| Dialog.SimAlwaysSubmits | casinha_bot.py:126-131 | after any messages from a fresh start, "Sim" in SEND_DATA submits, so upload_data never raises KeyError |
| Dialog.Entries | casinha_bot.py:111 | user_data's entries in dictionary order, tipo, valor, descrição, comprador; ConfirmationSummary is its partner |
| Dialog.ConfirmationSummary | casinha_bot.py:110-113 | the confirmation text lists, line by line, tipo, valor, descrição and comprador with their answers |
| Dialog.ConversationHandler.HandleMessage | casinha_bot.py:274-311 | the message's conversation moves to the state `Step` gives, or is removed when it ends; the user's data becomes `Step`'s; the invariant holds for every open conversation, including the user's other chats |
| Normalize.ManualAmount | casinha_bot.py:160-163 | the manual valor rewrites, then `float()`; ManualAmountRoundTrip, ManualThousandsExample and ManualAmountExample are its partners |
| Normalize.ManualAmountRoundTrip | casinha_bot.py:160-163 | every amount written "R$ 1.234,56"-style reads back as its value |
| Normalize.UngroupGrouped | casinha_bot.py:161 | removing the thousands dots gives back the digits |
| Normalize.ManualThousandsExample | casinha_bot.py:160-163 | "R$ 1.234,56" is 1234.56 |
| Normalize.ManualAmountExample | casinha_bot.py:160-163 | "R$ 100,00" is 100 |
| Normalize.BotAmount | casinha_bot.py:178-179 | the bot Valor rewrite, then `float()`; BotAmountRoundTrip, BotThousandsExample and BotAmountKeepsDots are its partners |
| Normalize.BotAmountRoundTrip | casinha_bot.py:178-179 | every amount written "1234,56"-style reads back as its value |
| Normalize.BotThousandsExample | casinha_bot.py:178-179 | "1234,56" is 1234.56 |
| Normalize.BotAmountExample | casinha_bot.py:178-179 | "50,00" is 50 |
| Normalize.BotAmountKeepsDots | casinha_bot.py:178-179 | a bot amount with a thousands dot, "1.234,56", is malformed |
| Normalize.ManualPayer | casinha_bot.py:165 | every "joao" becomes "joão"; ManualPayerExamples and ManualPayerKeepsOthers are its partners |
| Normalize.ManualPayerExamples | casinha_bot.py:165 | "joao" becomes "joão"; "Bruno" stays "Bruno"; "joão" stays "joão" |
| Normalize.ManualPayerKeepsOthers | casinha_bot.py:165 | a name in which "joao" does not occur is unchanged |
| Normalize.ParseDate | casinha_bot.py:164 | a parsed date is a real calendar date in the timestamp range |
| Normalize.DateRoundTrip | casinha_bot.py:164 | every valid date written dd/mm/yyyy reads back as itself |
| Normalize.ManualDateExample | casinha_bot.py:164 | "01/03/2024" is 1 March 2024 |
| Normalize.StripTimes | casinha_bot.py:176 | every " HH:MM:SS" is deleted; BotDateRoundTrip is its partner |
| Normalize.BotDate | casinha_bot.py:176-177 | the stamp with its times deleted, read as dd/mm/yyyy; BotDateRoundTrip and BotStampExample are its partners |
| Normalize.BotDateRoundTrip | casinha_bot.py:176-177 | a "dd/mm/yyyy hh:mm:ss" stamp reads as its date |
| Normalize.BotStampExample | casinha_bot.py:176-177 | "01/03/2024 10:00:00" is 1 March 2024 |
| Normalize.ParseColumn | casinha_bot.py:163-164 | a column converts when every cell does, cell by cell; otherwise the error names the first cell that does not |
| Normalize.ProcessManualData | casinha_bot.py:158-166 | one expense per row, with its converted amount, date and rewritten payer; success exactly when every amount and date converts; a bad amount is reported as an amount error, and when every amount converts a bad date is reported as a date error |
| Normalize.ManualSingleRow | casinha_bot.py:158-166 | a one-row sheet whose cells convert is that row's expense |
| Normalize.ProcessBotData | casinha_bot.py:169-180 | one expense per row, with the date of its stamp, its converted amount and its Responsável; success exactly when every stamp and amount converts; a bad stamp is reported as a date error, and when every stamp converts a bad amount is reported as an amount error |
| Normalize.BotSingleRow | casinha_bot.py:169-180 | a one-row sheet whose cells convert is that row's expense |
| Normalize.GetData | casinha_bot.py:183-191 | succeeds exactly when both sheets do, with the manual expenses followed by the bot's; a manual failure is reported as its own error, and when the manual sheet reads, a bot failure is reported as the bot sheet's error |
| Settlement.ProcessArgs | casinha_bot.py:194-200 | no argument is an error; the month is the first argument as an integer; the year is the second, or the current year when there is none; further arguments are ignored; a first argument that is not an integer is reported as NotAnInteger of it, and so is a second one when the first is an integer |
| Settlement.ProcessArgsRoundTrip | casinha_bot.py:194-200 | a month and a year written as numbers are read back, and a missing year is the current one |
| Settlement.ProcessArgsBadYear | casinha_bot.py:196-198 | a year that is not a number is an error, not the current year |
| Settlement.ProcessArgsMonthOnly | casinha_bot.py:194-199 | "3" alone in 2024 is March 2024 |
| Settlement.FilterTargetMonth | casinha_bot.py:203-206 | every kept expense is in the month; each expense of the month is kept as often as it occurs, and no other |
| Settlement.FilterConcat | casinha_bot.py:203-206 | filtering distributes over concatenation, so order is kept |
| Settlement.RoundCents | casinha_bot.py:210 | `round(x, 2)` in cents: within half a cent of the exact value; the same rounding is used at casinha_bot.py:229-231 and 238 |
| Settlement.RoundHalfEven | casinha_bot.py:210 | `round` lands within one half of its argument and, on a tie, on the even integer |
| Settlement.CalculateTotalExpenses | casinha_bot.py:209-211 | the total in cents is within half a cent of the exact sum |
| Settlement.Sum | casinha_bot.py:210 | the exact sum of the amounts; SumConcat and SumSplitsByPayer are its partners |
| Settlement.SumConcat | casinha_bot.py:210 | the sum of a concatenation is the sum of the sums |
| Settlement.PaidBy | casinha_bot.py:215 | the exact sum of one payer's amounts; GroupByPayer, PaidByNobody and SumSplitsByPayer are its partners |
| Settlement.GroupByPayer | casinha_bot.py:215 | one group per payer that occurs, holding that payer's sum |
| Settlement.PaidByNobody | casinha_bot.py:219-222 | a payer with no expense paid 0, which the KeyError default supplies |
| Settlement.PaidMap | casinha_bot.py:217-224 | the payments are keyed by exactly the three residents |
| Settlement.CalculatePaymentsBreakdown | casinha_bot.py:214-224 | each of the three residents maps to the sum of their amounts, 0 when they paid nothing, and no one else appears |
| Settlement.SumSplitsByPayer | casinha_bot.py:214-224 | the exact sum is what the three residents paid plus what other names paid |
| Settlement.Share | casinha_bot.py:229-231 | a share is within half a cent of total × ratio |
| Settlement.CostDivision | casinha_bot.py:227-233 | the division is keyed by exactly the three residents |
| Settlement.CalculateCostDivision | casinha_bot.py:227-233 | bruno and joão get 36.42% and raissa 27.16% of the total, each rounded on its own |
| Settlement.ShareDrift | casinha_bot.py:227-233 | the three shares add up to the total give or take one cent |
| Settlement.ShareDriftHappens | casinha_bot.py:227-233 | the drift is not corrected: a total of one cent splits into three zero shares |
| Settlement.CalculateFinalBalance | casinha_bot.py:236-241 | one balance per key of the division, within half a cent of share minus paid |
| Settlement.BalanceExact | casinha_bot.py:238 | when the payment is whole cents, the balance is exactly share minus paid |
| Settlement.Settle | casinha_bot.py:256-262 | share, payment and balance are all keyed by exactly the three residents |
| Settlement.EmptyMonth | casinha_bot.py:256-262 | a month with no expenses gives total 0 and, for every resident, share, paid and balance 0 |
| Settlement.SettleExample | casinha_bot.py:256-262 | 100,00 paid by bruno and 50,00 by raissa in March 2024 give total 150,00, shares 54,63 / 54,63 / 40,74, and balances -45,37 / 54,63 / -9,26 |
| Settlement.Fechamento | casinha_bot.py:256-262 | a sheet error is reported as BadData of it; when the sheets read, an argument error is reported as BadArgs of it; otherwise the report is the settlement of the read expenses for the given month |
| Settlement.FechamentoFromRows | casinha_bot.py:256-262 | a one-row manual sheet with 100,00 paid by bruno and a one-row bot sheet with 50,00 from raissa, both on 01/03/2024, under "/fechamento 3" in 2024 give the report of SettleExample |

## Left out

- Telegram itself is not modelled: polling, replies, keyboards, logging, and
  `context.bot.send_message`. Only the state transitions and the data the
  handlers store or submit are modelled.
- The network is not modelled. `requests.post` is not modelled: submission is
  the form value `Step` returns, and whether the post succeeds changes
  nothing in the state. A raised exception during the post is not modelled.
  `pd.read_csv` of the two sheet URLs is not modelled: `GetData` takes the
  sheets' rows as parameters.
- `create_fechamento_message` (the report's text) is not modelled. It only
  formats the report through `facts_to_str`, which is modelled. How Python
  prints the floats is not modelled either.
- `date.today()` is not modelled; it is the parameter `currentYear`.
- Settlement.RoundHalfEven: it rounds the exact decimal value, not the
  binary float that numpy's round sees. A sheet amount "1,015" is the float
  just below 1.015, so numpy's `round(x, 2)`, which rounds x·100 to the
  nearest integer and divides by 100, gives 1.01; the model gives 102
  cents. Float sums that are not exact are not modelled either.
- Text.ParseFloat: it accepts plain decimal notation only. Exponents, "inf",
  "nan", digit-group underscores and non-ASCII digits, which Python's
  `float()` accepts, are rejected.
- Text.ParseInt: digit-group underscores and non-ASCII digits, which
  Python's `int()` accepts, are rejected.
- Text.Lower: only ASCII and Latin-1 upper-case letters are lower-cased.
- Normalize.ParseDate: a date outside pandas' nanosecond timestamps, before
  1677-09-22 or after 2262-04-11, is reported as `MalformedDate`. pandas
  raises a different exception, OutOfBoundsDatetime, for it.
- Commands addressed as "/gastei@botname" are not modelled. Nor are
  non-text messages, edited messages, or the conversation time-outs the
  framework offers but the bot does not set.
- The cells are strings. A sheet cell that pandas reads as a number or as NaN
  is not modelled, and neither is a missing column.
- `process_bot_data` modifies the caller's frame in place. The model works on
  values, so that aliasing is not modelled.
- Several conversations are not modelled as interleaving. The class handles
  one update at a time, as the dispatcher does.
- Idempotence of `Settle` is not stated as a lemma: `Settle` is a Dafny
  function, so equal inputs give equal outputs by construction.
