# Recurring-payment reminders for Paid Memberships Pro, in Dafny

This project models the reminder batch of the pmpro-recurring-emails plugin and
proves what one run of it guarantees.

The batch, `pmpror_recurring_emails`, runs once a day from the plugin's cron hook.
It does the following:

- It reads the configured reminder tiers (days before renewal => email template)
  and sorts them by day count.
- For each tier, it selects the active recurring members with an order dated so
  that their next payment falls within that many days, skipping those whose
  notice for the tier is still fresh.
- It mails each member at most once per run.
- After every selected row, it rewrites that member's notice dates for the tier
  and every larger tier.

The companion filter `pmprore_add_to_templates` registers one editable template
per configured template id with the email-templates add-on; tiers that share a
template id share one entry.

## Modules

- `Common`: shared definitions.
  - `Option`.
  - `Mixed`, a PHP value as a filter may return it.
  - PHP `empty()` on a string.
  - Day arithmetic on integer timestamps: a day number is `timestamp / 86400`, and
    "today" is the day of the run's clock reading.
  - `Calendar`, which holds the calendar functions the model leaves uninterpreted.
- `Tiers`: the tier configuration and `ksort`.
- `Notices`: the notice ledger and the update loop.
  - The ledger is the user meta `pmpro_recurring_notice_<days>`, as a map from
    (user, tier days) to a day number.
  - `MarkNotices` defines the update loop; `UpdateNotices` is the loop itself.
- `Eligibility`: one tier's query.
  - `Eligible` is the SQL `WHERE` clause as a predicate over one joined row.
  - `Select` is the query as a filter over the rows it ranges over.
- `Billing`: the `billinginfo` text, both as a function and as the `.=` builder.
  Both take the expiry test as a parameter: `AsWritten` is the test line 184
  writes, `Intended` the corrected one (see Findings).
- `Reminders`: the batch.
  - `RunOf` defines a whole run as a fold over tiers and rows.
  - `Run` (with `ProcessRows`) is the nested loop, proved to compute exactly `RunOf`.
  - The environment's `expiryTest` field selects the billing text's expiry test.
    With `AsWritten` the run is the batch as the source runs it; every lemma holds
    for both choices.
  - Lemmas about `RunOf` state what a run guarantees.
- `Templates`: `pmprore_add_to_templates`, as a loop over the configured tiers
  that updates the template map.

## Inputs the model takes as parameters

These are the site data and foreign calls:

- the clock reading `now`;
- the Month/Year `DATE_SUB` and `strtotime("Y-m-01")`;
- the rows the query ranges over;
- which tiers' queries fail;
- each user's last order;
- the result of the two `apply_filters` calls;
- the template body file contents;
- the site name.

## How the code behaves

The model follows the code on each of these points:

- A failing query (`is_wp_error`) returns from the whole batch, not just from its
  tier (lines 114-121).
- The time window is closed, with the same shape for every tier: from one cycle
  before today 00:00:00 up to that point 23:59:59 plus `days` days. It does not
  exclude the range an earlier tier covered.
- Notices are keyed by user and tier days, not by the next payment date. The meta
  value is read when each tier's query runs, so writes made for earlier tiers in
  the same run already count.
- The ledger is rewritten after every selected row in every case: when mailed,
  when vetoed, when already mailed this run, and when there is no last order
  (lines 217-228).

## Model

| member | source | states |
|---|---|---|
| Tiers.SortTiers | pmpro-recurring-emails.php:39-42 | The tiers come out in strictly ascending day order, with exactly the configured day counts, each paired with its configured template. |
| Tiers.DefaultTiers | pmpro-recurring-emails.php:39-41 | With no filter, the only tier is 7 days with template `membership_recurring`. |
| Reminders.ConfiguredTiers | pmpro-recurring-emails.php:39-42 | The tiers a run uses are the filtered configuration, ascending, covering exactly its keys. |
| Common.DayOf | pmpro-recurring-emails.php:34 | Today's day number is the day whose 00:00:00..23:59:59 range contains the timestamp. |
| Common.DayOfShift | pmpro-recurring-emails.php:224 | Adding n whole days to a timestamp moves its day number by exactly n. |
| Eligibility.NoticeDue | pmpro-recurring-emails.php:64 | The meta test passes exactly when there is no notice, or the notice day plus `days` is at most today. |
| Eligibility.Eligible | pmpro-recurring-emails.php:60-88 | A row passes the WHERE clause exactly when its membership is active, its cycle number is above 0, its notice is absent or at least `days` days old, its cycle period is known, and its order is dated from one cycle before today through `days` days after that. |
| Eligibility.Select | pmpro-recurring-emails.php:52-112 | A row is in the query result exactly when it is one of the input rows and the WHERE clause holds for it against the current ledger. The result is no longer than the input. |
| Eligibility.WindowIsWholeDays | pmpro-recurring-emails.php:65-88 | For every known period, the timestamp window matches exactly the orders dated from one cycle before today through `days` days after that. |
| Eligibility.NextPaymentWithin | pmpro-recurring-emails.php:65-104 | For daily and weekly cycles, an order is in the window exactly when the next payment, one cycle after it, falls between today and `days` days ahead. |
| Eligibility.StampExcludesToday | pmpro-recurring-emails.php:62-64 | For a tier of at least 0 days, a notice written today keeps every row of that user out of that tier's query for the rest of the day. |
| Eligibility.SelectedAgainstStart | pmpro-recurring-emails.php:61-64 | For a tier of at least 0 days, a row that passes the query against a ledger that only added today's stamps to a starting ledger also passes it against the starting ledger. |
| Eligibility.SuppressionWindow | pmpro-recurring-emails.php:61-64 | A notice written on day T for tier d makes the meta test fail before day T + 2d + 1 and pass from then on. |
| Notices.NoticeDay | pmpro-recurring-emails.php:224 | The value written for tier d is the day d + 1 days after today. |
| Notices.MarkNotices | pmpro-recurring-emails.php:217-228 | After a row at tier `days`, every configured tier d >= days of that user holds today + d + 1. Every other key keeps its value, and no other key is added. |
| Notices.MarkNoticesKeepsStamp | pmpro-recurring-emails.php:217-228 | A notice already holding today's value still holds it after any further row is processed the same day. |
| Notices.MarkNoticesGrows | pmpro-recurring-emails.php:217-228 | The rewrite after a row keeps every key of the ledger the run started from, and any new or changed value is the one the run writes today for that key's tier. |
| Notices.UpdateNotices | pmpro-recurring-emails.php:217-228 | The `update_user_meta` loop produces exactly the ledger `MarkNotices` defines. |
| Billing.ExpiringSoonAsWritten | pmpro-recurring-emails.php:182-185 | The test as written passes exactly when the expiry month has already begun. |
| Billing.ExpiringSoon | pmpro-recurring-emails.php:182-186 | The intended test passes exactly when fewer than 60 days remain before expiry. |
| Billing.AsWrittenMissesSoonExpiry | pmpro-recurring-emails.php:184-186 | For a card expiring in 30 days, the intended test passes and the test as written does not. |
| Billing.SoonBy | pmpro-recurring-emails.php:182-185 | With `AsWritten` the test passes exactly when the expiry month has begun; with `Intended` exactly when fewer than 60 days remain. |
| Billing.BillingTextsDiffer | pmpro-recurring-emails.php:182-193 | For a card whose expiry month starts 30 days after the run, the source's text does not end in the warning, the corrected text does, so the two differ. |
| Billing.BillingInfo | pmpro-recurring-emails.php:172-195 | The text is empty exactly when there is neither a card nor a payment type; otherwise it is wrapped in `<p>` and `</p>`. A card with an expiry gives exactly `<p>`, the card line, the expiry line, the warning once if the card expires soon by the chosen test, and `</p>`. A card without an expiry gives exactly its card line in the paragraph. The text ends in the warning exactly when the card has an expiry and expires soon. No card but a payment type gives exactly the payment-type line. |
| Billing.BodyShape | pmpro-recurring-emails.php:172-195 | The same shape, including the exact text for a card with an expiry, holds for any expiry outcome and any warning text that does not end in a line break. |
| Billing.BuildBillingInfo | pmpro-recurring-emails.php:172-195 | The `.=` builder, with the multiplication of line 184 or with the corrected division, produces exactly `BillingInfo` for that test. |
| Reminders.Dispatched | pmpro-recurring-emails.php:130-215 | A row's user is mailed (appended to the sent list and the emails, with the tier's template and the order's billing text) exactly when they are not yet in `$sent_emails`, have a last order, and the send filter returns exactly `true`. Otherwise nothing changes. |
| Reminders.RowProcessed | pmpro-recurring-emails.php:128-229 | One row is dispatched, and its user's notices are rewritten in every case. |
| Reminders.ProcessRows | pmpro-recurring-emails.php:128-229 | The loop over one tier's result rows computes exactly the fold of `RowProcessed`. |
| Reminders.Run | pmpro-recurring-emails.php:29-231 | The batch's ledger, sent list, emails and outcome are exactly those of `RunOf`, for either expiry test. |
| Reminders.RowKeepsGood | pmpro-recurring-emails.php:128-229 | Processing one qualifying row keeps the run invariant. The invariant: the sent list matches the emails, no user appears twice, and every email is warranted with its notices written. |
| Reminders.RowsKeepGood | pmpro-recurring-emails.php:128-229 | Processing a tier's qualifying rows keeps the run invariant. |
| Reminders.TiersKeepGood | pmpro-recurring-emails.php:47-230 | Processing the remaining tiers keeps the run invariant. |
| Reminders.RunIsGood | pmpro-recurring-emails.php:44-230 | Every run ends in a state satisfying the run invariant. |
| Reminders.AtMostOneEmailPerUser | pmpro-recurring-emails.php:130-209 | No two emails of a run go to the same user. `$sent_emails` lists exactly the users mailed, in mailing order. |
| Reminders.EveryEmailWarranted | pmpro-recurring-emails.php:146-209 | Every email is for a configured tier and uses that tier's configured template. Its user has a row that qualified, and has a last order for which the send filter returned exactly `true`. |
| Reminders.RowKeepsStartedFrom | pmpro-recurring-emails.php:128-229 | Processing a row the tier's query selected keeps the start-ledger invariant: the ledger only adds today's stamps, and every email was due against the start ledger. |
| Reminders.RowsKeepStartedFrom | pmpro-recurring-emails.php:128-229 | Processing a tier's selected rows keeps the start-ledger invariant. |
| Reminders.TiersKeepStartedFrom | pmpro-recurring-emails.php:47-230 | Processing the remaining tiers keeps the start-ledger invariant, whether or not the run completes. |
| Reminders.EmailOnlyIfNoticeDue | pmpro-recurring-emails.php:51-112 | Every email of a run, for a tier of at least 0 days, went to a user with a row that passes that tier's whole WHERE clause against the ledger the run started from, including the notice test. |
| Reminders.NoEmailAgainBeforeWindow | pmpro-recurring-emails.php:217-228 | If a run on day T mails a user for tier t, a next run started from the ledger it leaves mails that user for no configured tier d >= t.days before day T + 2d + 1. |
| Reminders.MailedUserSuppressed | pmpro-recurring-emails.php:217-228 | After a run on day T mails a user for a tier, no row of theirs passes the query of any configured tier d at or above it before day T + 2d + 1. |
| Reminders.RowsKeepStamp | pmpro-recurring-emails.php:128-229 | A notice holding today's value still holds it after any rows of the same day. |
| Reminders.TiersKeepStamp | pmpro-recurring-emails.php:47-230 | A notice holding today's value still holds it after any tiers of the same day, whether or not the run completes. |
| Reminders.RowsStamp | pmpro-recurring-emails.php:211-228 | After a tier's rows, every user among them holds today's value for that tier and every configured larger tier, mailed or not. |
| Reminders.TiersRunSplit | pmpro-recurring-emails.php:47-121 | When none of the first k tiers fails, the run is the run of those k tiers followed by the run of the rest. |
| Reminders.ProcessedUserSuppressed | pmpro-recurring-emails.php:211-228 | For every row a reached tier's query selects, in the ledger the run leaves behind, the meta test of each configured tier d at or above that tier fails before day T + 2d + 1 and passes from then on. This holds whether the user was mailed, vetoed, already mailed or had no last order. |
| Reminders.AbortStopsRun | pmpro-recurring-emails.php:112-121 | When the k-th tier's query fails and no earlier one does, the earlier tiers run in full, the run stops at once with that tier, and later tiers are not processed. |
| Reminders.CompletesIff | pmpro-recurring-emails.php:114-121 | A run over a list of tiers completes exactly when none of their queries fails. |
| Reminders.AbortsAtFirstFailure | pmpro-recurring-emails.php:114-121 | A run over ascending tiers that stops early stops at the smallest failing tier. |
| Reminders.RunOutcome | pmpro-recurring-emails.php:47-121 | A whole run completes exactly when no configured tier's query fails. Otherwise it stops at the smallest configured failing tier. |
| Templates.AddToTemplates | pmpro-recurring-emails.php:240-258 | The result has the old template ids plus every configured template id. Each configured id maps to the reminder entry for the site, with its body file contents. Every other id is unchanged. |

## Left out

- SQL execution through `$wpdb` is not modelled. The query is a filter over given
  rows, each row one order joined with its user's active membership.
- The `MAX(mo.timestamp)` without `GROUP BY` quirk is not modelled: which order
  timestamp a user's row carries is part of the given rows.
- Eligibility.CycleBack: Month and Year `DATE_SUB` are uninterpreted functions of
  the day and the cycle count. Nothing about them, not even monotonicity, is used,
  so `NextPaymentWithin` covers Day and Week cycles only.
- Time zones (`date_i18n`, `current_time`) are not modelled: timestamps are taken
  as local seconds.
- The clock is one reading per run, although the code reads it once per use.
- Notices.NoticeDay: `strtotime("+N days")` is taken as adding N × 86400 seconds,
  so daylight-saving days are not modelled.
- User and level lookup (`get_userdata`, `pmpro_getMembershipLevelForUser`) is left
  out. It is assumed that every user id resolves, so `$euser->ID` is the row's
  user id.
- Email composition and delivery (`PMProEmail`, `sendEmail`, `pmpro_loadTemplate`)
  are left out. A sent email is an output record of user, tier and billing text.
  Its other data fields (name, level, dates, links, `renewaldate` via
  `pmpro_next_payment`) are presentation and are left out.
- `getLastMemberOrder` is a parameter returning the order or none. Only the fields
  the billing text uses are kept.
- `printf` progress output, `WP_DEBUG` logging and `__()`/`sprintf` translation
  are not modelled.
- The template body read by `file_get_contents` is a parameter.
- The hook registrations (`add_action`, `add_filter`) are not modelled.
- Templates.AddToTemplates: the subject and description are the untranslated
  text with the site name.

## Findings

| source | as written | input that shows it | evidently intended | confidence | as-written member | corrected member |
|---|---|---|---|---|---|---|
| pmpro-recurring-emails.php:184 | `$daysleft = ($expires - $now) * 3600 * 24` multiplies the seconds left by 86400. `daysleft < 60` then holds only once the expiry month has begun. | A card whose expiry month starts 30 days after the run gets no update warning. | Divide by 86400, so the warning appears when fewer than 60 days remain. | high; not executed | Billing.AsWrittenMissesSoonExpiry | Billing.ExpiringSoon |

`Billing.ExpiringSoonAsWritten` models the test as written, and
`Billing.BillingTextsDiffer` shows the stored texts the two tests give for the
30-day input. `BillingInfo`, `BuildBillingInfo` and the whole batch take the test
as a parameter: `AsWritten` is the program as written, `Intended` the correction.
