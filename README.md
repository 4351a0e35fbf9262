# Streaming accounts: expiry logic

A Dafny model of the expiry logic of a small Django application that keeps
streaming-subscription accounts (client, platform, expiration date,
credentials, notes). It covers the `Account` record and its two expiry
predicates, the reminder message the listing attaches to each account, the
listing view's split of the table into expired / expiring-soon / other
buckets, and the admin list's computed columns.

"Today" is a parameter everywhere: one date is used for a whole listing.
Dates are Python `date` values: a proleptic Gregorian (year, month, day) in
years 1..9999 with the `toordinal()` day number. Adding `timedelta(days=n)`
moves the ordinal by `n`. `Dates.OrdinalOrder` proves that comparing
ordinals is the same as Python's (year, month, day) comparison.

Modules, one per concern:

- `Dates` (dates.dfy): calendar, ordinal, date order.
- `DateFormat` (date_format.dfy): `strftime("%d/%m/%Y")` and reading it back.
- `Models` (models.dfy): the `Account` record, platform choices, `__str__`, `is_expired`, `is_expiring_soon`.
- `Filters` and `Queries` (filters.dfy, queries.dfy): the ORM as used here. A table is a sequence of rows. `filter`/`exclude` become `Where` with a `Condition` (`__lt`, `__gte`, `__lte`, `id__in`, several lookups, negation). `order_by` is a stable insertion sort on the expiration date.
- `Messages` (messages.dfy): `generate_message`, with a reader that recovers the template and the date from a message.
- `Views` (views.dfy): `account_list`. The buckets are functions. Fetched model instances are objects of class `Row`, whose `message` attribute the three loops set in place.
- `Admin` (admin.dfy): `recordatorio`, `is_expired_display`, `get_row_css`.

The "other" bucket is built by excluding the ids of the other two buckets,
as the code does, not by a date filter. The model proves that it holds
exactly the accounts due more than seven days ahead when ids are unique
(the primary key). Without unique ids that would not follow.

## Model

| member | source | states |
|---|---|---|
| `Dates.OrdinalOrder` | accounts/models.py:45 | ordinal comparison coincides with Python's (year, month, day) date order, and equal ordinals mean equal dates |
| `Dates.DaysBetween` | accounts/models.py:39 | the day difference is negative exactly when the later date is before the earlier, zero exactly when they are the same day |
| `DateFormat.FormatDate` | accounts/views.py:13 | `%d/%m/%Y` is ten characters: two digits, '/', two digits, '/', four digits |
| `DateFormat.ParseFormatRoundTrip` | accounts/views.py:13 | reading the formatted string back gives the original date |
| `DateFormat.FormatInjective` | accounts/views.py:13 | different dates never format to the same string |
| `DateFormat.FormatExample` | accounts/views.py:13 | 10 January 2024 formats as "10/01/2024" |
| `Models.ValidAccount` | accounts/models.py:24-28 | an account the field declarations accept has a non-empty platform within the 50-character column |
| `Models.ChoicesFitColumn` | accounts/models.py:9-28 | every listed platform is non-empty and fits the 50-character column, so for a listed platform validity reduces to a client name of 1 to 100 characters and non-empty details |
| `Models.ToString` | accounts/models.py:32-33 | the text is the client name, then " - ", then the platform |
| `Models.ToStringInjective` | accounts/models.py:9-33 | for listed platforms, the text determines the client name and the platform, since no two choices share their last two characters |
| `Models.IsExpired` | accounts/models.py:41-45 | true exactly when the expiration date is strictly before today in calendar order |
| `Models.IsExpiringSoon` | accounts/models.py:35-39 | true exactly when at most `days` days are left (default 7), with no lower bound |
| `Models.ExpiredMeansNoDaysLeft` | accounts/models.py:45 | expired exactly when the days left are negative |
| `Models.ExpiredIsExpiringSoon` | accounts/models.py:35-45 | for any non-negative look-ahead an expired account is also "expiring soon" |
| `Models.ExpiringSoonMonotone` | accounts/models.py:39 | widening the look-ahead never drops an account |
| `Models.ExpiresToday` | accounts/models.py:35-45 | an account due today is not expired but is expiring soon even with a zero look-ahead |
| `Queries.Where` | accounts/views.py:36-47 | a filter keeps every copy of each row the condition holds for and no copy of any other row, so never more rows than the table has |
| `Queries.IdsIdentifyRows` | accounts/views.py:45-47 | with unique ids, a row's id is among a sub-list's ids exactly when the row is in that sub-list |
| `Queries.WherePartition` | accounts/views.py:36-47 | conditions that put each row in exactly one of three groups split the table's multiset of rows into the three filters |
| `Queries.InsertSorted` | accounts/views.py:39-47 | inserting into a sorted list keeps it sorted |
| `Queries.OrderBy` | accounts/views.py:39-47 | `order_by` returns the same rows (as a multiset) sorted by the key, ascending or descending |
| `Queries.DefaultListing` | accounts/models.py:47-48 | the default listing holds every row, and no row's date is before that of a row listed ahead of it |
| `Messages.GenerateMessage` | accounts/views.py:9-27 | every message opens with "Hola {client}, tu suscripción de {platform} ", and its length is the greeting's plus exactly one template's verb, ten date characters and closing, the expired template exactly when the account is expired |
| `Messages.MessageRoundTrip` | accounts/views.py:13-26 | a message reads back as the expired template exactly when the account is expired, and as the account's expiration date |
| `Messages.MessageChangesWithStatus` | accounts/views.py:14-26 | an account's message on two days is the same exactly when its expiry status is the same on both |
| `Messages.ExpiredExample` | accounts/views.py:16-19 | Ana's Netflix account due 10/01/2024, once expired, gets exactly the expired text |
| `Views.ExpiringSoonBucket` | accounts/views.py:36-39 | the bucket is exactly the accounts due today or within 7 days, ascending by date |
| `Views.ExpiredBucket` | accounts/views.py:42 | the bucket is exactly the expired accounts, descending by date |
| `Views.OtherBucket` | accounts/views.py:45-47 | the bucket is exactly the accounts whose id is not in the other two buckets, ascending by date |
| `Views.OtherBucketMembers` | accounts/views.py:45-47 | with unique ids, the other bucket is exactly the accounts due more than 7 days ahead |
| `Views.ListingPartition` | accounts/views.py:36-47 | each account is in exactly one bucket, and the three buckets together are the table, multiplicities included |
| `Views.BucketTemplates` | accounts/views.py:50-55 | expired-bucket messages use the expired template; the other two buckets' messages use the active one; each names the account's date |
| `Views.Fetch` | accounts/views.py:36-47 | evaluating a bucket yields one new instance per row, in order, pairwise distinct, with no message yet |
| `Views.AttachMessages` | accounts/views.py:50-55 | after the loop every row's message is the message generated for its account; nothing else is written |
| `Views.AccountList` | accounts/views.py:34-55 | the three returned lists hold the three buckets' accounts in bucket order, and each row carries its generated message |
| `Admin.Reminder` | accounts/admin.py:42-50 | "Vencida" exactly when expired, "¡Vence pronto!" exactly when 0 to 7 days are left, "Activa" exactly when more than 7 are left, and always one of the three |
| `Admin.IsExpiredDisplay` | accounts/admin.py:53-57 | the flag is set exactly when the account is expired, which is exactly when the label is "Vencida" |
| `Admin.RowCss` | accounts/admin.py:62-67 | 'expired-row', 'expiring-soon-row' and '' correspond one to one with "Vencida", "¡Vence pronto!" and "Activa" |
| `Admin.ReminderMatchesBucket` | accounts/admin.py:46-50 | an account's label names the listing bucket it falls in |

## Left out

- accounts/forms.py: form configuration and widget styling. The model-level field validation is `Models.ValidAccount`; the form's stripping of surrounding whitespace before the required-field check is not modelled.
- `account_create`, `account_update`, `account_delete` and the rendering in `account_list`: these are request handling, redirects, flash messages and templates of the framework.
- Admin configuration (`list_display`, `list_filter`, `search_fields`, `date_hierarchy`, `fieldsets`, `readonly_fields`, `Media`): declarative setup of the generic admin.
- `created_at` / `updated_at`: maintained by the framework; the `Account` record omits them.
- The clock: `timezone.now()` becomes the `today` parameter. In the code `is_expired` reads the clock again inside `generate_message`, so around midnight it could disagree with the listing's `today`. The model uses one day throughout.
- Database snapshot and concurrency: the listing's three queries are treated as reading one unchanged table.
- Date overflow: `today + timedelta(days=7)` near 31 December 9999 raises in Python; the model adds to the ordinal, which never overflows.
- Years before 1000: `strftime("%Y")` output there depends on the platform. `DateFormat.FormatDate` always writes four zero-padded digits.
- Models.IsExpiringSoon: `days` is a whole number of days; a fractional `timedelta` is not modelled.
- Queries.OrderBy: SQL leaves the order of rows with equal dates open. The model keeps table order, which is one of the orders the database may return.
- Lazy evaluation and caching of querysets: `Views.AccountList` fetches each bucket once, in the order the view first evaluates them. That evaluation also serves the loops and the rendered context.
