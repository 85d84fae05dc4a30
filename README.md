# Inxmail subscription data, in Dafny

This project models the attribute-shaping helper of the Inxmail newsletter module for Magento 2
(`Helper/SubscriptionData.php`). When a newsletter subscriber is sent to Inxmail, the helper does
four things:

1. It assembles one record: the subscriber's own fields, the customer's fields (only when a
   customer id or a session customer id is positive), and the store view, website and store group.
2. It cleans that record. Every non-empty scalar is trimmed, and so is every non-empty element of
   a list value.
3. It resolves the attribute mapping. The table starts from the standard attributes minus `email`.
   Each configured override is added only when it names a Magento field of the catalog.
4. It builds the outgoing record. Each Inxmail attribute of the table gets the cleaned value of its
   Magento field, provided that field is present and not null.

Dates are formatted on the way: the last order date (date only, or date and time in UTC, as the
attributes setting asks) and the date of birth.

Modules, following the helper's structure:

- `PhpValues`, `PhpText`: the PHP values the helper handles.
  - Null, booleans, integers, strings, and lists of those.
  - `empty()`, `isset()`, coercion to string.
  - `trim()` with PHP's default character set.
  - Decimal and fixed-width digit strings.
- `DateFormat`: the two `date_format()` patterns (`FORMAT_DATE_TIME`, `FORMAT_DATE_ONLY`), with
  read-back lemmas. Also `getAttributeConfig()`, `formatOrderDate()` and `formatBirthday()`.
- `Mapping`: `getMapping()`.
  - A loop over the configured overrides, proved against the function `Resolve`.
  - Lemmas on which keys and values the resolved table has.
- `Normalize`: `cleanData()`. The record is rewritten entry by entry, and list values element by
  element, proved against `CleanValue`.
- `FieldMap`: the mapping loop of `getSubscriptionFields()`.
- `Subscription`: `getCustomerData()`, `getLastOrderDate()`, `getStoreData()`,
  `getSubscriptionStaticData()` and `getSubscriptionFields()`.
  - Each step-by-step method is proved equal to a function that states the record it builds.
- `Wrappers`, `Failures`: `Option`, `Result`, and the failures the helper can end in.
  - Failures are a missing customer, store, website or group, and an order date PHP cannot parse.
  - The birthday type error described under Findings is a failure too. Only the as-written
    formatting returns it; record assembly uses the corrected formatting.

Magento is passed in as a value: the session, customer, store, website and group lookups, and each
customer's first order. So are the module configuration and the attribute catalog. Two PHP
operations are not modelled; they are parameters instead:

- parsing a date (`date_create`);
- converting a date to UTC.

Where the code does something a reader might not expect, the model follows the code:

- A customer with no order, or whose order has an empty date, gets `lastOrderDate` set to `''`. It
  is not left out (`Helper/SubscriptionData.php:178`, `:222`).
- `trim()` also applies to non-empty integers and `true`, which therefore come back as strings
  (`:314-318`). Empty values (`null`, `false`, `0`, `''`, `'0'`) are kept as they are.
- An override is accepted when its Magento field is among the values of
  `array_merge(mapable, defaults)`. This is not the union of both value sets: a standard attribute
  hides a mappable attribute with the same Inxmail key (`:333`, `:339`).
- An order date that `date_create` cannot parse ends the call with an uncaught error: `->setTimezone()` is called on `false` (`:233`).
  The model returns it as `Err(OrderDateUnparsable(date))`.

## Model

| member | source | states |
|---|---|---|
| `PhpText.Trim` | Helper/SubscriptionData.php:315 | trim() returns a slice of the input with only trimmable characters before and after it, and no trimmable character at either end of the slice; an already-trimmed string comes back unchanged, and the result is "" exactly when the string is only whitespace |
| `PhpText.TrimLeft` | Helper/SubscriptionData.php:315 | the result is a suffix of the input, what was removed is all whitespace, and the result does not start with whitespace |
| `PhpText.TrimRight` | Helper/SubscriptionData.php:315 | the result is a prefix of the input, what was removed is all whitespace, and the result does not end with whitespace |
| `PhpText.Decimal` | Helper/SubscriptionData.php:315 | a natural number is written as a non-empty digit string that reads back as the same number, with no leading zero except for "0" itself |
| `PhpText.IntToString` | Helper/SubscriptionData.php:315 | PHP's int-to-string coercion starts with '-' exactly for negative numbers, then has canonical digits (no leading zero except "0") that read back as the absolute value |
| `PhpValues.IsEmpty` | Helper/SubscriptionData.php:314-318 | PHP's empty() on a scalar holds exactly for null, false, 0, "" and "0" |
| `PhpValues.IsSet` | Helper/SubscriptionData.php:126 | isset() on an existing entry fails only for null, and an entry that is not set is empty |
| `PhpValues.ToText` | Helper/SubscriptionData.php:315 | the string trim() receives: a string itself, "1" for true, an integer's text with a sign exactly when negative; the scalar is empty() exactly when this text is "" or "0" |
| `PhpText.FixedDigits` | Helper/SubscriptionData.php:46-47 | a zero-padded field has exactly its width, only digits, and reads back as the number when the number fits |
| `DateFormat.YearText` | Helper/SubscriptionData.php:46-47 | the `Y` letter writes at least four characters, a leading '-' exactly for years before year 0, and for years 0 to 9999 exactly four digits that read back as the year |
| `DateFormat.Format` | Helper/SubscriptionData.php:237-239 | both patterns start with the year text; 'Y-m-d' adds six characters, and 'Y-m-d\TH:i:s\Z' adds sixteen, with 'T' ten from the end and 'Z' last |
| `DateFormat.DateOnlyReadsBack` | Helper/SubscriptionData.php:47 | for years 0 to 9999, 'Y-m-d' writes YYYY-MM-DD, which reads back as the date's year, month and day and is never a date-time text |
| `DateFormat.DateTimeReadsBack` | Helper/SubscriptionData.php:46 | for years 0 to 9999, 'Y-m-d\TH:i:s\Z' writes YYYY-MM-DDTHH:MM:SSZ, which reads back as exactly the same instant and is never a date-only text |
| `DateFormat.GetAttributeConfig` | Helper/SubscriptionData.php:248-257 | true if and only if the decoded setting exists and has a non-null lastOrderDate entry identical to the date-and-time code; a missing entry or undecodable JSON gives false |
| `DateFormat.FormatOrderDate` | Helper/SubscriptionData.php:230-243 | an unparsable date is an error; otherwise the text is non-empty and reads back as the UTC instant exactly when the setting asks for date and time, and as the UTC date exactly when it does not |
| `DateFormat.FormatBirthday` | Helper/SubscriptionData.php:263-275 | a parsable date of birth is written with 'Y-m-d', and for years 0 to 9999 reads back as that date; an unparsable one gives "" and a logged critical event; a missing one gives "" and no event |
| `DateFormat.FormatBirthdayAsWritten` | Helper/SubscriptionData.php:263-275 | a missing date of birth makes the call fail with a type error; a present one behaves as FormatBirthday |
| `DateFormat.MissingBirthdayAborts` | Helper/SubscriptionData.php:181-184 | for the same customer without a date of birth, the source aborts while the corrected formatting omits the birthday |
| `Mapping.AllowedValues` | Helper/SubscriptionData.php:331-333 | the accepted Magento fields are the standard values except email's, plus the mappable values whose key no standard attribute shadows, and nothing else |
| `Mapping.Accepted` | Helper/SubscriptionData.php:337-343 | every field the accepted overrides map to belongs to the pool they were checked against |
| `Mapping.Resolve` | Helper/SubscriptionData.php:329-346 | every value of the resolved table is an accepted Magento field |
| `Mapping.GetMapping` | Helper/SubscriptionData.php:329-346 | the loop over the configured overrides builds exactly the resolved table |
| `Mapping.LastAcceptedWins` | Helper/SubscriptionData.php:338-341 | among accepted overrides with the same Inxmail key, the last in configuration order decides the value |
| `Mapping.AcceptedKeyOrigin` | Helper/SubscriptionData.php:338-341 | each key of the accepted overrides comes from an accepted override that no later accepted override with the same key follows |
| `Mapping.RejectedOverrideIgnored` | Helper/SubscriptionData.php:339 | an override whose Magento field is not allowed contributes nothing, whatever its position |
| `Mapping.AcceptedHasKey` | Helper/SubscriptionData.php:339-340 | an accepted override's Inxmail key is always in the accepted table |
| `Mapping.ResolvedKeys` | Helper/SubscriptionData.php:331-345 | a key is in the resolved table if and only if it is a standard key other than email, or the Inxmail key of an accepted override |
| `Mapping.DefaultKept` | Helper/SubscriptionData.php:331-345 | a standard attribute other than email keeps its standard value unless an accepted override has its key |
| `Mapping.OverrideWins` | Helper/SubscriptionData.php:338-345 | the last accepted override for a key beats the standard attribute with that key |
| `Mapping.RejectedOverrideHasNoEffect` | Helper/SubscriptionData.php:337-345 | dropping a rejected override from the configuration does not change the resolved table |
| `Normalize.CleanScalar` | Helper/SubscriptionData.php:314-318 | empty values are kept. A non-empty string becomes its trimmed form, a non-zero int its decimal text, and true "1". Clean input is unchanged, and null stays null while nothing else becomes null |
| `Normalize.CleanValue` | Helper/SubscriptionData.php:313-320 | the result is clean, a clean value is unchanged, and a value is set after cleaning exactly when it was set before |
| `Normalize.CleanList` | Helper/SubscriptionData.php:316-319 | the inner loop keeps the list's length and replaces each element by its cleaned form |
| `Normalize.CleanedItems` | Helper/SubscriptionData.php:316-319 | elementwise cleaned items form the cleaned list value |
| `Normalize.CleanEntry` | Helper/SubscriptionData.php:314-319 | one step of the outer loop stores the cleaned value of the entry |
| `Normalize.CleanedRecord` | Helper/SubscriptionData.php:311-324 | a record cleaned entry by entry is clean throughout, keeps its null entries, and is the original when that was clean already |
| `Normalize.CleanData` | Helper/SubscriptionData.php:311-324 | the keys stay the same, each value becomes its cleaned value, every value is clean with null kept as null, and clean input is returned unchanged, so cleaning twice is cleaning once |
| `FieldMap.MapFields` | Helper/SubscriptionData.php:120-131 | the result never has email, only has keys of the table, and holds data[table[k]] for each key; every non-email key whose Magento field is present and not null (an empty string included) is in it |
| `Subscription.KeyGroupsDisjoint` | Helper/SubscriptionData.php:142-156 | the subscriber, store and customer field names are pairwise distinct |
| `Subscription.LastOrderDate` | Helper/SubscriptionData.php:201-223 | "" exactly when there is no order or its date is empty, the formatted order date otherwise |
| `Subscription.CustomerData` | Helper/SubscriptionData.php:166-194 | without a positive customer or session id: empty record, no log. Otherwise the lookup uses the session's id when logged in and the subscriber's when not, and a missing customer is an error. An existing customer gives a record exactly when the last order date formats, and otherwise that date's error. All customer fields except birthday are set; birthday is set exactly when its formatted text is non-empty; only an unparsable date of birth is logged |
| `Subscription.GetCustomerData` | Helper/SubscriptionData.php:166-194 | building the record step by step gives exactly CustomerData's record and log |
| `Subscription.StoreData` | Helper/SubscriptionData.php:284-304 | a missing store, website or group is an error, in that order; otherwise the six store fields hold the store view's, website's and group's values |
| `Subscription.GetStoreData` | Helper/SubscriptionData.php:284-304 | building the record step by step gives exactly StoreData |
| `Subscription.StaticData` | Helper/SubscriptionData.php:142-156 | the customer's failure comes first, then the store's; otherwise the record is array_merge of subscriber, store and customer fields, and the log is the customer part's |
| `Subscription.StaticDataShape` | Helper/SubscriptionData.php:146-155 | the record always has the four subscriber and six store fields and only customer fields beside them, has no customer field without a customer, and on a shared key takes customer over store over subscriber |
| `Subscription.GetSubscriptionStaticData` | Helper/SubscriptionData.php:142-156 | assembling in the source's order gives exactly StaticData |
| `Subscription.MappedCleanRecord` | Helper/SubscriptionData.php:115-131 | mapping the cleaned record selects, for each mapped key, the cleaned value of a present, non-null Magento field, and misses none |
| `Subscription.NoCustomerFieldMapped` | Helper/SubscriptionData.php:113-132 | without a customer, no mapped attribute reads a customer field |
| `Subscription.GetSubscriptionFields` | Helper/SubscriptionData.php:113-132 | errors of the static data pass through. On success the result has no email and only table keys. Each value is the cleaned value of the present, non-null Magento field the table names, and no such field is missed. Every value is set and clean, and no customer field is mapped without a customer |

## Left out

- The admin block `Block/Adminhtml/System/Config/AttribSelectMag.php` only renders select options, and its parent class is not part of this model.
- The constructor, dependency wiring and the global configuration accessor are left out. The map configuration, the decoded attributes setting, the attribute catalog (standard and mappable attributes) and the date-and-time code are inputs.
- The customer repository, store manager and order collection are not modelled. They are maps passed in, and a missing entry is an error outcome. The text of Magento's exceptions is not modelled.
- The sort direction of `addOrder('created_at')` is Magento's collection default, which is not part of this model. The model takes "the first order of the collection" per customer as given.
- `date_create`, the UTC conversion and `json_decode` are opaque parameters. Calendar and time-zone arithmetic are not verified. `Instant` only bounds each field's range, not the days of each month.
- The logger's message text and stack trace are left out. Only the fact that a critical event was logged, and for which date of birth, is kept.
- The key order of PHP arrays is not modelled; records are maps.
- PHP `array_merge` renumbers integer keys. Every attribute key is taken to be a non-numeric string.
- Floating-point values and arrays nested deeper than one level are not modelled. List values are sequences of scalars, and their integer keys are positions.
- `Subscription.CustomerData`: assembly (and so `StaticData`, `GetCustomerData` and `GetSubscriptionFields`) uses the corrected `FormatBirthday` from Findings. For a customer whose date of birth is null, the model gives the record without `birthday`, where the source aborts at `:183`.
- `DateFormat.FormatBirthday`: an unparsable date of birth gives "" and a logged critical event. What PHP does when `date_format()` is given `false` differs between versions, and that detail is not modelled. The read-back of the written date is stated only for years 0 to 9999, as for `FormatOrderDate`.
- `DateFormat.FormatOrderDate`: the read-back of the written date is stated only for years 0 to 9999. The `Y` letter writes other years with a sign or more digits, which `ReadDate` does not read.

## Findings

| source | as written | input that shows it | evidently intended | confidence | as-written member | corrected member |
|---|---|---|---|---|---|---|
| Helper/SubscriptionData.php:263-275 | `formatBirthday(string $birthday)` is called with `$customer->getDob()`, which is null for a customer without a date of birth; the call throws a TypeError that `catch (Exception $e)` does not catch, so the whole subscription export fails | a customer selected by a positive customer or session id whose `getDob()` returns null | no `birthday` attribute and the rest of the record as usual, as the `'' !== $customerDob` test at :184 intends | not executed | `DateFormat.FormatBirthdayAsWritten` | `DateFormat.FormatBirthday` |
