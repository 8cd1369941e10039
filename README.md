# Extraction connectors, modelled in Dafny

This project models the per-provider extraction core of a data pipeline. The pipeline pulls
records from CRM, marketing, e-commerce, ERP and tourism APIs and turns them into flat tables. One
Dafny module covers each connector:

- `Pipedrive`: column-name normalisation and text cleaning, the custom-field hash-to-name and
  enum code-to-label mappings, the v1 offset and v2 cursor paging loops, and `extract_all`.
- `RdCrm` (RD Station CRM): the accent-folding name normaliser, the three-attempt request helper
  with its back-off, the deal flattener, and the deal and stage extractions.
- `RdMarketing` (RD Station Marketing): a class holding the memoised OAuth token, the request
  helper that honours `Retry-After`, the day-by-day analytics loop, the offset-paged webhook
  leads, and the recursive nested-dict flattener.
- `PayTour`: a class holding the login state, HTTP Basic login (section 2 of RFC 7617, with the
  base64 of section 4 of RFC 4648 in module `Base64`), page-count paging, and the rows of its
  five tables.
- `Omie`: the call payload and URL, page-count paging with its 500-page ceiling, and the clients
  and sales-orders rows.
- `Leads2b`: paging that stops on a 404, an empty page, a short page or 100 pages, and the leads
  and negotiations rows.
- `Shopify`: paging by the `rel="next"` target of the `Link` header (section 3 of RFC 8288), and
  the orders, order items and customers rows.
- `ActiveCampaign`: offset-against-total paging with unbounded 429 and exception retries.
- `Silbeck`: response-shape selection and the reservations and customers rows with their
  fallbacks.
- `HubSpot`: the stage mapping, and the cursor loops over deals (enriched with their stage) and
  contacts.
- `GoogleAds`: customer-id parsing, and the per-customer campaign de-duplication and insight rows.
- `GSheets`: the tenant sheet reader, which fills in missing ids with a slug and drops
  `unknown` rows.

Shared modules hold the common pieces:

- `Json`: decoded JSON values and Python's `str`, `int`, `float`, truthiness and `dict.get` on
  them.
- `Text`: Python string operations.
- `Dates`: `datetime` stepping and formatting.
- `Http`: a reply, and what a paging loop returns.
- `Seqs`: map, filter and concatenate specifications.

Every network, SDK or file call is an input. A paging loop receives the sequence of replies to its
successive requests (or a function from the attempt or page number to the reply). It returns a
`Fetched` value with three parts:

- the items gathered;
- the requests it made;
- why it stopped: finished, a request failed quietly, an exception escaped, or the given replies
  ran out.

Each loop is a method proved equal to a recursive specification function. The lemmas about that
function state the connector's promises: the order of requests, the stop conditions, the page
ceilings, and that the items are the pages joined in order. Row builders are functions over the
decoded records. Their lemmas state each column's fallbacks and defaults.

## Model

| member | source | states |
|---|---|---|
| Pipedrive.KeepNameChars | connectors/pipedrive.py:27 | Only lower-case ASCII letters, digits and `_` are left. |
| Pipedrive.NormStr | connectors/pipedrive.py:22-28 | The normalised name holds only lower-case ASCII letters, digits and `_`. |
| Pipedrive.NormalizeName | connectors/pipedrive.py:18-28 | A string name is normalised to `[a-z0-9_]*`; any other value becomes its `str`. |
| Pipedrive.StripAccentsPlain | connectors/pipedrive.py:22-23 | Removing combining marks leaves a name of plain characters unchanged. |
| Pipedrive.LowerPlain | connectors/pipedrive.py:24 | Lower-casing leaves a name of plain characters unchanged. |
| Pipedrive.KeepNameCharsId | connectors/pipedrive.py:27 | The final filter leaves a name already in `[a-z0-9_]*` unchanged. |
| Pipedrive.KeepNameCharsAppend | connectors/pipedrive.py:27 | The filter works character by character: filtering a concatenation concatenates the filtered parts. |
| Pipedrive.NameCharsNoSpace | connectors/pipedrive.py:25-27 | A normalised name has no whitespace. |
| Pipedrive.NormPlain | connectors/pipedrive.py:22-27 | For plain characters the pipeline is just strip, collapse whitespace, spaces to `_`, filter. |
| Pipedrive.NormalizeIdempotent | connectors/pipedrive.py:18-28 | Normalising a normalised name changes nothing. |
| Pipedrive.InterleavePlain | connectors/pipedrive.py:25 | Words joined by whitespace runs form a plain string with no whitespace at either end. |
| Pipedrive.CollapseInterleave | connectors/pipedrive.py:25 | Collapsing whitespace turns words separated by whitespace runs into the words joined by single spaces. |
| Pipedrive.UnderscoreJoin | connectors/pipedrive.py:26-27 | Replacing the spaces and filtering turns space-joined words into `_`-joined words. |
| Pipedrive.NormalizeWords | connectors/pipedrive.py:18-28 | A name made of `[a-z0-9]` words between whitespace runs, padded with whitespace, normalises to the words joined by `_`. |
| Pipedrive.SurroundedPlain | connectors/pipedrive.py:25 | Whitespace padding keeps a plain string plain. |
| Pipedrive.StripSurrounded | connectors/pipedrive.py:25 | `strip()` removes exactly the whitespace padding around a core with no outer whitespace. |
| Pipedrive.DropNewlines | connectors/pipedrive.py:32 | A run of line feeds is consumed: the rest does not start with one and is shorter when the input did. |
| Pipedrive.ReplaceNewlines | connectors/pipedrive.py:32 | After replacing every `\r?\n+` by a space no line feed is left. |
| Pipedrive.CleanStr | connectors/pipedrive.py:30-34 | A cleaned string has no line breaks, only single spaces as whitespace, none at either end and never two in a row. |
| Pipedrive.CleanText | connectors/pipedrive.py:30-34 | Strings are cleaned; every other value is returned unchanged. |
| Pipedrive.OptionTable | connectors/pipedrive.py:98-101 | The option table is built when every option has an `id` and a `label` (else the comprehension raises), and maps `str(id)` to the label. |
| Pipedrive.AddField | connectors/pipedrive.py:91-101 | One field sets its key to its normalised name, and an enum field with options also sets its option table; a field without `key` raises. |
| Pipedrive.CreateFieldMappings | connectors/pipedrive.py:88-102 | The mappings are returned exactly when no field makes the loop raise, and equal the fold of all fields in order. |
| Pipedrive.MappingsSnoc | connectors/pipedrive.py:91-101 | Adding one more field updates the field map and, for an enum field with options, the options map. |
| Pipedrive.FieldMapLast | connectors/pipedrive.py:94 | A field key maps to the name of the last field with that key. |
| Pipedrive.FieldMapKeys | connectors/pipedrive.py:94 | The field map's keys are exactly the fields' keys. |
| Pipedrive.OptionsMapKeys | connectors/pipedrive.py:96-98 | The options map's keys are exactly the keys of enum fields with options. |
| Pipedrive.OptionsMapSource | connectors/pipedrive.py:96-98 | Every options-map key comes from an enum field with options. |
| Pipedrive.OptionsMapEntry | connectors/pipedrive.py:96-98 | Every enum field with options has an options-map entry. |
| Pipedrive.OptionsMapLast | connectors/pipedrive.py:96-101 | An enum key maps to the option table of the last enum field with that key. |
| Pipedrive.OptionLabelsLast | connectors/pipedrive.py:98-101 | An option code maps to the label of the last option with that `str(id)`. |
| Pipedrive.OptionLabelsKeys | connectors/pipedrive.py:98-101 | The option table's codes are exactly the options' `str(id)`s. |
| Pipedrive.ColumnName | connectors/pipedrive.py:117 | A mapped hash key is renamed to its field name; any other key is kept. |
| Pipedrive.Resolve | connectors/pipedrive.py:118-120 | A non-null value of an enum key whose `str` is a known option code becomes that option's label; anything else is kept. |
| Pipedrive.CopyPlain | connectors/pipedrive.py:110-112 | The row starts with every scalar field except `custom_fields`, cleaned. |
| Pipedrive.AddCustom | connectors/pipedrive.py:115-121 | Each custom field is written under its resolved name with its resolved, cleaned value. |
| Pipedrive.AddLead | connectors/pipedrive.py:124-133 | For leads, each mapped 40-hex-digit root key is written under its field name with its resolved, cleaned value. |
| Pipedrive.FlattenItem | connectors/pipedrive.py:107-135 | One record becomes the row of its plain fields, then its custom fields, then (for leads) its hash keys. |
| Pipedrive.FlattenCustomFields | connectors/pipedrive.py:104-136 | The rows are returned exactly when every record is a dict, one row per record in order. |
| Pipedrive.PlainLookupDistinct | connectors/pipedrive.py:110-112 | A plain column holds the cleaned record value exactly when it is a scalar outside `custom_fields`. |
| Pipedrive.PlainColumns | connectors/pipedrive.py:110-112 | The same, for the fields of a record dict, whose keys are distinct. |
| Pipedrive.RowColumn | connectors/pipedrive.py:107-135 | A row column comes from the lead hash keys first, then the custom fields, then the plain fields: later writes win. |
| Pipedrive.LeadEntriesFrom | connectors/pipedrive.py:125-133 | The lead entries are exactly the mapped 40-hex-digit keys with their renamed, resolved, cleaned values. |
| Pipedrive.StartPlus | connectors/pipedrive.py:62 | `start + 100` succeeds for integers, booleans, floats and cast results, and raises exactly for None, a string, a list or a dict; an integer start gives `start + 100` exactly, a float start the float sum. |
| Pipedrive.NextStart | connectors/pipedrive.py:62 | The next offset is `next_start` when present, else `start + 100`; since the default is evaluated first, it raises exactly when the start is None, a string, a list or a dict, and a float start pages on. |
| Pipedrive.FloatStartPagesOn | connectors/pipedrive.py:62 | After a whole float start `w.0` with no `next_start`, the next request starts at `(w + 100).0`. |
| Pipedrive.FetchAllV1 | connectors/pipedrive.py:43-63 | The v1 loop returns the pages, requests and stop reason of the offset-paging run, which goes on through integer and float starts alike. |
| Pipedrive.V1Requests | connectors/pipedrive.py:44-62 | The first request uses offset 0, and each later one uses the offset the previous page announced. |
| Pipedrive.V1Stop | connectors/pipedrive.py:45-61 | The loop runs out of replies only after a page that was read and said there are more items. |
| Pipedrive.PageRecords | connectors/pipedrive.py:56-57 | A page adds nothing when `data` is falsy and what `extend` appends otherwise; a body that is not a dict, or a `data` `extend` refuses, makes it raise. |
| Pipedrive.V1Ends | connectors/pipedrive.py:52-61 | A failed request ends the loop at that request; a finished run ends at a page that was read and has no more items. |
| Pipedrive.V1Crash | connectors/pipedrive.py:56-62 | A crash happens only at a successful request whose page `extend` refuses or whose `additional_data` or `pagination` is not a dict, or whose page says there are more items when the next offset cannot be computed. |
| Pipedrive.V1CrashStart | connectors/pipedrive.py:56-62 | Apart from a page that cannot be read, a crash happens only at a start that is not a number (None, a string, a list or a dict). |
| Pipedrive.V1Kept | connectors/pipedrive.py:48-57 | Every page whose items are kept came from a successful request. |
| Pipedrive.V1Items | connectors/pipedrive.py:56-57 | The result is the concatenation of the kept pages' `data` lists. |
| Pipedrive.FetchAllV2 | connectors/pipedrive.py:64-84 | The v2 loop returns the pages, requests and stop reason of the cursor-paging run. |
| Pipedrive.V2Requests | connectors/pipedrive.py:65-81 | The first request has no cursor, and each later one sends the truthy cursor of the previous page, which was read without raising. |
| Pipedrive.V2Stop | connectors/pipedrive.py:66-83 | The v2 loop raises only at a successful request whose page `extend` refuses or whose `additional_data` is not a dict; it stops quietly at a failed request or at a page without a truthy cursor. |
| Pipedrive.V2Items | connectors/pipedrive.py:78-79 | The result is the concatenation of the kept pages' `data` lists. |
| Pipedrive.FetchV1 | connectors/pipedrive.py:142-147 | A v1 listing is returned exactly when its paging did not raise. |
| Pipedrive.FetchV2 | connectors/pipedrive.py:159-168 | A v2 listing is returned exactly when its paging did not raise, and it is the run's items. |
| Pipedrive.MapFields | connectors/pipedrive.py:142-155 | The six field listings are fetched and mapped exactly when none of them raises, each with its own mappings. |
| Pipedrive.Flatten | connectors/pipedrive.py:173-178 | Flattening with a listing's mappings succeeds exactly when every record is a dict. |
| Pipedrive.ExtractAll | connectors/pipedrive.py:138-191 | The ten tables are returned exactly when no step raises, and hold the raw pipelines, stages, users and lead labels and each entity flattened with its own field mappings. |
| RdCrm.FoldChar | connectors/rdcrm.py:23 | Folding one character yields ASCII only. |
| RdCrm.AsciiPart | connectors/rdcrm.py:23 | Dropping what does not encode as ASCII leaves ASCII only. |
| RdCrm.Fold | connectors/rdcrm.py:23 | NFKD-then-ASCII folding of a string yields ASCII only. |
| RdCrm.Underscore | connectors/rdcrm.py:24 | Replacing every character outside `[a-z0-9_]` keeps the length and leaves only name characters. |
| RdCrm.DropUnderscores | connectors/rdcrm.py:25 | Dropping leading underscores gives a string that does not start with `_`, is no longer, and keeps the name characters. |
| RdCrm.Squeeze | connectors/rdcrm.py:25 | Squeezing runs of `_` leaves no two adjacent underscores, keeps the first character and the name characters. |
| RdCrm.StripKeeps | connectors/rdcrm.py:25 | Stripping `_` at both ends keeps the name characters and leaves no double underscore. |
| RdCrm.NormStr | connectors/rdcrm.py:23-25 | A normalised name holds only `[a-z0-9_]`, no `__`, and neither starts nor ends with `_`. |
| RdCrm.NormalizeName | connectors/rdcrm.py:20-25 | A falsy value normalises to ""; every result is a clean name as above. |
| RdCrm.FoldAscii | connectors/rdcrm.py:23 | Folding leaves an ASCII string unchanged. |
| RdCrm.SqueezeId | connectors/rdcrm.py:25 | Squeezing leaves a string without `__` unchanged. |
| RdCrm.NameCharsFold | connectors/rdcrm.py:23 | Folding leaves a string of name characters unchanged. |
| RdCrm.NameCharsLower | connectors/rdcrm.py:23 | Lower-casing leaves a string of name characters unchanged. |
| RdCrm.NormStrFixed | connectors/rdcrm.py:23-25 | A name the pipeline could have produced goes through it unchanged. |
| RdCrm.NormalizeIdempotent | connectors/rdcrm.py:20-25 | Normalising a normalised name changes nothing. |
| RdCrm.SafeRequest | connectors/rdcrm.py:27-45 | The attempt loop gives exactly the outcome `AttemptsFrom` describes from attempt 0. |
| RdCrm.AttemptsBound | connectors/rdcrm.py:32-45 | At most three attempts; every attempt before the last was a raised call or a 429; a body comes only from a 200; with no body, all three attempts were used or the last got another status. |
| RdCrm.AttemptsDelays | connectors/rdcrm.py:37-44 | One sleep per raised call or 429, in order: 5 s after a raised call, `60 * (k + 1)` s after a 429 on attempt `k`. |
| RdCrm.CopyMembers | connectors/rdcrm.py:59-63 | The first loop stores renamed members under their new name and the other non-relational members under their normalised name, in dict order. |
| RdCrm.AddRelational | connectors/rdcrm.py:66-74 | The relational block stores the fields of each truthy related object, in source order. |
| RdCrm.AddCustom | connectors/rdcrm.py:77-80 | Each custom field with a non-empty normalised label stores its value under that label, in order. |
| RdCrm.FlattenDeal | connectors/rdcrm.py:47-82 | The flattened deal is every assignment the three blocks make, in order, each later one overwriting an earlier one. |
| RdCrm.PlainEntriesFrom | connectors/rdcrm.py:59-63 | No plain column comes from one of the nine relational objects unless it is renamed, and every copied member gives one. |
| RdCrm.RelationalLookup | connectors/rdcrm.py:66-74 | `deal_stage_name`/`deal_stage_id`, `organization_name`, `user_name` and `deal_source_name` are present exactly when their object is truthy, holding its `name` (and the stage's `id`). |
| RdCrm.CustomEntriesFrom | connectors/rdcrm.py:77-80 | No custom column has an empty name, and every custom field whose label normalises to a non-empty name adds its value under it. |
| RdCrm.FlattenDeals | connectors/rdcrm.py:100-101 | The inner loop flattens every deal of a page, in order. |
| RdCrm.ExtractDeals | connectors/rdcrm.py:84-108 | The page loop requests exactly the pages `DealsRun` describes, ends as that run does, and returns the flattened deals of those pages. |
| RdCrm.DealsPaging | connectors/rdcrm.py:86-105 | Pages are requested as 1, 2, …; every page but the last was kept and held at least 200 deals; the loop crashed exactly when the last page raised, and otherwise finished on a page that stopped it or was short; the deals are the pages joined in order. |
| RdCrm.DealsPage | connectors/rdcrm.py:97-103 | A falsy body or falsy `deals` stops the loop; a body that is not a dict or a `deals` that is a number or boolean raises; otherwise the page keeps what the `for` loop visits. |
| RdCrm.ListBodyRaises | connectors/rdcrm.py:97 | A list body makes `data.get` raise at page 1, ending the run with nothing kept. |
| RdCrm.PipelineRows | connectors/rdcrm.py:120-127 | One row per stage of a pipeline. |
| RdCrm.StageLists | connectors/rdcrm.py:118-119 | One stage list per pipeline. |
| RdCrm.ExtractStages | connectors/rdcrm.py:110-128 | One stage request per pipeline, with that pipeline's id, and the rows of every pipeline in order. |
| RdCrm.AddPipeline | connectors/rdcrm.py:115-127 | One pass of the pipeline loop adds that pipeline's request and its rows. |
| RdCrm.StagesRows | connectors/rdcrm.py:120-127 | The inner loop gives one row per stage, each with the pipeline's id and name. |
| RdCrm.StageRowsLayout | connectors/rdcrm.py:115-127 | The rows of pipeline `i` sit together after those of the earlier pipelines, and each carries that pipeline's id and name with its stage. |
| RdCrm.StageRowsCount | connectors/rdcrm.py:115-127 | The row count is the sum of the pipelines' stage counts. |
| RdCrm.ExtractAll | connectors/rdcrm.py:130-134 | The tables are returned exactly when the deals loop does not raise, and are the deals run from page 1 and the stages of every pipeline. |
| RdMarketing.TokenCalls | connectors/rd_marketing.py:26-40 | A run of token calls gives one result per call and makes at most one request per call. |
| RdMarketing.TokenMemoised | connectors/rd_marketing.py:27-28 | With a truthy token cached, every call returns it and no request is made. |
| RdMarketing.TokenFirstSuccess | connectors/rd_marketing.py:27-40 | After the first call that obtains a truthy token, no further token request is made. |
| RdMarketing.TokenKept | connectors/rd_marketing.py:27-40 | Once a call returns a truthy token, every later call returns that same token. |
| RdMarketing.Connector.GetAccessToken | connectors/rd_marketing.py:26-40 | A truthy cache is returned without a request; otherwise a failed request or a reply without `access_token` raises, and the token read is cached and returned. |
| RdMarketing.Connector.ExtractAnalytics | connectors/rd_marketing.py:116-136 | The token comes first and its failure raises before any request; then the items, dates and outcome are those of the day-by-day loop, which raises exactly when one of its days raises (`in`, the subscript, the `for` or the tagging). |
| RdMarketing.Connector.ExtractWebhookLeads | connectors/rd_marketing.py:138-166 | Without both proxy credentials nothing is requested; otherwise the offsets are those of the paging loop and each lead becomes its flat dict, raising when a lead is not a dict. |
| RdMarketing.Connector.Extract | connectors/rd_marketing.py:187-198 | The three tables are returned exactly when neither token request, analytics day, lead paging nor lead flattening raises, and hold the emails, the conversions and the flat leads. |
| RdMarketing.SafeRequest | connectors/rd_marketing.py:42-58 | The helper's result, number of attempts and sleeps are those of the three-attempt retry loop. |
| RdMarketing.AttemptsShape | connectors/rd_marketing.py:43-58 | At most three attempts; every attempt before the last was a 429 or a raised call; a body comes only from a 200; an early stop is another status; each sleep is `Retry-After` for a 429 and 5 seconds after a raise. |
| RdMarketing.RetryAfterHonoured | connectors/rd_marketing.py:49 | Without `Retry-After` a 429 waits 30 seconds; with an integer header it waits that many. |
| RdMarketing.DayCount | connectors/rd_marketing.py:121-122 | There is at least one day exactly when the start is not after the stop. |
| RdMarketing.DayCountStep | connectors/rd_marketing.py:122-133 | Day `k` after the start is requested exactly when it is not after the stop. |
| RdMarketing.AnalyticsStep | connectors/rd_marketing.py:122-133 | One day adds its tagged items and its date, or ends the run raising when reading the day raises. |
| RdMarketing.AnalyticsLoop | connectors/rd_marketing.py:121-134 | The day loop returns the items, dates and outcome of the day-by-day run, in which a day raises as `DayItems` states. |
| RdMarketing.DayPage | connectors/rd_marketing.py:127-131 | The loop body reads one day exactly as `DayItems` does, raising at `in`, the subscript, the `for` or the tagging. |
| RdMarketing.DayItems | connectors/rd_marketing.py:127-131 | A day contributes nothing for no body, a falsy body or one without the key. It does not raise exactly when the value under the key of a dict body is a list of dicts or is empty. A non-empty contribution comes from a list, one tagged item per element. |
| RdMarketing.ExtendedObjects | connectors/rd_marketing.py:129-130 | Only a list can give the `for` dicts to tag; a non-empty dict or string gives strings. |
| RdMarketing.DayRaises | connectors/rd_marketing.py:128-130 | A number body, a list body holding the key, a null value and a string value under the key each raise. |
| RdMarketing.TagAll | connectors/rd_marketing.py:129-131 | Tagging succeeds exactly when every item is a dict, and each item gets `extraction_date` set to the day, its other fields kept. |
| RdMarketing.TagItems | connectors/rd_marketing.py:129-131 | The tagging loop computes the same tagged items. |
| RdMarketing.AnalyticsDays | connectors/rd_marketing.py:121-133 | One request per day in order, each for that day's date; a run that does not raise visits every day; it raises exactly when one of its days does, at the last request. |
| RdMarketing.DayPagesDated | connectors/rd_marketing.py:123-130 | Every item a day contributes carries that day's date. |
| RdMarketing.DatedByCons | connectors/rd_marketing.py:130 | An item dated by one of the requested dates stays so when an earlier date is added. |
| RdMarketing.AnalyticsDated | connectors/rd_marketing.py:121-133 | Every collected item carries the date of one of the requests made. |
| RdMarketing.AnalyticsNoDays | connectors/rd_marketing.py:122 | A start after the stop makes no request and yields nothing. |
| RdMarketing.FetchLeads | connectors/rd_marketing.py:143-159 | The offset loop returns the leads, offsets and outcome of the short-page paging run. |
| RdMarketing.LeadsPaging | connectors/rd_marketing.py:144-159 | The offsets are 0, 500, 1000, …; every page but the last was kept and full; the loop crashed exactly when the last page raised, and otherwise finished on a page that stopped it or was short; the leads are the pages joined in order. |
| RdMarketing.LeadPage | connectors/rd_marketing.py:152-158 | A falsy body, a body without `data` or a falsy `data` stops the loop; `in` on a number, the subscript on a list or string holding "data", and `extend` of a number or boolean raise; otherwise the page keeps what `extend` appends. |
| RdMarketing.NumberLeadsRaise | connectors/rd_marketing.py:155 | A first page whose `data` is a number makes `extend` raise, ending the run with nothing kept. |
| RdMarketing.FlattenLeads | connectors/rd_marketing.py:165 | The leads are flattened exactly when all are dicts, one flat dict per lead in order. |
| RdMarketing.FlatDict | connectors/rd_marketing.py:168-185 | A flattened dict holds no dict values, and under a parent every key starts with the parent and `_`. |
| RdMarketing.FlatMembers | connectors/rd_marketing.py:170-184 | The members flattened so far hold no dict values and carry the parent prefix. |
| RdMarketing.FlatValue | connectors/rd_marketing.py:171-184 | One member's entries hold no dict values, and every key starts with the member's joined key. |
| RdMarketing.FlatList | connectors/rd_marketing.py:175-180 | The elements of a list flatten under `key_1`, `key_2`, …, with no dict values. |
| RdMarketing.RekeyAll | connectors/rd_marketing.py:171 | Rekeying keeps the entries' order and values and joins each key to the parent. |
| RdMarketing.FlatDictFlat | connectors/rd_marketing.py:168-185 | A dict of scalars flattens to its own entries with the parent prefix, and to itself at the top level. |
| RdMarketing.RekeyDistinct | connectors/rd_marketing.py:171 | Distinct keys stay distinct after the parent prefix is joined. |
| RdMarketing.JoinKeyInjective | connectors/rd_marketing.py:171 | Joining a parent to two keys gives the same key only when the keys are equal. |
| RdMarketing.FlatMembersFlat | connectors/rd_marketing.py:170-184 | The scalar members flattened so far are the prefixed members so far. |
| RdMarketing.FlatScalar | connectors/rd_marketing.py:183-184 | A scalar value is one entry under its joined key. |
| RdMarketing.RekeyAllSnoc | connectors/rd_marketing.py:170-171 | Rekeying one more member appends that member's rekeyed entry. |
| RdMarketing.FlatScalarList | connectors/rd_marketing.py:174-180 | A non-empty list of non-dicts becomes `key_1 … key_n` holding the elements in order. |
| RdMarketing.FlatListScalar | connectors/rd_marketing.py:176-180 | The same, for the first `n` elements. |
| RdMarketing.FlatEmptyList | connectors/rd_marketing.py:181-182 | An empty list becomes one entry holding None. |
| RdMarketing.PrefixedShorter | connectors/rd_marketing.py:171 | Prefixes compose. |
| RdMarketing.PrefixedTrans | connectors/rd_marketing.py:171 | Keys prefixed by a longer prefix are prefixed by the shorter one too. |
| PayTour.LoginRequest | connectors/paytour.py:20-37 | Login is possible exactly when both application credentials or both e-mail and password are truthy. Application credentials win and use the application grant; otherwise the password grant for the store. Either way the `Basic` header decodes to `user:secret`. |
| PayTour.AuthResult | connectors/paytour.py:20-42 | Authentication succeeds exactly when a login request can be made, its reply did not fail and its body is a dict; the token is `access_token`, None when absent. |
| PayTour.Connector.constructor | connectors/paytour.py:10-17 | Each credential is the argument unless it is falsy, then the setting; the token starts as None. |
| PayTour.Connector.Authenticate | connectors/paytour.py:20-43 | Sends the login request when there is one; stores `access_token` (None when absent) only on success, so a failed reply or a body that is not a dict raises and leaves the token unchanged. |
| PayTour.Connector.FetchPaginated | connectors/paytour.py:51-84 | The loop, with `perPage` set once and `page` set before each request on the same dict, gives exactly the run `PageRun` describes from page 1 with the current bearer token. |
| PayTour.Connector.Extract | connectors/paytour.py:157-244 | Orders of the window (with their items), then tours, combos and coupons. The tables come back exactly when all four loops finished and no `int()` of a `quantidade` or a tour `id` raised, each with one row per record in order. Otherwise the first step that did not finish is reported, in source order. |
| PayTour.RequestFor | connectors/paytour.py:62-66 | Each request carries the bearer header, `perPage` 100, its page number, and every other parameter of the caller unchanged. |
| PayTour.Classify | connectors/paytour.py:66-80 | The outcomes partition the replies: a failed request, a body that is not a dict or `itens` that `extend` refuses escapes; falsy `itens` ends paging; otherwise the page keeps what `extend` appends and is the reported last page, not the last, or has a page count (or `info`) that cannot be compared. |
| PayTour.PageCompare | connectors/paytour.py:77-79 | An `info` that is not a dict raises; otherwise the comparison is the shared last-page test against `total_paginas`, default 1. |
| PayTour.Steps | connectors/paytour.py:64-82 | The `k`-th step is the reading of the `k`-th reply for page `page + k`. |
| PayTour.ReadReply | connectors/paytour.py:66-80 | The loop body's reading of one reply agrees with `Classify`. |
| PayTour.StepRunAt | connectors/paytour.py:64-82 | The run from the `i`-th step on is decided by that step. |
| PayTour.StepRequests | connectors/paytour.py:64-82 | The requests ask for consecutive pages with the same header, at most one per reply; paging passes a page only when it had records and was not the last reported. |
| PayTour.StepStop | connectors/paytour.py:67-80 | Paging finishes only at falsy `itens` or the reported last page, crashes only at a failed request or an incomparable page count, never stops quietly, and runs out of replies only after using them all. |
| PayTour.StepRecords | connectors/paytour.py:70-74 | The records are the pages' `itens` joined in request order. |
| PayTour.SinglePage | connectors/paytour.py:72-80 | A first page with records, a dict `info` and no reported `total_paginas` (default 1) is the only request, and its records are what `extend` appended. |
| PayTour.StepsUpToTotal | connectors/paytour.py:78-82 | Pages up to the reported last page `total` give exactly the requests up to it. |
| PayTour.PagesUpToTotal | connectors/paytour.py:78-82 | Replies that all have records and report `total` pages give exactly `total` requests from page 1. |
| PayTour.Flag | connectors/paytour.py:212 | The flag is 1 exactly when the value is truthy, and 0 exactly when it is not. |
| PayTour.OrderWindowSent | connectors/paytour.py:162-167 | Every orders request carries `updatedAtMin` = first day 00:00:00, `updatedAtMax` = last day 23:59:59, `includeItems` = 1, its page and `perPage` 100. |
| PayTour.OrderRows | connectors/paytour.py:172-201 | Raises exactly when some nested item's `quantidade` is refused by `int()`; otherwise one order row per order, and the item rows are every order's nested items in order. |
| PayTour.ItemRowsOf | connectors/paytour.py:191-201 | The inner loop raises exactly when an item's `quantidade` is refused by `int()`; otherwise one item row per nested item, in order. |
| PayTour.TourRows | connectors/paytour.py:206-213 | Raises exactly when a tour's `id` is refused by `int()`; otherwise one tour row per record, in order. |
| PayTour.IntCells | connectors/paytour.py:199-208 | In returned tables every `quantidade` and tour `id` is the integer `int()` gives. |
| PayTour.NullIntsRaise | connectors/paytour.py:199-208 | A null `quantidade` and a tour without `id` make `int()` raise. |
| PayTour.ItemRowOfOrder | connectors/paytour.py:193-199 | An item row's `pedido_id` is its order row's `id`, and a missing quantity is 1. |
| PayTour.OrderItemsLinked | connectors/paytour.py:172-201 | Every item row belongs to one of the orders: its `pedido_id` is that order row's `id`. |
| PayTour.OrderItemsCount | connectors/paytour.py:191-201 | The number of item rows is the total number of nested items. |
| PayTour.ActiveFlags | connectors/paytour.py:212-235 | `ativo` is 1 exactly when the record's flag (`ativo`, or `active` for coupons) is truthy, else 0. |
| Base64.ValueChar | connectors/paytour.py:27 | Reading a base64 character back gives the 6-bit value it was written from. |
| Base64.EncodeLength | connectors/paytour.py:27 | `b64encode` writes four characters per started group of three bytes. |
| Base64.DecodeEncode | connectors/paytour.py:27 | Decoding what `b64encode` wrote gives the bytes back (section 4 of RFC 4648). |
| Base64.Utf8Append | connectors/paytour.py:26-27 | `encode()` of a concatenation is the concatenation of the encodings. |
| Base64.Utf8Ascii | connectors/paytour.py:26-27 | The UTF-8 bytes of an ASCII string are its character codes. |
| Base64.BasicAuthDecodes | connectors/paytour.py:26-29 | The `Basic` header carries `user:secret` in base64 and decodes back to those bytes (section 2 of RFC 7617). |
| Omie.Url | connectors/omie.py:28 | The URL is the base URL, a slash, the endpoint without surrounding slashes, and a trailing slash. |
| Omie.UrlSlashes | connectors/omie.py:28 | Slashes around the endpoint make no difference to the URL. |
| Omie.PayloadFields | connectors/omie.py:21-26 | The payload holds exactly the call name, the app key, the app secret and `param`. |
| Omie.DefaultFields | connectors/omie.py:46-50 | Each page's dict starts with `pagina` = the page, `registros_por_pagina` = 100 and `apenas_importado_api` = `"N"`. |
| Omie.FilterOverrides | connectors/omie.py:51-52 | A filter entry overrides the default with the same name (even `pagina`); every other default is kept. |
| Omie.FirstListing | connectors/omie.py:60-63 | The position found is the first entry holding a list under a key other than `param`; no earlier entry does; -1 when none does. |
| Omie.Classify | connectors/omie.py:29-71 | The outcomes partition the replies: a failed request or a non-dict body escapes; no records ends paging; otherwise the page is kept and is the last one, not the last, or has a page count that cannot be compared. |
| Omie.PageDict | connectors/omie.py:46-52 | The loop builds each page's dict as the defaults updated with the filters, when there are any. |
| Omie.FindRecords | connectors/omie.py:59-63 | The loop over the reply's keys returns the records of the first listing entry. |
| Omie.FetchPaginated | connectors/omie.py:37-77 | The loop, starting at page 1, gives exactly the run `Run` describes. |
| Omie.RunRequests | connectors/omie.py:45-75 | The requests ask for consecutive pages, never past page 500; paging passes a page only when it had records and was not the last reported. |
| Omie.RunStop | connectors/omie.py:65-75 | Paging finishes exactly at a page without records, the reported last page, or page 500; it crashes exactly at a failed request, a non-dict body or an incomparable page count. |
| Omie.RunRecords | connectors/omie.py:65-68 | The records are the pages' listings joined in request order. |
| Omie.SinglePage | connectors/omie.py:70-71 | A first page with records and no `total_de_paginas` is the only request. |
| Omie.Ceiling | connectors/omie.py:73-75 | Pages that keep reporting more make requests up to page 500, and the loop finishes there. |
| Omie.CeilingReached | connectors/omie.py:73-75 | Replies that all report more than 500 pages give exactly 500 requests. |
| Omie.UpToTotal | connectors/omie.py:70-73 | Pages up to a reported last page `total` give exactly the requests up to `total`. |
| Omie.PagesUpToTotal | connectors/omie.py:70-73 | Replies that all report `total` pages (at most 500) give exactly `total` requests. |
| Omie.Status | connectors/omie.py:162 | The status is `Cancelado` exactly when `infoCadastro.cancelado` is `"S"`, and `Ativo` otherwise. |
| Omie.OrderFilterSent | connectors/omie.py:121-150 | Every sales-order request carries its page, 100 per page, `apenas_importado_api` = `N` and both window dates as `%d/%m/%Y`. |
| Omie.StatusOfOrder | connectors/omie.py:153-162 | An order row's status is `Cancelado` or `Ativo` per the flag, and a missing order total is written 0.0. |
| Omie.Extract | connectors/omie.py:116-168 | Clients (unfiltered), then the window's orders; an escaping exception in either listing loses both tables; otherwise one row per record, in order. |
| Leads2b.PageValue | connectors/leads2b.py:45-47 | A list body is the page itself; a dict body gives its truthy `data`; any other body gives `[]`. |
| Leads2b.Classify | connectors/leads2b.py:35-58 | The five outcomes partition the replies: 404 stops quietly; a raised request, an error status or a page that `extend` refuses escapes; a falsy page stops; fewer than 100 records keep them and stop; otherwise the page is full and paging goes on. The kept records are what `extend` appended. |
| Leads2b.ReadPage | connectors/leads2b.py:37-56 | The loop body's reading of one reply agrees with `Classify`. |
| Leads2b.PageRequest | connectors/leads2b.py:34-35 | The request for page `p` sends the dict with `page` set to `p`, replacing any earlier `page`. |
| Leads2b.FetchPaginated | connectors/leads2b.py:19-62 | The loop, starting at page 1 with `per_page` set, gives exactly the run `Run` describes. |
| Leads2b.RunRequests | connectors/leads2b.py:33-60 | The requests ask for consecutive pages, never past page 100, and paging passes a page only when it was full. |
| Leads2b.RunStop | connectors/leads2b.py:37-60 | Paging stops quietly exactly at a 404, escapes exactly at a raised request, and finishes exactly at a falsy page, a short page or a full page 100. |
| Leads2b.RunRecords | connectors/leads2b.py:49-52 | The records are the pages' records joined in request order; nothing before a 404 is lost. |
| Leads2b.Ceiling | connectors/leads2b.py:58-60 | Full pages all the way make exactly one request per remaining page up to 100, and the loop finishes. |
| Leads2b.CeilingReached | connectors/leads2b.py:58-60 | When every reply is a full page, exactly 100 requests are made. |
| Leads2b.LastParams | connectors/leads2b.py:31-34 | After paging, the dict holds `per_page` and the last page asked for. |
| Leads2b.ReusedPage | connectors/leads2b.py:28-34 | Setting `per_page` and `page` again on a dict that already went through paging gives the same dict as setting them on the original. |
| Leads2b.ReusedParams | connectors/leads2b.py:99-121 | The negotiations listing, run on the filter dict the leads listing updated in place, sends the same requests as with the original filter. |
| Leads2b.FunnelStage | connectors/leads2b.py:113 | `funnel_stage` is the stage's `name` when the field is a dict, else the field itself. |
| Leads2b.NegotiationValue | connectors/leads2b.py:128 | A falsy value is 0.0; a truthy one is `float()` of it. |
| Leads2b.RowIds | connectors/leads2b.py:109-128 | Ids are `str()` of the field, `"None"` when absent; a missing value is 0.0. |
| Leads2b.Extract | connectors/leads2b.py:95-137 | Leads, then negotiations, with the same date filter; a raised request in either listing escapes the connector, otherwise the tables hold one row per listed record, in order. |
| Shopify.WithLimit | connectors/shopify.py:29-34 | No parameters become `{limit: 250}`; given parameters are kept, with `limit = 250` added only when absent. |
| Shopify.LimitKept | connectors/shopify.py:33-34 | A caller's `limit` wins over the default, and every other parameter is passed through unchanged. |
| Shopify.CloseFrom | connectors/shopify.py:50 | The scan for the `>` that closes the target stops at the first `>` or at the end. |
| Shopify.SpacesFrom | connectors/shopify.py:50 | The `\s*` scan stops at the first non-space or at the end. |
| Shopify.MatchAtNext | connectors/shopify.py:50 | The pattern matches at an index with group `u` exactly when the text there is `<u>;`, white space and `rel="next"`, `u` being non-empty without `>`. |
| Shopify.MatchGivesNext | connectors/shopify.py:50 | A match at an index is such a `next` link. |
| Shopify.NextAtMatches | connectors/shopify.py:50 | A `next` link at an index is matched there with its target as the group. |
| Shopify.SliceUnclosed | connectors/shopify.py:50 | A stretch without `>` is a valid target. |
| Shopify.SliceSpace | connectors/shopify.py:50 | A stretch of spaces is a valid gap. |
| Shopify.UnclosedSlice | connectors/shopify.py:50 | A valid target has no `>`. |
| Shopify.SpaceSlice | connectors/shopify.py:50 | A valid gap is all white space. |
| Shopify.RelStart | connectors/shopify.py:50 | `rel="next"` starts with a non-space, so the gap ends before it. |
| Shopify.CloseAt | connectors/shopify.py:50 | The closing scan finds the first `>`. |
| Shopify.SpacesAt | connectors/shopify.py:50 | The space scan finds the first non-space. |
| Shopify.SearchNone | connectors/shopify.py:50-55 | The search finds nothing exactly when the pattern matches at no index. |
| Shopify.FirstMatch | connectors/shopify.py:50 | The leftmost match index lies between the start and the end. |
| Shopify.SearchLeftmost | connectors/shopify.py:50-52 | The search returns the group of the leftmost match, with no match before it. |
| Shopify.SearchFrom | connectors/shopify.py:50 | Skipping a stretch without matches does not change what the search finds. |
| Shopify.LinkHeaderNext | connectors/shopify.py:47-57 | From a header with an optional `previous` link and an optional `next` link, the `next` target is read back, and none when there is no `next` link. |
| Shopify.NextTextMatches | connectors/shopify.py:50-52 | A `next` link at the search start is what the search returns. |
| Shopify.NextTextAt | connectors/shopify.py:50 | The text of a `next` link matches the pattern with its target as the group. |
| Shopify.PrevNoMatch | connectors/shopify.py:50 | No match starts inside a `previous` link or before the next `<`. |
| Shopify.PrevLink | connectors/shopify.py:50 | A `previous` link does not match at its start. |
| Shopify.LimitParams | connectors/shopify.py:29-34 | The first request's parameters are the caller's with the default limit. |
| Shopify.ReadPage | connectors/shopify.py:42-57 | A page gives what `extend` appends from the value under the endpoint's last path segment, None when that raises, and the `next` URL of its `Link` header. |
| Shopify.PageData | connectors/shopify.py:43-44 | A body that is not a dict, or a value `extend` refuses, raises; otherwise the page is what `extend` appends. |
| Shopify.FetchPaginated | connectors/shopify.py:22-59 | The loop returns the records, requests and outcome of the `Link`-header paging run. |
| Shopify.RunRequests | connectors/shopify.py:36-53 | The first request goes to the listing URL with its parameters; each later one goes to the previous page's `next` URL without parameters. |
| Shopify.RunStop | connectors/shopify.py:36-58 | A failed request or a page that cannot be read raises; paging finishes at a readable page without a `next` link; it only runs out of replies when every page had one. |
| Shopify.RunItems | connectors/shopify.py:39-44 | The records are the served pages' records joined in order, all from successful requests whose pages were read. |
| Shopify.SinglePage | connectors/shopify.py:27-57 | A readable first page without a `next` link is the only request, sent with the limited parameters, and what `extend` appended from it is the result. |
| Shopify.CustomerId | connectors/shopify.py:143 | The customer id is absent exactly when the order has no truthy `customer`, and otherwise is `str` of its `id`. |
| Shopify.ItemDefaults | connectors/shopify.py:148-153 | An item row carries its order's id, and a missing quantity is 1. |
| Shopify.RowDefaults | connectors/shopify.py:143-171 | A missing `orders_count` is 0, and an order without `customer` has no customer id. |
| Shopify.OrderRows | connectors/shopify.py:129-156 | Raises exactly when some line item's `quantity` is refused by `int()`; otherwise one order row per order, and the item rows are each order's line items in order, joined. |
| Shopify.ItemRowsOf | connectors/shopify.py:146-156 | Raises exactly when a line item's `quantity` is refused by `int()`; otherwise the item rows of one order are its line items in order. |
| Shopify.CustomerRows | connectors/shopify.py:165-175 | Raises exactly when a customer's `orders_count` is refused by `int()`; otherwise one customer row per record, in order. |
| Shopify.IntCells | connectors/shopify.py:153-171 | In returned tables every `quantity` and `orders_count` is the integer `int()` gives. |
| Shopify.BadIntsRaise | connectors/shopify.py:153-171 | A null `quantity` and a list `orders_count` make `int()` raise. |
| Shopify.ItemsOfOrders | connectors/shopify.py:129-156 | There is one order row per order, as many item rows as line items, and every item row names the id of one of the orders. |
| Shopify.Extract | connectors/shopify.py:112-181 | The tables come back exactly when both listings finish and no `int()` of a `quantity` or an `orders_count` raises; otherwise the first step that did not finish is reported, in source order; rows are built from the fetched records. |
| ActiveCampaign.ReadBody | connectors/active_campaign.py:28-32 | A body that is not an object raises before anything is collected; otherwise the page's items are `data_key`'s value (default `[]`), and a missing `meta` counts as total 0. |
| Json.Extended | connectors/active_campaign.py:30 | `extend` appends a list's elements, a dict's distinct keys in first-occurrence order, or a string's characters, and raises exactly for null, a number or a boolean. |
| ActiveCampaign.LargeTotalAdvances | connectors/active_campaign.py:30-36 | A non-empty page whose total is the float `1e+16` moves the offset on while the next offset is below 10^16, since `int()` reads the exponent form. |
| ActiveCampaign.Classify | connectors/active_campaign.py:25-47 | A status other than 200 and 429 stops. An exception, a non-object body or items that `extend` refuses wait 5 s, and a 429 waits 60 s, all retrying the same offset. A page advances exactly when `extend` accepts its items, its total is readable, `offset + 100 < total` and its items are truthy. A final or advancing page collects what `extend` appended. |
| ActiveCampaign.ReadReply | connectors/active_campaign.py:25-47 | The loop body's reading of one reply agrees with `Classify`. |
| ActiveCampaign.FetchAllPages | connectors/active_campaign.py:17-49 | The loop over the replies gives exactly the run `Run` describes, starting at offset 0. |
| ActiveCampaign.RunOffsets | connectors/active_campaign.py:20-36 | At most one request per reply; the first is at the starting offset, and each next offset is 100 further after an advancing page and unchanged after a wait. |
| ActiveCampaign.RunDelays | connectors/active_campaign.py:36-47 | Every request that lets the loop go on is followed by its wait: 0.25 s after an advance, 60 s after a 429, 5 s after an exception. |
| ActiveCampaign.RunStop | connectors/active_campaign.py:33-44 | Paging ends `Finished` only at a final page, `RequestFailed` only at an unexpected status, never by an escaping exception, and runs out of replies only after using all of them. |
| ActiveCampaign.RunItems | connectors/active_campaign.py:29-30 | The collected records are exactly what each request added, joined in request order. |
| ActiveCampaign.MissingTotal | connectors/active_campaign.py:29-34 | A readable page without `meta.total` ends paging with what `extend` appended; if `extend` refuses its items, the same offset is retried after 5 s. |
| ActiveCampaign.UnextendableRetried | connectors/active_campaign.py:29-30 | A page whose items are null, a number or a boolean adds nothing, and the same offset is requested again after 5 s, whatever total it reports. |
| ActiveCampaign.UnreadableTotal | connectors/active_campaign.py:30-47 | A page whose total `int()` refuses has what `extend` appended collected, and is then fetched again at the same offset, so repeated replies collect it twice. |
| ActiveCampaign.ExtractAll | connectors/active_campaign.py:51-68 | The three tables are the complete runs over `deals`, `dealStages` and `contacts`, in that order. |
| Silbeck.Url | connectors/silbeck.py:25 | The URL is the base URL, a slash, then the endpoint with no leading or trailing slash left. |
| Silbeck.UrlSlashes | connectors/silbeck.py:25 | Slashes around an endpoint make no difference: `e`, `/e` and `e/` give the same URL. |
| Silbeck.FetchData | connectors/silbeck.py:21-43 | A 401, an error status or a raised request gives `[]`; a list body is returned as is; a body that is neither list nor dict gives `[]`. |
| Silbeck.DictBody | connectors/silbeck.py:39 | For a dict body, `data` wins whenever present (whatever its value), else `reservas`, else `[]`. |
| Silbeck.ReservaFallbacks | connectors/silbeck.py:93-94 | The code is `codigo` unless falsy, then `numero`; the date is `data_reserva` unless falsy, then `created_at`. |
| Silbeck.ReservaTotal | connectors/silbeck.py:96 | The total is `float(valor_total)`, and a falsy total is written as 0.0. |
| Silbeck.ClienteSource | connectors/silbeck.py:97-98 | Name and e-mail come from the nested `cliente` dict exactly when it is a dict, else from the flat fields. |
| Silbeck.ClienteFallbacks | connectors/silbeck.py:92-111 | `cpf_cnpj` is `cpf` unless falsy, then `cnpj`; ids are `str()` of the value and `"None"` when absent. |
| Silbeck.RequestUrls | connectors/silbeck.py:81-104 | Extraction makes two requests, reservations then customers, with the same period filter. |
| Silbeck.ParamsSent | connectors/silbeck.py:81-84 | The filter holds exactly `data_inicio` and `data_fim` with the given days. |
| Silbeck.Extract | connectors/silbeck.py:77-120 | One reservation row per listed record and one customer row per listed record, in order, each built by its row mapping. |
| HubSpot.AllProperties | connectors/hubspot.py:18-25 | The property names, one per listed property and in order; `[]` when the listing raised. |
| HubSpot.MapOfKeys | connectors/hubspot.py:32-38 | The stage mapping's keys are exactly the ids of the stages assigned. |
| HubSpot.MapOfLast | connectors/hubspot.py:34-38 | An id maps to the entry of its last assignment: a repeated stage id overwrites the earlier one. |
| HubSpot.LaterPipelineWins | connectors/hubspot.py:32-38 | A stage of a later pipeline is stored with that pipeline's label, whatever earlier pipelines stored under the same id. |
| HubSpot.CreateStageMapping | connectors/hubspot.py:27-42 | The nested loop over pipelines and stages builds the assignment-order mapping; `{}` when the listing raised. |
| HubSpot.DealFilter | connectors/hubspot.py:54-70 | Every deal request sends the properties, limit 100 and the cursor; it is a search on `createdate GTE <day>T00:00:00.000Z` exactly when a non-empty start date is given. |
| HubSpot.DealRowKeeps | connectors/hubspot.py:73-81 | A deal row carries `hs_object_id` = the deal's id, and every other property keeps its value unless it is one of the two stage fields written. |
| HubSpot.DealRowMapped | connectors/hubspot.py:77-81 | A deal whose `dealstage` is in the mapping gains that stage's label and its pipeline's name. |
| HubSpot.DealRowUnmapped | connectors/hubspot.py:77-78 | A deal whose stage is unmapped gains only `hs_object_id`, exactly as a contact row does. |
| HubSpot.PageRows | connectors/hubspot.py:72-83 | The inner loop gives one row per record of the page, in order. |
| HubSpot.FetchAll | connectors/hubspot.py:52-91 | The cursor loop, starting from `after = None`, gives exactly the run `Run` describes. |
| HubSpot.RunRequests | connectors/hubspot.py:85-87 | At most one request per page; the first sends `after = None`, each later one the cursor of the page before it. |
| HubSpot.RunStop | connectors/hubspot.py:85-91 | The loop finishes at a page without `paging`, stops quietly at a raised call or a `paging` without `next`, and uses up the supply only when every page went on. |
| HubSpot.RunItems | connectors/hubspot.py:72-91 | The collected rows are those of every answered page, in request order; an exception keeps everything collected before it. |
| HubSpot.ExtractDeals | connectors/hubspot.py:44-93 | The deals are the cursor run with the listed properties, the stage mapping's enrichment and the optional date filter. |
| HubSpot.ExtractContacts | connectors/hubspot.py:95-121 | The contacts are the cursor run over the plain listing, each row with its `hs_object_id`. |
| HubSpot.ExtractAll | connectors/hubspot.py:123-128 | The two tables are the deals run and the contacts run. |
| GoogleAds.CustomerIdsSplit | connectors/google_ads.py:20-21 | The ids are empty exactly when both the argument and the setting are falsy; otherwise joining them with commas gives the configured string back, and no id holds a comma. |
| GoogleAds.Clean | connectors/google_ads.py:76 | A cleaned id holds no `-`. |
| GoogleAds.Customers | connectors/google_ads.py:75-78 | No customer queried has an empty id. |
| GoogleAds.CustomersFewer | connectors/google_ads.py:75-78 | Never more customers are queried than ids configured. |
| GoogleAds.CustomersKept | connectors/google_ads.py:75-78 | Ids that are already clean and non-empty are all queried, unchanged and in order. |
| GoogleAds.CustomersEmpty | connectors/google_ads.py:77-78 | Ids that clean to nothing are all skipped. |
| GoogleAds.CampaignsOnce | connectors/google_ads.py:84-99 | Within a customer each campaign appears once: the rows' ids are distinct, they are exactly the ids of the result rows, and every row names the customer. |
| GoogleAds.CampaignsFirst | connectors/google_ads.py:88-99 | The first result row of each campaign is the one that gives its campaign row. |
| GoogleAds.CampaignsIndependent | connectors/google_ads.py:75-116 | Customers are independent: the campaign rows of a list of customers are those of each part, joined; a stream that raises affects only its own customer. |
| GoogleAds.InsightsIndependent | connectors/google_ads.py:75-116 | The same independence for the insight rows. |
| GoogleAds.InsightsPerRow | connectors/google_ads.py:101-110 | One insight row per result row of every customer. |
| GoogleAds.AddRow | connectors/google_ads.py:88-110 | The innermost loop body adds a campaign row only the first time an id is seen, and always one insight row with cost `cost_micros / 1000000.0`. |
| GoogleAds.AddBatch | connectors/google_ads.py:87-110 | The loop over a batch's rows keeps the seen set, campaigns and insights equal to those of all rows handled so far. |
| GoogleAds.CustomerRows | connectors/google_ads.py:82-110 | For one customer, the campaigns are the first-seen campaign rows and the insights are one row per result row, over all batches in order, with a fresh seen set. |
| GoogleAds.Extract | connectors/google_ads.py:51-121 | One search per cleaned, non-empty customer id, in order, over the date window; the tables are every customer's campaigns and insights, customer after customer. |
| GSheets.ExportUrlParts | scripts/gsheets_manager.py:11-21 | The export URL is the fixed head, the sheet id, the fixed `/export?format=csv&gid=` part and the tab id, each readable back from its place. |
| GSheets.ClientNameFirst | scripts/gsheets_manager.py:38 | The client name is the first truthy one of `project_id`, `company_name` and `name`, else `'unknown'`. |
| GSheets.LowerTwice | scripts/gsheets_manager.py:41 | Lower-casing a character twice is lower-casing it once. |
| GSheets.LStripChars | scripts/gsheets_manager.py:41 | Stripping on the left keeps only characters of the input. |
| GSheets.RStripChars | scripts/gsheets_manager.py:41 | Stripping on the right keeps only characters of the input. |
| GSheets.SlugShape | scripts/gsheets_manager.py:41 | A slug holds no upper-case letter, space or `-`, and has no white space at either end. |
| GSheets.SlugIdempotent | scripts/gsheets_manager.py:41 | Slugging a slug changes nothing. |
| GSheets.FilledIds | scripts/gsheets_manager.py:43-47 | A truthy `project_id` or `company_id` is kept and an empty one becomes the slug of the client name; every other column is untouched. |
| GSheets.UnknownDropped | scripts/gsheets_manager.py:38-51 | A row with no truthy `project_id`, `company_name` or `name` gets the id `unknown` and is dropped. |
| GSheets.TabDataRows | scripts/gsheets_manager.py:35-53 | The rows returned are the filled rows of exactly the kept records, in sheet order, and no more than the sheet had. |
| GSheets.UnnamedEmpties | scripts/gsheets_manager.py:41-56 | A row whose client name is not a string makes `.lower()` raise, so the whole tab reads as empty; so does a failed read. |
| GSheets.FillRow | scripts/gsheets_manager.py:38-47 | Processing a row succeeds exactly when its client name is a string, and gives the row with both ids filled. |
| GSheets.KeepFilled | scripts/gsheets_manager.py:50 | A row is kept exactly when its filled `project_id` is not `unknown`. |
| GSheets.AllNamedSnoc | scripts/gsheets_manager.py:35-41 | One more row whose name is a string extends the rows processed without raising. |
| GSheets.AddRecord | scripts/gsheets_manager.py:35-51 | One loop step either raises, which empties the result, or appends the filled row when it is kept. |
| GSheets.GetTabData | scripts/gsheets_manager.py:16-56 | The tab is read from its export URL, and the result is the filled kept rows, or empty when reading or any row raised. |
| Json.FloatPlus | connectors/pipedrive.py:62 | Adding to `inf`, `-inf` or `nan` leaves it unchanged. A whole float sums exactly to `digits.0` while it and the sum stay within 2^53. Any other result is a float or the symbolic sum. |
| Json.WholeFloatRepr | connectors/pipedrive.py:62 | The repr `digits.0` of a whole number reads back as that number. |
| Json.WholeFloatPlus | connectors/pipedrive.py:62 | A whole float within 2^53 plus `n` is the float written with the digits of the exact sum. |
| Json.PyInt | connectors/active_campaign.py:32 | `int()` keeps an integer, parses text, and reads an exponent-form float through its nearest double truncated toward zero; it raises for null, lists, dicts, `inf`, `-inf` and `nan`. |
| Json.RoundDoubleNearest | connectors/active_campaign.py:32 | The double read for an integer is a multiple of the spacing of doubles at its size, at most half a spacing away, and an integer already on that grid is unchanged. |
| Json.UlpSpacing | connectors/active_campaign.py:32 | At or above 2^53, an integer divided by the spacing of doubles at its size keeps exactly 53 binary digits. |
| Json.ScalePow | connectors/active_campaign.py:32 | Scaling by ten `k` times is multiplying by 10^k. |
| Json.LargeExpTrunc | connectors/paytour.py:77-80 | The repr `1e+16` reads as 1 times 10^16, and the double nearest that is exactly 10^16. |
| Json.LargeFloatInt | connectors/active_campaign.py:32 | `int()` of the float `1e+16` is 10^16. |
| Text.LastSegment | connectors/shopify.py:42 | The resource key holds no `/`. |
| Text.LastSegmentSuffix | connectors/shopify.py:42 | The resource key is the endpoint's suffix after its last `/`, or the whole endpoint when it has none. |
| Text.LastSegmentWhole | connectors/shopify.py:42 | The resource key is the whole endpoint exactly when the endpoint has no `/`. |
| Text.Split | connectors/google_ads.py:21 | `split(',')` gives at least one part. |
| Text.JoinSplit | connectors/google_ads.py:21 | Joining the parts with the separator gives back the string. |
| Text.SplitPartsFree | connectors/google_ads.py:21 | No part contains the separator. |
| Text.SplitAt | connectors/google_ads.py:21 | Two separator-free strings joined by the separator split back into exactly those two. |
| Http.ShortPaging | connectors/rdcrm.py:87-108 | A short-page loop requests consecutive pages, every page but the last kept and full; it crashes exactly when the last page raised, and otherwise finishes on a page that stopped it or was short, unless the replies ran out. |
| Http.ShortItems | connectors/rdcrm.py:87-108 | A short-page loop's items are its pages' items joined in order. |
| Http.CeilScaled | connectors/omie.py:70 | The result is the least integer at or above `m * 10^k`, which is what an integer page is compared against. |
| Http.AtLastPage | connectors/omie.py:70 | With an integer total the last-page test is `page >= total`, and a text, null, list or dict total makes it raise. A plain float total is compared through its ceiling; an exponent-form total through the double nearest it when the exponent is not negative, else through its ceiling. `inf` and `nan` are never reached and `-inf` always is. |
| Json.ExpReprLarge | connectors/paytour.py:77-80 | The repr `1e+16` that `json.loads` gives for `1e16` reads as 1 times 10^16. |
| Http.NotPlainLarge | connectors/paytour.py:77-80 | The repr `1e+16` is not read as a plain `digits.digits` float. |
| Http.LargeFloatTotal | connectors/paytour.py:77-80 | Every page below 10^16 is short of a `1e+16` page count, which is compared as the double 10^16, so paging goes on. |

## Left out

- HTTP transport, SDK clients and authentication headers are not modelled. Replies, SDK results and raised exceptions are inputs. Request headers and API tokens are not part of the recorded requests, except PayTour's `Authorization`.
- JSON decoding errors (`response.json()` on a body that is not JSON) are not modelled: every body is a decoded value.
- Reading a key of a value that is not a dict reads as absent, where the source would raise `AttributeError`. A `for` loop over a value that is not a list visits nothing, where the source would visit a dict's keys or a string's characters, or raise `TypeError` for null or a number. This reading applies to the row builders and flatteners, to RD CRM's pipeline and stage listings, and to Silbeck's two listing loops, which iterate `data` outside the `try` (a dict, a string or null there raises in the source and is an empty listing in the model). These can therefore yield fewer rows where the source would raise.
- The page readers of the paging loops are the exception: there the model raises where the source does. `extend` (and RD CRM's `for` over `deals`) appends a list's elements, a dict's keys or a string's characters, and raises for null, a number or a boolean. Such a raise, or a `.get` on a body that is not a dict, ends the loop `Crashed` in Pipedrive (v1 and v2), RD CRM deals, RD Marketing webhook leads, PayTour, Shopify and Leads2b. ActiveCampaign retries the page instead, inside its `try`. Omie's `keys()`, Silbeck's `try`, the flattening of RD Marketing leads and RD Marketing's analytics days (`in`, the subscript, the `for` and the tagging) also follow the source.
- pandas is not modelled: `DataFrame`, `json_normalize`, `read_csv`, `dropna` and `fillna` are left out. Tables are sequences of rows, and the tenant sheet arrives as the records `read_csv` and the two `dropna`/`fillna` calls give.
- `get_tables_ddl` of every connector is not modelled. It only returns constant DDL text.
- The settings objects (`config/settings.py`) and the abstract `connectors/base.py` are not part of this model. Settings values are parameters.
- Floating point is modelled only partly. Adding an integer to a whole float within 2^53 is exact, and any other float sum is a symbolic value. A page count in plain repr form is compared through its exact ceiling. An exponent-form count with a non-negative exponent is compared as the double nearest its decimal, and one with a negative exponent through its exact ceiling. `int()` of a float reads it the same way, truncated toward zero. `float(...)` of a float, a boolean or an integer within 2^53 gives its Python `repr`; any other `float` cast (text, large values, values the cast rejects) is an opaque `JCast` value, and `int()` of such a value is read as raising. The cast's `ValueError` is therefore not modelled. Google Ads' `cost_micros / 1000000.0` is kept as an exact rational quotient rather than a float.
- Unicode is covered only partly. Lower-casing covers ASCII and Latin-1 capitals. Accent stripping (NFD/NFKD and the `Mn` category) covers the Latin-1 letters. `\s` and `str.isspace` use Python's whitespace set.
- `int()` in the row builders is checked where the source calls it (PayTour's `quantidade` and tour `id`, Shopify's `quantity` and `orders_count`): when it raises, the extraction ends `Crashed` with no tables.
- `int()` of text is modelled on signed decimal digits, with surrounding whitespace stripped as Python does. Its underscore form (`1_000`) is treated as rejected.
- Real time is not modelled. Sleeps are recorded as a log of delays in the retry helpers (RD CRM, RD Marketing, ActiveCampaign). The fixed pacing sleeps between pages (Pipedrive, RD CRM deals, RD Marketing days, HubSpot) are left out.
- Logging and `print` are left out.
- The PayTour constructor's call to `_authenticate` is modelled as the separate `PayTour.Connector.Authenticate` step that the caller runs after construction.
- Loops with no bound in the source (Pipedrive, Shopify, ActiveCampaign retries, HubSpot cursors, RD CRM deals, RD Marketing webhook) run over a finite supply of replies. When the supply ends, the run stops with `OutOfReplies`, which the source has no counterpart for.
- RdMarketing.Connector.Extract: when the webhook replies run out, the leads table holds the pages gathered so far.
- Once an exception escapes a loop, the connector's partial results are not returned. The model marks the run `Crashed` and its enclosing `extract` as an error. The exceptions are Google Ads' per-customer errors, whose earlier rows are kept, as the source does, and HubSpot, whose exceptions inside the loops end paging quietly, as the source does.
- Header names are compared exactly, where `requests` compares them case-insensitively.
- `connectors/meta_ads.py`, `connectors/datalake.py`, `connectors/clickhouse_client.py`, `flows/*.py` and `scripts/simulate_paytour.py` are not part of this model.
- Line 58 of `scripts/gsheets_manager.py` is a stray code fence, which stops the module importing. `get_tab_data` is modelled as the code above it intends.
