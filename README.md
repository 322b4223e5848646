# CréaScope landing site: leads, subscription and blog, in Dafny

This project models the server-side core of the CréaScope marketing site, a
Next.js application. The site collects beta sign-ups, lets the team export
them, and serves a small blog. The model covers three pieces:

- **Lead export** (`GET /api/leads`): the CSV serialiser `toCsv` and its
  field escaper `esc`, and the export-token gate. A reference RFC 4180
  reader is defined beside them. The export is proved lossless against it:
  reading the CSV back gives the header and each lead's three fields, in
  order.
- **Subscription** (`POST /api/subscribe`): the honeypot, the email check
  `/.+@.+\..+/`, and the case-insensitive deduplicating append to the lead
  file. It also covers the forwarding decision and the audience step:
  configured id, else the first listed audience with the configured name,
  else a newly created one.
- **Blog** (`src/content/blog/posts.ts`): the `BlogPost`/`ContentBlock`
  types and the three-article table. `getAllPosts` is modelled as an
  insertion sort that puts newer articles first, and `getPostBySlug` as a
  find-first lookup.

Module layout:

| file | module | contents |
|---|---|---|
| `wrappers.dfy` | `Wrappers` | `Option`; `Truthy` (JavaScript truthiness of an optional string) |
| `store.dfy` | `Store` | the stored `Lead` record; `StoreFile` (outcome of reading `data/leads.json`); `ReadLeads` |
| `leads_route.dfy` | `Leads` | escaping, `ToCsv`, the reference reader, the round trips, `Get` |
| `subscribe_route.dfy` | `Subscribe` | `Lower`, `FindLead`, `AppendLead`, `CheckEmail`, the audience step, `Post` |
| `blog_posts.dfy` | `Blog` | content types, JavaScript string order, ISO dates, the sort, the lookup, the table |

I/O is turned into values:

- The lead file is a `StoreFile` value: missing, unparsable, not an array,
  or a list of records. `AppendLead` and `Post` return the file as it is
  afterwards.
- The request body, headers, clock and environment variables are
  parameters.
- The email provider is a `Provider` value: the audiences it would list and
  the id it would give a new audience. `Post` reports which provider calls
  would be made as an `Effects` value.

## Model

| member | source | states |
|---|---|---|
| `Leads.DoubleQuotes` | src/app/api/leads/route.ts:14 | the global replace never shortens a value and leaves a value without double quotes unchanged |
| `Leads.DoubleQuotesAppend` | src/app/api/leads/route.ts:14 | the quote doubling distributes over concatenation |
| `Leads.CollapseDoubled` | src/app/api/leads/route.ts:14 | collapsing `""` back to `"` undoes the doubling exactly |
| `Leads.Escape` | src/app/api/leads/route.ts:10-17 | `esc` changes a value exactly when it contains a double quote, a comma or an LF; a changed value is wrapped in double quotes |
| `Leads.EscapeRoundTrip` | src/app/api/leads/route.ts:10-17 | stripping the quotes and collapsing the doubled quotes of an escaped value gives the value back |
| `Leads.EscapeInjective` | src/app/api/leads/route.ts:10-17 | two different values never escape to the same field text |
| `Leads.EscapeQuotedExample` | src/app/api/leads/route.ts:13-14 | `He said "hi", ok` is written as `"He said ""hi"", ok"` |
| `Leads.JoinStartsWithFirst` | src/app/api/leads/route.ts:18 | a non-empty join starts with its first part |
| `Leads.JoinSnoc` | src/app/api/leads/route.ts:18 | joining a list with one more part appends the separator and that part |
| `Leads.JoinThree` | src/app/api/leads/route.ts:18 | joining three parts puts the separator between consecutive parts |
| `Leads.ToCsv` | src/app/api/leads/route.ts:7-19 | the document starts with the header line `email,createdAt,ua`; with no leads it is the header line alone |
| `Leads.ToCsvSnoc` | src/app/api/leads/route.ts:7-19 | exporting one more lead appends an LF and that lead's row to the previous document, so the rows follow the input order one per lead |
| `Store.ReadLeads` | src/app/api/leads/route.ts:31-38 | a parsed array is read as its records; a reader sees records only when the file parsed to an array, so a missing, unparsable or non-array file reads as no leads |
| `Leads.RowShape` | src/app/api/leads/route.ts:9-18 | a lead's row is its escaped email, createdAt and ua, comma-separated, with a missing or empty field written as the empty string |
| `Leads.PlainRow` | src/app/api/leads/route.ts:9-18 | when no field needs quoting, the row is the three raw values separated by commas |
| `Leads.ToCsvSingleLead` | src/app/api/leads/route.ts:7-19 | the lead `a@b.com`, `2024-01-01T00:00:00Z`, `UA1` exports as the header line, an LF and `a@b.com,2024-01-01T00:00:00Z,UA1` |
| `Leads.DoubleQuotesTwo` | src/app/api/leads/route.ts:14 | both quotes between quote-free text are doubled |
| `Leads.ParseUnquoted` | src/app/api/leads/route.ts:10-17 | reference reader: an unquoted field runs up to the next comma or LF and holds neither |
| `Leads.ParseQuotedBody` | src/app/api/leads/route.ts:14 | reference reader: a quoted field's body always consumes input |
| `Leads.ParseField` | src/app/api/leads/route.ts:10-17 | reference reader: reading a field never grows the remaining text |
| `Leads.ParseFields` | src/app/api/leads/route.ts:18 | reference reader: a record has at least one field |
| `Leads.QuotedBodyRoundTrip` | src/app/api/leads/route.ts:14 | the reader recovers a value from its doubled-quote body and closing quote, leaving the rest untouched |
| `Leads.UnquotedRoundTrip` | src/app/api/leads/route.ts:16 | the reader recovers an unquoted value that holds no comma or LF |
| `Leads.FieldRoundTrip` | src/app/api/leads/route.ts:10-17 | the reader recovers every value from its escaped form, whatever comma, LF or end of text follows |
| `Leads.QuotedFieldRoundTrip` | src/app/api/leads/route.ts:13-14 | the reader recovers a value from its quoted form |
| `Leads.PlainFieldRoundTrip` | src/app/api/leads/route.ts:16 | the reader recovers a value that needs no quoting from the value itself |
| `Leads.FieldsRoundTrip` | src/app/api/leads/route.ts:18 | the reader recovers a row's fields from `r.map(esc).join(",")` |
| `Leads.RecordsRoundTrip` | src/app/api/leads/route.ts:18 | the reader recovers every row from the LF-joined lines |
| `Leads.ToCsvRoundTrip` | src/app/api/leads/route.ts:7-19 | reading the export gives the header and then each lead's three field values, in input order |
| `Leads.PresentedToken` | src/app/api/leads/route.ts:24 | the presented token is non-empty and is the query parameter or the header |
| `Leads.Get` | src/app/api/leads/route.ts:24-40 | 401 exactly when a non-empty `EXPORT_TOKEN` differs from the presented token; otherwise the body is `toCsv` of the stored leads, where a missing, unparsable or non-array file gives no leads |
| `Leads.ExportAccess` | src/app/api/leads/route.ts:24-28 | the export is served exactly when no token is configured, or the query token equals it, or there is no query token and the header token equals it |
| `Subscribe.Lower` | src/app/api/subscribe/route.ts:26 | lower-casing keeps the length |
| `Subscribe.LowerIdempotent` | src/app/api/subscribe/route.ts:26 | lower-casing twice is lower-casing once |
| `Subscribe.FindLead` | src/app/api/subscribe/route.ts:26 | finds the first stored lead whose email equals the new one case-insensitively, and finds none exactly when no such lead exists |
| `Subscribe.Appended` | src/app/api/subscribe/route.ts:26-27 | the stored list changes exactly when no stored email matches the new one case-insensitively |
| `Subscribe.AppendLead` | src/app/api/subscribe/route.ts:17-29 | writes exactly when no stored email matches case-insensitively; the write is the stored list (empty if the file was missing or invalid) plus the new lead; otherwise the file is unchanged |
| `Subscribe.AppendPreservesNoDuplicates` | src/app/api/subscribe/route.ts:26-27 | if the stored emails are case-insensitively distinct, they stay so after an append |
| `Subscribe.AppendKeepsExisting` | src/app/api/subscribe/route.ts:26-27 | an append keeps every stored lead in place, adds at most one lead, and leaves the email on file |
| `Subscribe.AppendIdempotent` | src/app/api/subscribe/route.ts:26-28 | subscribing again with the same email in any letter case adds nothing |
| `Subscribe.AppendLeavesExactlyOne` | src/app/api/subscribe/route.ts:26-27 | after an append to a duplicate-free list, exactly one lead carries that email |
| `Subscribe.CheckEmail` | src/app/api/subscribe/route.ts:90 | accepts exactly the strings with a match of `/.+@.+\..+/` anywhere inside one line: a character, `@`, a character, `.`, a character |
| `Subscribe.FindAudience` | src/app/api/subscribe/route.ts:66 | finds the first audience whose name equals the wanted name, and finds none exactly when there is no such audience |
| `Subscribe.AddToAudience` | src/app/api/subscribe/route.ts:54-81 | no provider call without an API key; an audience is created only after listing; a contact is added only to a non-empty audience id |
| `Subscribe.AudienceChoice` | src/app/api/subscribe/route.ts:54-81 | with a key, a configured id is used without listing; without one, the audiences are listed, and no audience is created exactly when the first audience bearing the name has an id, the contact then going into that id; otherwise one audience is created and the contact goes into its id when the provider returns one |
| `Subscribe.Post` | src/app/api/subscribe/route.ts:85-104 | unreadable body gives 500; truthy honeypot gives 200 and changes nothing; an invalid email gives 400 `Email invalide` and changes nothing; a valid email gives 200 and appends it deduplicated, forwards when key and recipient are set, and runs the audience step when it is enabled and an audience id or name is set |
| `Blog.StrLessIrreflexive` | src/content/blog/posts.ts:249 | no date sorts before itself under string `<` |
| `Blog.StrLessTransitive` | src/content/blog/posts.ts:249 | string `<` is transitive |
| `Blog.StrLessTotal` | src/content/blog/posts.ts:249 | of two different strings, one is `<` the other |
| `Blog.StrLessConcat` | src/content/blog/posts.ts:249 | comparing two concatenations whose first parts have the same length compares those parts first, then the rest |
| `Blog.StrLessAt` | src/content/blog/posts.ts:249 | the first position where two strings differ decides `<` |
| `Blog.DigitsOrder` | src/content/blog/posts.ts:11 | on digit strings of one length, string order is numeric order, and string equality is numeric equality |
| `Blog.IsoStringOrderIsChronological` | src/content/blog/posts.ts:11 | for `YYYY-MM-DD` dates, string `<` holds exactly when the first date is earlier in the calendar |
| `Blog.InsertByDate` | src/content/blog/posts.ts:249 | inserting into a newest-first list keeps it newest first and adds exactly that article |
| `Blog.SortNewestFirst` | src/content/blog/posts.ts:249 | `getAllPosts` returns a permutation of the table in which no article is listed before a later one |
| `Blog.NewestFirstUnique` | src/content/blog/posts.ts:249 | when no two articles share a date, only one arrangement agrees with the comparator, so any correct sort gives the same listing |
| `Blog.NewestFirstIsChronological` | src/content/blog/posts.ts:11 | in a newest-first listing of ISO-dated articles, no article is listed before one published later in the calendar |
| `Blog.FindBySlug` | src/content/blog/posts.ts:253 | returns the first article with the slug, and returns none exactly when no article has that slug |
| `Blog.FindOwnSlug` | src/content/blog/posts.ts:253 | when slugs are unique, every article is found by its own slug |
| `Blog.ListingOrder` | src/content/blog/posts.ts:21-249 | any three-article table with the slugs and dates of the real one is listed in reverse declaration order |
| `Blog.LookupEachArticle` | src/content/blog/posts.ts:21-253 | in any three-article table with the slugs of the real one, each article is found by its own slug |
| `Blog.PostsKeys` | src/content/blog/posts.ts:21-246 | the table declares the 90-day plan (2024-07-22), the production workflow (2024-07-29) and the SEO guide (2024-08-05), with their slugs, in that order |
| `Blog.GetAllPosts` | src/content/blog/posts.ts:248-250 | the listing is the SEO guide, then the production workflow, then the 90-day plan: newest first |
| `Blog.GetPostBySlug` | src/content/blog/posts.ts:252-254 | finds nothing exactly when no article has the slug; whatever it finds is an article of the table with that slug |
| `Blog.GetPostBySlugFindsEach` | src/content/blog/posts.ts:252-254 | each article of the table is found by its own slug |

## Left out

- File system and JSON. Reading, parsing and writing `data/leads.json` become the `StoreFile` value. A failed write, which the source catches and logs, is not modelled: `Post` assumes the append is stored.
- Non-string lead fields. Stored `email`, `createdAt` and `ua` are optional strings. The export would run a truthy number or object through `String(v)`; a falsy one such as `0` becomes the empty field through `|| ""`. On subscription, `toLowerCase` on a non-string email throws, the error is logged and nothing is stored. Neither case is modelled.
- Array elements that are not objects. `Records` holds only `Lead` values, so a file such as `[null]` cannot be represented. For it, the export throws on `l.email` and answers 500, and a subscription throws on the same read, logs it and stores nothing.
- `Subscribe.Lower`: folds only ASCII `A`-`Z`. JavaScript's `toLowerCase` also lowers non-ASCII letters, so two emails differing only in the case of such a letter count as different here.
- Strings are sequences of Unicode code points. JavaScript compares UTF-16 code units, which differs only for characters outside the Basic Multilingual Plane. The slugs and dates in the table are ASCII.
- `GET /api/leads` also has a 500 response, reached when building the response throws, as for the non-object array elements above. The response headers, the date-stamped file name (a clock read) and the `"Unauthorized"` body text are not modelled.
- Concurrency. Two overlapping subscriptions can both read the file before either writes, and one lead is then lost. The model runs requests one at a time.
- Provider failures. Network and API errors of the email provider are caught and logged by the source. The model records only which calls are made, not their outcome. The `from`, `subject` and text of the forwarded message are not modelled.
- `Post`: a body that is JSON but not an object is modelled as having absent fields. A body that is not JSON, or is `null`, is `None` and gives the 500 response.
- `Blog.SortNewestFirst`: for articles with equal dates, the source's comparator is inconsistent (it returns -1 both ways). The order the engine then produces is unspecified, and this model fixes one. `NewestFirstUnique` shows the choice does not matter when dates are distinct, as they are in the table.
- Page components, the sitemap, the Open Graph image, layouts and the date formatting of the blog pages are not part of this model.
