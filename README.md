# Pokémon Showdown user stats: selection and rating-series core

This project models, in Dafny, the part of the Pokémon Showdown user-stats tracker that
turns a typed player name into a chosen format and a display-ready rating series:

- the front end's series utilities (time windows, latest rating, chart rows, sorted
  format lists), its format-selection chains, its preference reads from `localStorage`,
  the `updateUserStats` state update and the `getUserStats` → `addUser` fallback;
- the two AWS Lambda request handlers: add-user (normalise the name, refuse a tracked
  user, ask Pokémon Showdown, build one sample per rated format, store it gzipped) and
  get-user (validate the JSON body, look the normalised name up, return the stored JSON).

Everything outside the program (HTTP, DynamoDB, `JSON.parse`/`JSON.stringify`,
serde_json, gzip, the clock, `Intl.DateTimeFormat`) enters as a parameter: a result value
(`HttpOutcome`, `ShowdownReply`, failure flags, `now`) or a function standing for the
library call (`parse`, `stringify`, `parseJson`, `serialize`, `compress`, `decompress`,
`formatDate`). The handlers return their response, the list of external calls they made,
and (add-user) the table afterwards, so "no write happened" and "nothing was called" are
stated outright.

Modules, one per source file, plus shared helpers:

| module | file | models |
|---|---|---|
| `TimeRange` | time_range.dfy | front-end/src/lib/time-range.ts |
| `UserStatsParser` | user_stats_parser.dfy | front-end/src/lib/user-stats-parser.ts |
| `Defaults` | defaults.dfy | front-end/src/lib/defaults.ts (`Session` holds the React state, storage and a log of setter calls and writes) |
| `App` | app.dfy | the non-rendering helpers of front-end/src/App.tsx |
| `Api` | api.dfy | front-end/src/lib/api.ts |
| `UserId` | user_id.dfy | `to_id`, identical in both handlers |
| `Store` | store.dfy | the model crate's `User`/`Rating` and the DynamoDB item layout |
| `AddUser` | add_user.dfy | add-user-lambda/src/http_handler.rs |
| `GetUser` | get_user.dfy | get-user-lambda/src/http_handler.rs |
| `Handlers` | handlers.dfy | both handlers used one after the other |
| `Lexicographic`, `Decimal`, `Sequences`, `Wrappers` | | string order and sorting, number-to-text, subsequences, Option/Result |

Behaviour of the code that the model makes explicit:

- The client adds a user whenever its GET fails (`Api.GetUserStats`). The Pokémon
  Showdown check happens inside add-user.
- A resolved format is not always a key of the stats: at start-up `App.DefaultFormat`
  returns any stored format, and a user without formats leaves the previous user's stored
  format in place (`App.StaleFormatAfterReload`).
- Format lists are ordered by `localeCompare`, and the start-up chain
  (`App.FallbackDefaultFormat`) takes the first key in insertion order, not the least
  (`App.FormatChainsDiffer`).
- Add-user answers a failed DynamoDB read with 400, and get-user answers one with 200
  "User does not exist, please add it".

Design notes on the model:

- A JavaScript `Formats` object is an association list with distinct keys
  (`Api.Formats`), so `Object.keys` order is kept. A Rust `HashMap` is a Dafny `map`.
- `localeCompare` is modelled as character-by-character order with a proper prefix first
  (`Lexicographic.StrLe`). On the lower-case letters and digits of format ids it gives
  the same order. `Lexicographic.SortedUnique` shows that the sort algorithm does not
  change the result.
- `Math.round(x)` is `Floor(x + 1/2)` on reals. `${n}` for an integer is its decimal
  text, and `Decimal.IntToDecimal` proves that parsing that text gives back `n`.

## Model

| member | source | states |
|---|---|---|
| `TimeRange.RangeToSeconds` | front-end/src/lib/time-range.ts:11-24 | Day, Week, Month, Year are 1, 7, 30, 365 days of 86400 s; All is `Number.MAX_SAFE_INTEGER` |
| `TimeRange.RangeToSecondsIncreasing` | front-end/src/lib/time-range.ts:11-24 | wider windows have strictly more seconds, all positive |
| `TimeRange.KeepWithin` | front-end/src/lib/time-range.ts:28-31 | result is an order-preserving subsequence; a sample is in it iff it is in the input and `currentTime - time <= offset` (boundary kept) |
| `TimeRange.ApplyTimeRange` | front-end/src/lib/time-range.ts:26-33 | `applyTimeRange`; its contract is stated by `TimeRange.ApplyTimeRangeSpec` and the lemmas below |
| `TimeRange.ApplyTimeRangeSpec` | front-end/src/lib/time-range.ts:26-33 | `applyTimeRange` keeps exactly the samples within `rangeToSeconds(range)`, in order, never more than the input |
| `TimeRange.KeepWithinCounts` | front-end/src/lib/time-range.ts:28-31 | every copy of a sample in the window is kept, every copy outside it dropped (multiset counts) |
| `TimeRange.KeepWithinAll` | front-end/src/lib/time-range.ts:28-31 | when all samples are in the window the input comes back unchanged |
| `TimeRange.ApplyAllTime` | front-end/src/lib/time-range.ts:21-22 | "All Time" returns every input whose ages are at most `MAX_SAFE_INTEGER` unchanged, the empty input included |
| `TimeRange.KeepWithinNarrowing` | front-end/src/lib/time-range.ts:26-33 | filtering with a wide window then a narrower one equals filtering with the narrower one |
| `TimeRange.ApplyTimeRangeIdempotent` | front-end/src/lib/time-range.ts:26-33 | applying the same window twice equals applying it once |
| `TimeRange.ApplyTimeRangeMonotone` | front-end/src/lib/time-range.ts:26-33 | a wider window keeps, in order, every sample a narrower one keeps |
| `TimeRange.BoundaryExample` | front-end/src/lib/time-range.test.ts:94-148 | with `currentTime = rangeToSeconds(r) + 100`, samples at 100 and 150 are kept and the one at 0 dropped; the tests cover Day, Week, Month and Year, the lemma holds for All too in integer arithmetic (see Left out) |
| `TimeRange.RecentExample` | front-end/src/lib/time-range.test.ts:30-91 | at time 100 every window keeps samples at 0, 1 and 2 |
| `UserStatsParser.Round` | front-end/src/lib/user-stats-parser.ts:28 | `Math.round`: the integer `r` with `r - 1/2 <= x < r + 1/2` |
| `UserStatsParser.GetRatingsForFormat` | front-end/src/lib/user-stats-parser.ts:3-8 | `[]` for undefined stats, undefined format or a non-key; otherwise the series stored under that key |
| `UserStatsParser.FormatRows` | front-end/src/lib/user-stats-parser.ts:15-30 | same length; row `i` holds the formatted date and rounded elo of sample `i` |
| `UserStatsParser.FormatRatings` | front-end/src/lib/user-stats-parser.ts:10-33 | a non-array gives `[]`; an array gives one row per sample, in order, with `elo = round(ratings[i].elo)` |
| `UserStatsParser.GetLatestRating` | front-end/src/lib/user-stats-parser.ts:36-38 | "1000" for an empty series; otherwise canonical text (no leading zero, no "-0") that parses to the rounded elo of the last sample |
| `UserStatsParser.LatestRatingDetermined` | front-end/src/lib/user-stats-parser.ts:37 | any canonical text reading back as the rounded last elo is the result: the text is fixed by its value |
| `UserStatsParser.LatestIgnoresEarlier` | front-end/src/lib/user-stats-parser.ts:37 | samples before the last one do not change the result |
| `UserStatsParser.LatestRatingExamples` | front-end/src/lib/user-stats-parser.test.ts:4-18 | `[]` gives "1000", `[1500]` gives "1500", `[1500, 1600, 1700]` gives "1700" |
| `UserStatsParser.GetUserName` | front-end/src/lib/user-stats-parser.ts:40-42 | "" for undefined stats, the stats' username otherwise |
| `UserStatsParser.GetFormat` | front-end/src/lib/user-stats-parser.ts:44-46 | "" for undefined, the format itself otherwise |
| `UserStatsParser.SortedKeys` | front-end/src/lib/user-stats-parser.ts:49-51 | ascending, no repetitions, exactly the format keys |
| `UserStatsParser.GetFormats` | front-end/src/lib/user-stats-parser.ts:48-52 | `[]` for undefined stats; otherwise sorted, each key exactly once, nothing else |
| `UserStatsParser.GetFormatsUnique` | front-end/src/lib/user-stats-parser.ts:48-52 | any sorted permutation of the keys is what `getFormats` returns |
| `Lexicographic.StrLe` | front-end/src/lib/user-stats-parser.ts:50 | the comparison standing for `localeCompare`; a total order by `StrLeReflexive`, `StrLeAntisymmetric`, `StrLeTransitive`, `StrLeTotal` |
| `Lexicographic.StrLeReflexive` | front-end/src/lib/user-stats-parser.ts:49-51 | the comparison used for sorting is reflexive |
| `Lexicographic.StrLeAntisymmetric` | front-end/src/lib/user-stats-parser.ts:49-51 | it is antisymmetric |
| `Lexicographic.StrLeTransitive` | front-end/src/lib/user-stats-parser.ts:49-51 | it is transitive |
| `Lexicographic.StrLeTotal` | front-end/src/lib/user-stats-parser.ts:49-51 | it is total |
| `Lexicographic.Insert` | front-end/src/lib/user-stats-parser.ts:49-51 | inserting into a sorted list keeps it sorted and adds exactly one element |
| `Lexicographic.SortStrings` | front-end/src/lib/user-stats-parser.ts:49-51 | `.sort(...)`: sorted output, a permutation of the input |
| `Lexicographic.PermutationKeepsDistinct` | front-end/src/lib/user-stats-parser.ts:49-51 | sorting distinct keys lists each key once and only the keys |
| `Lexicographic.SortedUnique` | front-end/src/lib/user-stats-parser.ts:49-51 | two sorted permutations of distinct keys are equal |
| `Decimal.NatDigits` | front-end/src/lib/user-stats-parser.ts:37 | at least one digit, no leading zero for positive numbers |
| `Decimal.NatDigitsValue` | front-end/src/lib/user-stats-parser.ts:37 | the digits denote the number |
| `Decimal.IntToDecimal` | front-end/src/lib/user-stats-parser.ts:37 | the text parses back to the integer, is canonical (no leading zero, no "-0"), and starts with '-' exactly for negatives |
| `Decimal.UnpaddedInjective` | front-end/src/lib/user-stats-parser.ts:37 | digit strings without leading zeros and with the same value are equal |
| `Decimal.CanonicalUnique` | front-end/src/lib/user-stats-parser.ts:37 | two canonical texts that read back as the same integer are equal |
| `Api.Keys` | front-end/src/lib/user-stats-parser.ts:49 | `Object.keys(formats)`; its contract is `Api.KeysOf`'s |
| `Api.HasKey` | front-end/src/lib/user-stats-parser.ts:4 | `format in formats` on own keys; what a key maps to is stated by `Api.Lookup` |
| `Api.KeysOf` | front-end/src/App.tsx:19-25 | `Object.keys` lists the keys in insertion order, one per entry |
| `Api.Lookup` | front-end/src/lib/user-stats-parser.ts:7 | `formats[format]` is the series stored under that key |
| `Api.UserStatsUri` | front-end/src/lib/api.ts:21 | the request path of a raw name; `Api.UserStatsUriInjective` states it |
| `Api.UserStatsUriInjective` | front-end/src/lib/api.ts:21-38 | different typed names give different request paths: the client does not normalise |
| `Api.AddUser` | front-end/src/lib/api.ts:36-44 | exactly one PUT to `/user-stats/<name>`; resolves with its data or rethrows its error |
| `Api.GetUserStats` | front-end/src/lib/api.ts:20-34 | a 200 GET returns its data with no PUT; any other status or thrown GET leads to exactly one PUT with the same raw name, whose result is returned |
| `Defaults.GetFromStorage` | front-end/src/lib/defaults.ts:12-19 | the decoded stored value when the entry exists, is non-empty and decodes; the default when the storage throws, the key is absent, the entry is empty or decoding throws |
| `Defaults.TryGetUsernameFromStorage` | front-end/src/lib/defaults.ts:4-6 | reads the "username" entry, falling back when it cannot |
| `Defaults.TryGetFormatFromStorage` | front-end/src/lib/defaults.ts:8-10 | reads the "format" entry, falling back when it cannot |
| `Defaults.FormatsToArray` | front-end/src/lib/defaults.ts:47-51 | sorted keys, each once |
| `Defaults.GetFormat` | front-end/src/lib/defaults.ts:37-45 | the desired format if a key; else the fallback if a key; else the least key; undefined iff there are no formats; any result is a key |
| `Defaults.Session.UpdateUserStats` | front-end/src/lib/defaults.ts:21-35 | when the fetch throws, no state, storage or log change and the error propagates; otherwise stats set, raw name stored, then (with formats) `getFormat` set and stored, or (without) format cleared and its entry untouched, in that order |
| `Defaults.PreferenceReadsBack` | front-end/src/lib/defaults.ts:12-31 | a value stored by `updateUserStats` is read back by `getFromStorage` when `JSON.parse` undoes `JSON.stringify` |
| `App.DefaultUsername` | front-end/src/App.tsx:9-16 | the stored username when readable, else the fallback; the component's inline copy agrees with `tryGetUsernameFromStorage` |
| `App.FallbackDefaultFormat` | front-end/src/App.tsx:18-26 | "" without formats; the first choice when a key; else the first key in insertion order; with formats always a key |
| `App.DefaultFormat` | front-end/src/App.tsx:28-35 | the stored format whenever readable, without checking it against the stats; the fallback only otherwise; agrees with `tryGetFormatFromStorage` |
| `App.ChartRatings` | front-end/src/App.tsx:76 | the series stored under the format when stats and format are defined and the format is a key, `[]` otherwise (the extra undefined guard changes nothing) |
| `App.FormatList` | front-end/src/App.tsx:79-81 | `[]` without stats; otherwise the keys, sorted, each once |
| `App.FormatChainsDiffer` | front-end/src/App.tsx:18-26 | for formats inserted as "gen9ou", "gen8ou" the start-up chain gives "gen9ou" where `getFormat` gives "gen8ou" |
| `App.StaleFormatAfterReload` | front-end/src/components/username-form.tsx:35-45 | after Alice (gen9ou) then Bob (no formats) are submitted through `updateUserStats` as the username form calls it, the start-up effect (App.tsx lines 42-57) shows Bob with format "gen9ou" and an empty chart |
| `UserId.ToLowerAscii` | add-user-lambda/src/http_handler.rs:22 | capitals become the small letter 32 code points up; other characters are unchanged |
| `UserId.Lowercase` | add-user-lambda/src/http_handler.rs:22 | the same length, lowered character by character |
| `UserId.KeepAlphanumeric` | add-user-lambda/src/http_handler.rs:24-25 | the filter; stated by `UserId.KeepAlphanumericSpec` and `UserId.KeepAlphanumericAppend` |
| `UserId.KeepAlphanumericAppend` | add-user-lambda/src/http_handler.rs:24-25 | filtering a concatenation filters each part, in order |
| `UserId.KeepAlphanumericSpec` | add-user-lambda/src/http_handler.rs:24-25 | the filter keeps exactly the ASCII letters and digits, in order |
| `UserId.ToId` | add-user-lambda/src/http_handler.rs:19-26 | `to_id`; stated by `UserId.ToIdSpec` and the lemmas below |
| `UserId.ToIdSpec` | add-user-lambda/src/http_handler.rs:19-26 | every character of `to_id(s)` is a lower-case ASCII letter or a digit; the id is a subsequence of the lowered name |
| `UserId.ToIdAppend` | add-user-lambda/src/http_handler.rs:21-25 | the id of a concatenation is the concatenation of the ids (order kept) |
| `UserId.ToIdIdempotent` | add-user-lambda/src/http_handler.rs:21-25 | normalising an id changes nothing |
| `UserId.ToIdExample` | add-user-lambda/src/http_handler.rs:19-26 | "The_Brucey" and "thebrucey" both give "thebrucey" |
| `Store.StatsItem` | add-user-lambda/src/http_handler.rs:240-250 | the stored item has exactly the `userId` string and the `stats.json.gz` blob |
| `AddUser.ShowdownUrl` | add-user-lambda/src/http_handler.rs:91 | the profile URL of the id; `AddUser.ShowdownUrlInjective` states it |
| `AddUser.ShowdownUrlInjective` | add-user-lambda/src/http_handler.rs:91 | different ids ask for different profiles |
| `AddUser.NewUserUnique` | add-user-lambda/src/http_handler.rs:146-193 | a profile with both names, ratings and every elo determines the record built from it (one sample `(now, elo)` per format), and only such a profile yields one |
| `AddUser.BuildFormats` | add-user-lambda/src/http_handler.rs:172-193 | fails iff some format has no numeric elo; otherwise exactly the rated formats, each with the one sample `(now, elo)` |
| `AddUser.HandleAddUser` | add-user-lambda/src/http_handler.rs:28-271 | 200 exactly when the user is new, the lookup, fetch, read, parse, serialise, compress and write all succeed and the profile is complete; then the one write stores, under `to_id(name)`, the gzipped JSON of the new record. Otherwise each failure has its own status and message: missing name 400 with no call; missing table name 500; failed lookup 400; tracked id 400 after only the lookup; unreachable Showdown 500; Showdown 404 404; other status 500; unreadable or unparsable profile 500; missing username, userid, ratings or elo 500 (in that order); serialise, compress or write failure 500; the table changes only on 200 |
| `GetUser.ExtractBody` | get-user-lambda/src/http_handler.rs:169-175 | Ok(text) for a text body, an error for binary or empty bodies |
| `GetUser.HandleGetUser` | get-user-lambda/src/http_handler.rs:12-167 | 400 iff the body is not text, not JSON, or lacks a string `username` (distinct messages, no call); missing table name 500 with no call; otherwise exactly one lookup under `to_id(username)`; failed lookup 200 "does not exist"; absent item, missing `stats.json.gz`, non-binary attribute, bad gzip: 500 each with its message; otherwise 200 with exactly the decompressed JSON |
| `GetUser.ReadsBackAddedUser` | get-user-lambda/src/http_handler.rs:86-166 | an item stored under an id is returned, decompressed, for any name with that id |
| `Handlers.AddThenGet` | get-user-lambda/src/http_handler.rs:177-184 | add-user succeeds exactly when all its steps do; after it succeeds for a name, get-user with a `username` of the same id (another spelling) returns exactly the JSON add-user stored, under the id `to_id(name)` |

## Left out

- I/O and libraries: axios, DynamoDB, `reqwest`, serde_json, flate2, `localStorage`,
  `JSON.parse`/`JSON.stringify`, the clock and `Intl.DateTimeFormat` are parameters (result
  values or functions), not models. JSON and DEFLATE are not modelled.
- `Defaults.GetFromStorage`: `JSON.parse` is modelled as returning a string or throwing.
  A stored JSON value of another type (`null`, a number) is not modelled.
- `Defaults.Session.UpdateUserStats`: `localStorage.setItem` is taken never to throw.
- `UserId.ToIdSpec`: only ASCII upper case is lowered. Non-ASCII characters whose Unicode lower
  case contains an ASCII letter (the Kelvin sign, capital I with dot) are dropped here,
  while Rust keeps that letter.
- `UserStatsParser.Round`: elo is a real number, so NaN, infinities and binary rounding are
  not modelled. `${n}` switches to exponent notation from 1e21; that is not modelled either.
- `TimeRange.BoundaryExample`: for All it is stated in integer arithmetic. With JavaScript
  numbers, `rangeToSeconds(All) + 100` rounds to 2^53 + 100, so the program drops the sample
  at time 100 as well. The tests check only Day, Week, Month and Year.
- `TimeRange.KeepWithin`: times are integers, so floating-point subtraction is not modelled.
- `Lexicographic.StrLe`: `localeCompare`'s locale collation is replaced by code-point order.
  The two agree on ids made of lower-case letters and digits.
- `UserStatsParser.GetRatingsForFormat`: the JavaScript `in` operator also finds inherited
  keys such as "toString". Only own keys are modelled.
- `Api.KeysOf`: `Object.keys` lists integer-like keys first. That case is not modelled,
  since format ids are not integer-like.
- The `Response::builder()...map_err(Box::new)?` error path is left out: building these
  responses cannot fail.
- GetUser: after the `is_string` check, the second "Failed to parse JSON body" branch
  (get-user lines 56-66) cannot be reached. It has no separate case.
- The React component, its `useEffect` state updates (App.tsx lines 37-110), the forms,
  dialogs and chart are not modelled. `App.StaleFormatAfterReload` composes
  `updateUserStats`, called as username-form.tsx calls it, with the helpers the start-up
  effect uses. The form App.tsx renders (username-format-form.tsx) calls `getUserStats`
  itself and stores the selected format on every submit; it is not modelled.
- `Api.AddUser`: the data of a successful PUT is assumed to be a `UserStats`. Add-user in
  fact answers 200 with the text "username: ..., id: ..., User: ..." (add-user lines
  265-269), so `addUser` resolves with a string, and `updateUserStats` then throws at
  `Object.keys(stats.formats)` after it has set the stats and stored the name. Responses
  of the wrong shape are not modelled.
- The `console.log` and `console.error` calls (api.ts lines 23, 31, 41) are logging only
  and are left out.
- These are not modelled: the Lambda `main.rs` wiring and CORS, the CDK infrastructure,
  and the update-stats lambda (its update logic exists only as TODO comments).
- Request routing is not modelled. The front end sends the name in the GET path, but
  get-user reads it from the JSON body.
- There is no concurrency or async ordering in the code, so none is modelled.
