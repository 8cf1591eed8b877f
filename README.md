# import-art-exhibitions: a Dafny model of its decision logic

The program imports art exhibitions. It lists the blocks of an are.na channel
and asks a language model to pull exhibition metadata (venue, title, dates,
website) out of each linked page. It can also look a venue up in the Sanity
content store. Almost all of it is calls into three client libraries. This
project models the decision logic around those calls and proves what it
promises:

- `Extractor` (src/extractor.ts) covers `extractExhibitionData`. A failed page
  fetch gives an error whose message is built from the URL and the status text.
  The page is cut to 50 000 characters before it goes into the prompt. The
  first reply block must be text. The JSON span is cut out with the greedy
  pattern `/\{[\s\S]*\}/`, and the span goes to the JSON parser.
- `Arena` (src/arena.ts) covers `fetchChannelItems`. It builds the
  `{ page: 1, per: limit || 100 }` request and keeps, in order, the blocks
  whose `source.url` or `image.original.url` is a non-empty string.
- `Sanity` (src/sanity.ts) covers `findVenueByName`. A blank name gets no
  venue and no query. Any other name goes unchanged into one GROQ query, whose
  answer is passed through. A failed query is logged and becomes "no venue".
- `Types` (src/types.ts) holds the `Exhibition` record, with `Option` and
  `Result`.

Every remote call is a function parameter: the page `fetch`, the language model's
`messages.create`, the channel's `contents`, Sanity's `client.fetch`, and
`JSON.parse`. Each result records the calls that were issued (URLs fetched,
prompts sent, contents requests, queries). That is how "no model call is
made" and "no query is issued" can be stated.

The pattern `/\{[\s\S]*\}/` gets an independent reference definition.
`PatternMatches(text, i, j)` says that `text[i..j]` matches the whole
pattern. `LeftmostLongest` picks the span a backtracking search reports: the
leftmost start, then the longest match from it, because `[\s\S]*` is greedy.
`FindJsonSpan` computes the span as "first `{` to last `}`", and its contract
proves that this is the leftmost-longest match.

## Model

| member | source | states |
|---|---|---|
| `Extractor.Truncate` | src/extractor.ts:49 | The excerpt is a prefix of the page, and its length is min(page length, 50 000). |
| `Extractor.IndexOf` | src/extractor.ts:69 | The result is the first position at or after `from` that holds the character, or none if no such position exists. |
| `Extractor.LastIndexOf` | src/extractor.ts:69 | The result is the last position below `upto` that holds the character, or none if no such position exists. |
| `Extractor.FindJsonSpan` | src/extractor.ts:69 | A returned span is the leftmost-longest match of `\{[\s\S]*\}`. If none is returned, no substring matches the pattern. |
| `Extractor.MatchJson` | src/extractor.ts:69-72 | The match opens with `{`, closes with `}`, and is the leftmost-longest match. It is absent exactly when no substring matches. |
| `Extractor.JsonSpanExistsIff` | src/extractor.ts:69-72 | A span exists if and only if some `{` has a `}` at a later index. |
| `Extractor.JsonSpanIsFirstOpenToLastClose` | src/extractor.ts:69 | The span starts with `{` and ends with `}`. No `{` occurs before it and no `}` occurs after it, so it is greedy. |
| `Extractor.WholeObjectReplyIsItsOwnSpan` | src/extractor.ts:69 | A reply that begins with `{` and ends with `}` is its own span, which is the serialised-object case of the success test. |
| `Extractor.InterpretReply` | src/extractor.ts:63-75 | A rejected completion propagates. No first block is a TypeError. A non-text block is "Unexpected response type". Text with no match is "Could not extract JSON". Otherwise the parse of the leftmost-longest span is the result, and a parse failure is an error. |
| `Extractor.ExtractExhibitionData` | src/extractor.ts:27-76 | The page URL is fetched exactly once. A rejected or non-ok fetch sends no prompt and gives the fetch error. An ok fetch sends exactly one prompt, carrying the URL and the truncated page, and the result is the reply's interpretation. |
| `Extractor.ExtractError.Message` | src/extractor.ts:34-71 | A failed fetch's message is "Failed to fetch ", then the URL, then ": ", then the status text. The non-text and no-JSON errors carry their fixed texts. A rejection from the fetch, the completion call or the parser keeps its own message. |
| `Extractor.FetchFailureMessage` | src/extractor.ts:33-35 | A non-ok response gives the message "Failed to fetch " + url + ": " + statusText, and no prompt is sent. |
| `Extractor.NoJsonFoundIff` | src/extractor.ts:69-72 | The result is `NoJsonFound` if and only if the fetch was ok, the first reply block is text, and that text has no `{` followed later by `}`. |
| `Extractor.SuccessIsParsedSpan` | src/extractor.ts:69-75 | A successful result is exactly what the parser made of the matched span of a text first block, after an ok fetch. |
| `Arena.RequestParams` | src/arena.ts:32-35 | `page` is always 1. `per` is the limit when the limit is present and non-zero, and 100 otherwise (including a limit of 0), so `per` is never 0. |
| `Arena.LimitIsTruthy` | src/arena.ts:34 | Defines JavaScript truthiness of the optional `limit`: present and not 0. |
| `Arena.UrlIsTruthy` | src/arena.ts:40 | Defines JavaScript truthiness of an optional URL: present and not the empty string. |
| `Arena.SourceUrl` | src/arena.ts:40 | `item.source?.url` is present exactly when both `source` and its `url` are, and it is that `url`. |
| `Arena.ImageUrl` | src/arena.ts:40 | `item.image?.original?.url` is present exactly when `image`, `original` and `url` all are, and it is that `url`. |
| `Arena.HasUrl` | src/arena.ts:40 | An item passes the filter exactly when `source.url` exists and is non-empty, or `image.original.url` exists and is non-empty. |
| `Arena.KeepWithUrl` | src/arena.ts:40 | The output is no longer than the input. An item is in the output if and only if it is in the input and has a truthy `source.url` or `image.original.url`. |
| `Arena.FetchChannelItems` | src/arena.ts:27-41 | Exactly one contents request is made, for the given channel, with `RequestParams(limit)`. A rejection propagates. On success the result is exactly the filter applied to the returned items, which is an ordered subsequence of them and holds exactly the returned items that have a URL. |
| `Arena.KeepWithUrlIsSubsequence` | src/arena.ts:40 | The kept items appear in the input at strictly increasing positions, so the original order is kept. |
| `Arena.KeepWithUrlAppend` | src/arena.ts:40 | Filtering a concatenation gives the concatenation of the filtered parts. |
| `Arena.KeepWithUrlCounts` | src/arena.ts:40 | Each item occurs in the output as many times as in the input if it has a URL, and zero times otherwise. |
| `Arena.KeepWithUrlUnchangedIff` | src/arena.ts:40 | The filter returns its input unchanged if and only if every input item has a URL. |
| `Arena.KeepWithUrlIdempotent` | src/arena.ts:40 | Filtering twice gives the same result as filtering once. |
| `Arena.MixedChannelKeepsLinkAndImage` | src/__tests__/arena.test.ts:63-80 | From a link, a `{source:{}}` block, an image-only block and a bare block, the output is the link followed by the image. |
| `Sanity.IsWhitespace` | src/sanity.ts:46 | A character is removed by `trim()` exactly when it is one of the 25 ECMAScript white-space and line-terminator characters. |
| `Sanity.TrimStart` | src/sanity.ts:46 | The result is a suffix of the input. Everything removed is whitespace, and the result does not start with whitespace. |
| `Sanity.TrimEnd` | src/sanity.ts:46 | The result is a prefix of the input. Everything removed is whitespace, and the result does not end with whitespace. |
| `Sanity.IsBlank` | src/sanity.ts:46-48 | The guard (the name is empty, or trims to the empty string) holds if and only if every character of the name is whitespace. |
| `Sanity.Trim` | src/sanity.ts:46 | The result is a contiguous part of the name, with only whitespace outside it, that neither starts nor ends with whitespace. |
| `Sanity.FindVenueByName` | src/sanity.ts:42-61 | A blank name gives no venue, no query and no log entry. Any other name issues exactly one query, with the name unchanged. A returned venue or `null` is passed through as-is. A failed query gives no venue and one log entry, and it never escapes. So a venue comes back only for a non-blank name whose query returned exactly that venue. |
| `Sanity.BlankNamesIssueNoQuery` | src/sanity.ts:46-48 | The empty name and the whitespace-only names `"   "` and `" \t\n "` give no venue and issue no query, whatever the store holds. |

## Left out

- Client construction (`initArenaClient`, `initAnthropicClient`, `initSanityClient`) is left out. It only reads environment variables and calls foreign constructors.
- src/index.ts is left out. It is command-line plumbing, and its processing step is an unimplemented TODO. No per-item loop and no draft publishing exist in the source, so neither is modelled.
- The remote calls are left out as behaviour. The page fetch, the completion request, the channel contents request and the Sanity query are parameters whose outcomes are arbitrary.
- `response.text()` is taken to succeed. A rejection while reading the body is not modelled.
- `JSON.parse` is an uninterpreted parameter. `parse` returns an `Exhibition`, so the model assumes the parsed object has the five string fields; the source's result may lack fields or hold other types, and nothing checks.
- The prompt wording, the language model id and `max_tokens` are fixed constants. The model keeps only the parts of the prompt that vary: the URL and the HTML excerpt.
- `Extractor.ExtractError.MissingContentBlock`: an empty `content` array makes `content.type` throw a runtime TypeError. Its message is the one Node's engine uses, and other engines word it differently.
- Strings are sequences of Unicode characters. JavaScript's `substring(0, 50000)` counts UTF-16 code units, so for pages with characters outside the Basic Multilingual Plane the cut point differs.
- `Arena.RequestParams` models `limit` as an optional integer. `NaN` (falsy, so it gives 100) and fractional limits are not modelled. A negative limit is truthy and is passed through unchanged, as in the source.
- `Arena.Item` keeps the block's `id` and the two attributes the filter reads (`source`, `image`); every other attribute is dropped. A URL that is present but not a string (JavaScript truthiness of other types) is not modelled.
- GROQ `match` semantics, including case-insensitivity, are not modelled. Matching happens on the server.
- The text of the `console.error` call is not modelled. The model records only the venue name and the error, one entry per failed query.
