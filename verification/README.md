# URL shortener workers, modelled in Dafny

The repository holds two serverless workers that map short codes to long URLs.

- **The API worker** (`cloudflare-worker.js`) keeps two in-memory maps:
  - `urlStore` maps a record id to a link record (URL, code, short URL, click count, creation time);
  - `codeStore` maps a short code to its URL.

  `POST /api/shorten` validates a URL and draws random 6-character codes until one is free, giving up after 10 checked draws. It then stores the link. `GET /api/resolve/<code>` and `GET /<code>` answer with the URL as JSON or as a 302 redirect, and count a click on the link's record. `GET /api/urls` lists the records in creation order.
- **The Telegram bot worker** (`src/index.js`) keeps codes in a KV namespace. A Telegram webhook (`POST`) answers `/start` with a welcome message. It shortens any http(s) URL it is sent into a fresh 7-character code and replies with the short link, and replies to other text with a hint. `GET /<code>` is a 301 redirect to the stored URL. `GET /` is a 302 to the configured repository URL.

The model has four modules:

- `Web` (web.dfy) holds what both workers share:
  - replies, modelled as a status and a body;
  - the host's URL parser, taken as a function parameter that gives a protocol and a serialisation (`href`);
  - `isValidUrl`, as `IsValidUrl`;
  - JavaScript truthiness;
  - the `split(sep)[1]` the API router uses.
- `ShortCode` (short_code.dfy) models code generation:
  - the 62-character alphabet and the code a sequence of `Math.random()` values spells;
  - the generator loop;
  - `FirstFree`, the first of several draws whose code is not in use. This is the reference both generate-and-check loops are proved against.
- `ApiWorker` (api_worker.dfy) is the API worker:
  - the class `Worker` holds the two maps;
  - the iteration order of `urlStore` is an explicit sequence, `order`;
  - `Consistent` is the invariant every handler keeps. Each code has exactly one record, that record carries the code's URL, and every stored URL is a non-empty http(s) URL.
- `BotWorker` (bot_worker.dfy) is the bot worker:
  - the KV namespace is a class over a map, with a ghost log of its `put`s;
  - the Telegram Bot API is a class that records each message sent.

Randomness, time and identifiers are parameters:

- `draws` holds the `Math.random()` values, one sequence per generated code.
- `freshId` stands for `crypto.randomUUID()`.
- `now` stands for the creation time.

Behaviours of the code the model keeps:

- In the API worker, `GET /<path>` whose code is unknown (or contains a dot) gets the 200 fallback text (cloudflare-worker.js:229-243). `handleRedirect`'s 404 is unreachable from the router, because the router checks `codeStore.has` first.
- In the bot worker, a webhook body that is not JSON makes `request.json()` throw outside any `try` (src/index.js:48). The update is therefore not acknowledged; the model answers with the runtime's error reply (`Uncaught`, status 500). The same holds for `Response.redirect` on a stored value or repository URL that does not parse.
- The bot's welcome is one text message with an inline keyboard (src/index.js:80-106).
- A redirect's `Location` is the parsed URL's serialisation, which `Response.redirect` produces, not the raw stored string.

## Model

| member | source | states |
|---|---|---|
| `Web.Before` | cloudflare-worker.js:221 | the resolve code is the longest prefix of the rest of the path that contains no occurrence of `/api/resolve/`, and it ends at an occurrence or at the end |
| `Web.BeforeMissing` | cloudflare-worker.js:221 | a string without `/` is kept whole by the split |
| `Web.IsValidUrl` | src/index.js:139-144 | true iff the parser accepts the string and its protocol is `http:` or `https:`; a parse failure gives false |
| `ShortCode.AlphabetSpelledOut` | cloudflare-worker.js:10 | the alphabet is exactly the `chars` string, A-Z then a-z then 0-9 |
| `ShortCode.AlphabetIsAlphanumeric` | src/index.js:146 | the alphabet has 62 distinct characters, and a character is in it iff it is an ASCII letter or digit |
| `ShortCode.CharFor` | cloudflare-worker.js:13 | `chars.charAt(Math.floor(x * 62))` is always an alphabet character |
| `ShortCode.CodeOf` | cloudflare-worker.js:12-14 | the code spelled by n random values has length n and only alphabet characters |
| `ShortCode.CodeOfAt` | cloudflare-worker.js:13 | character i of a code depends on the i-th random value alone |
| `ShortCode.CodeReachable` | cloudflare-worker.js:9-16 | every string over the alphabet is drawn by some random values, so the generator can produce every code |
| `ShortCode.GenerateShortCode` | cloudflare-worker.js:9-16 | the loop returns the code the random values spell, of the requested length, over the alphabet |
| `ShortCode.FirstFree` | cloudflare-worker.js:59-65 | the kept draw is free and every earlier draw is taken; with no draw kept, every draw is taken |
| `ShortCode.CodeHasNoSeparators` | cloudflare-worker.js:229 | a code contains neither `/` nor `.`, so `/<code>` passes the router's dot test |
| `ApiWorker.Rejection` | cloudflare-worker.js:40-52 | a URL is rejected (400 with a JSON error) iff it is missing, empty, unparseable or not http(s) |
| `ApiWorker.ShortUrl` | cloudflare-worker.js:67-68 | the short URL starts with `https://` and ends with `/` and the code |
| `ApiWorker.ShortenOutcome` | cloudflare-worker.js:36-94 | a link is created iff the URL is valid and one of the first 10 draws is free; its code is the first free draw's 6-character code and was not in use; a body that is not JSON gets 500 "Internal server error", a rejected URL exactly `Rejection`'s 400, and a valid URL whose 10 checked draws all collide 500 "Failed to generate unique short code" |
| `ApiWorker.SameValidation` | cloudflare-worker.js:40-52 | the API worker's URL checks accept exactly the non-empty strings the bot's `isValidUrl` accepts, and reject the others with 400 |
| `ApiWorker.DrawFreshCode` | cloudflare-worker.js:55-65 | the do-while keeps the first free draw among 10 (draw k+1 codes to keep draw k), or fails after drawing an 11th code it never checks |
| `ApiWorker.Listing` | cloudflare-worker.js:147-157 | the list has one entry per record, in insertion order, each equal to its record |
| `ApiWorker.InsertKeepsConsistent` | cloudflare-worker.js:81-82 | adding a record under a fresh id and a fresh code with a valid URL keeps the invariant of the two maps |
| `ApiWorker.OneRecordPerCode` | cloudflare-worker.js:59-82 | under the invariant, every record with a given code is that code's one owner, and codes of records are all in `codeStore` |
| `ApiWorker.ClickCountsOnce` | cloudflare-worker.js:104-111 | a click adds exactly 1 to the clicks of the one record with the code, and changes nothing when no record has it |
| `ApiWorker.ClickKeepsConsistent` | cloudflare-worker.js:105-110 | counting a click keeps the invariant, never lowers a count and changes no other field |
| `ApiWorker.ListingMatchesCodeStore` | cloudflare-worker.js:147-158 | the listing shows every code of `codeStore` exactly once, with its URL, and no other code |
| `ApiWorker.RouteRequest` | cloudflare-worker.js:194-244 | OPTIONS is the preflight; under `/api/`, shorten iff POST `/api/shorten`, list iff GET `/api/urls`, QR iff POST `/api/qr`, resolve iff GET under `/api/resolve/`, and a 404 route for everything else there; a non-`/api/` path goes to the redirect iff it is longer than `/`, has no dot and names a known code, and to the fallback otherwise |
| `ApiWorker.IssuedCodeRedirects` | cloudflare-worker.js:228-234 | `/<code>` for any known non-empty code over the alphabet routes to its redirect, whatever the method other than OPTIONS |
| `ApiWorker.ResolvePathResolves` | cloudflare-worker.js:220-223 | `GET /api/resolve/<code>` resolves exactly that code |
| `ApiWorker.Worker.constructor` | cloudflare-worker.js:6-7 | both maps start empty, which satisfies the invariant |
| `ApiWorker.Worker.HandleShorten` | cloudflare-worker.js:36-94 | the reply and the new maps are those of `ShortenOutcome`: on creation exactly one record and one code are added, otherwise nothing changes; the invariant is kept |
| `ApiWorker.Worker.RecordClick` | cloudflare-worker.js:104-111 | the loop bumps the clicks of the first record in insertion order whose code matches, which is the code's one record |
| `ApiWorker.Worker.HandleResolve` | cloudflare-worker.js:96-121 | 200 with the stored URL and the code for a known code, 404 otherwise; exactly one click is counted, on that code's record |
| `ApiWorker.Worker.HandleRedirect` | cloudflare-worker.js:123-145 | 302 to the stored URL for a known code, 404 otherwise; exactly one click is counted; only the clicks change |
| `ApiWorker.Worker.HandleRequest` | cloudflare-worker.js:194-244 | each route gets its handler's reply and effect, and only shorten, resolve and redirect change the maps |
| `ApiWorker.ShortenThenFollow` | cloudflare-worker.js:207-234 | after a successful POST /api/shorten, GET on the short link's path is a 302 to the URL and the new record shows one click |
| `BotWorker.TakenIsStoredKeys` | src/index.js:153 | in a store of valid URLs, the codes `get` reports truthy are exactly the stored keys, so the uniqueness test is a presence test |
| `BotWorker.NextCode` | src/index.js:145-156 | the generated code is 7 alphabet characters, one of the draws, and not in use |
| `BotWorker.GenerateUniqueShortCode` | src/index.js:145-156 | the `isUnique` loop returns the code of the first draw that `get` finds free |
| `BotWorker.ShortLink` | src/index.js:117 | the short link is the worker's origin followed by `/` and the code |
| `BotWorker.ShortenAndReply` | src/index.js:111-123 | exactly one `put`, of the fresh code and the long URL, and exactly one message, carrying origin + `/` + code |
| `BotWorker.ActionFor` | src/index.js:49-60 | no text means no action; `/start` is answered with the welcome; other text is shortened iff it is an http(s) URL, and otherwise answered with the hint |
| `BotWorker.HandleTelegramUpdate` | src/index.js:47-63 | every readable update is acknowledged with 200 "OK"; the store changes only by the one `put` of a shortening, and at most one message is sent |
| `BotWorker.RedirectTo` | src/index.js:71 | `Response.redirect` sends the parsed URL's serialisation with the given status, and throws on a URL that does not parse |
| `BotWorker.RedirectReply` | src/index.js:68-75 | 404 iff nothing truthy is stored; 301 iff a truthy stored value parses, to its serialisation |
| `BotWorker.HandleRedirect` | src/index.js:68-75 | the reply is the redirect reply of what `get` returns, and a 301 only for a code in use; the store is only read |
| `BotWorker.RootReply` | src/index.js:27-36 | 200 with the not-configured text when no repository URL is set, a 302 to it when it is set and parses |
| `BotWorker.RouteOf` | src/index.js:12-42 | POST on any path is the webhook, GET with a non-empty path segment is a redirect of that segment, GET on the root is the root page, and every other method is refused |
| `BotWorker.Fetch` | src/index.js:12-42 | each route gets its handler's reply and effect; only the webhook changes the store or sends messages; other methods get 405 |
| `BotWorker.WebhookKeepsStoreValid` | src/index.js:56-57 | the webhook stores only what passed `isValidUrl`, so a store of valid URLs stays valid |
| `BotWorker.ShortenKeepsLiveLinks` | src/index.js:114-115 | the `put` overwrites no code in use, and exactly one code comes into use |
| `BotWorker.ShortLinkRedirects` | src/index.js:113-118 | the link's path is `/` and the code, GET on it routes to that code, and the redirect goes to the shortened URL with 301 |
| `BotWorker.ValidStoreRedirects` | src/index.js:68-75 | in a store of valid URLs every stored key gets a 301 to its URL and every other key a 404 |
| `BotWorker.SendThenFollow` | src/index.js:17-25 | sending a URL is acknowledged, and following the path of the link in the reply is a 301 to that URL |

## Left out

- `handleGenerateQR` (cloudflare-worker.js:165-192) calls an external QR service. It is not modelled: `HandleRequest` takes its reply as the parameter `qr`.
- `sendMessage` and `sendWelcomeMessage` (src/index.js:80-106, 128-136) are HTTP calls to the Telegram Bot API. The model records which message goes to which chat, not the request; the welcome message's text and keyboard are fixed and not modelled.
- Failures of the KV namespace and of the Telegram API are not modelled. So the catch branch of `shortenAndReply` (src/index.js:119-122), which sends the "unexpected error" message, is never taken in the model.
- The catch branches of `handleResolve`, `handleRedirect` and `handleListUrls` are not modelled. Under the invariant nothing in them throws: stored URLs always parse.
- Request bodies to `/api/shorten` other than "not JSON" or "an object whose `url` is a string or missing" are not modelled, for example `null` or a numeric `url`.
- Webhook bodies that are JSON but not an object are not modelled. For example, the JSON `null` makes `payload.message` throw (src/index.js:49); `Update` has no case for it.
- `ApiWorker.ClickCountsOnce`: clicks are unbounded naturals in the model. In the source `clicks` is a JavaScript number, so `urlData.clicks++` (cloudflare-worker.js:107, 134) stops changing once the count passes 2^53.
- CORS headers, `Content-Type` headers and JSON serialisation are not modelled: replies are a status and a structured body.
- The URL parser's internals are not modelled; the parser is a parameter. Percent-encoding of paths is part of it.
- `Math.random()` is a real in [0, 1); floating-point rounding of `x * 62` is not modelled.
- `ApiWorker.Worker.HandleShorten` requires that `crypto.randomUUID()` returns an id not yet in `urlStore`. The source relies on UUIDs not colliding.
- `BotWorker.GenerateUniqueShortCode` requires that some draw yields a free code. The source's loop has no bound, and nothing is claimed about the loop when every code is in use.
- A Telegram message is assumed to always carry `chat.id`, as Telegram's updates do.
- Concurrency is not modelled: requests are handled one at a time. The KV namespace's eventual consistency and the loss of the in-memory maps on redeployment are not modelled either.
- The front end (src/app/page.tsx, src/app/layout.tsx, src/app/[shortcode]/page.tsx) is not part of this model.
