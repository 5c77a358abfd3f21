# VersaillesSplendor gating engine, in Dafny

This project models the decision core of the VersaillesSplendor Swift library.
`RoyalDecree.examineDistantRealms` decides whether an app shows a remote web
destination (it "reveals the distant realms") or its own local content ("the
chateau"). It latches that decision in `UserDefaults` under keys derived from
the caller's cache key, or from the URL, so later calls replay it. Beside it
sits `ChateauKeeper`, which makes a random per-install seal once, keeps it in
the same store and appends it to outbound requests as `push_id`.

The store is a class, `Store.Defaults`, whose `entries: map<string, Value>`
field its `Set` method updates. Every operation of the engine is written twice:

- a method that does what the Swift code does, step by step, on a `Defaults`
  object (`RoyalDecree.ExamineDistantRealms`, `ExamineDistantManor`,
  `ExamineDistantManorWithPathScroll`, `ValidatePreservedManor`,
  `RequestNewManorWithPathScroll`, `ChateauKeeper.GetUniqueChateauSeal`);
- a function over the store's entries that returns the result and the new
  store (`Decree`, `Expedite`, `SealedExpedite`, `Revalidate`, `Reroute`,
  `UniqueSeal`).

Each method's postcondition says it returns exactly what its function does and
leaves exactly the store the function does. The engine's properties are proved
as lemmas about the functions, in `RoyalDecreeProperties`. These cover the
two-flag latch, the gate order, replay over any sequence of calls, the status
band, and the query items the requests carry.

The outside world is a set of inputs (`RoyalDecree.Circumstances`):

- whether the path monitor reported a usable network within its 2-second wait;
- the clock, as an integer;
- the device model string;
- the random draw for a new seal;
- a `server` function giving what each request URL produced when its wait
  ended: a transport error, an HTTP status with the last redirect target, a
  non-HTTP response, or nothing before the timeout.

Which strings `URL(string:)` accepts and the value of `String.hash` are
uninterpreted functions (`RoyalDecree.Platform`). Query items are read from
the URL text: the query runs from the first `?` to the first `#`, items are
split at `&`, and a name ends at the first `=`.

Where the code behaves differently from what a reader might expect, the model follows the code:

- A destination URL that does not parse at the fourth gate gives "Distant manor
  examination failed: Invalid manor address", and the chateau flag is set like
  for any other failed gate (RoyalDecree.swift:146-154).
- The "Valid cached distant realms" answer does not save its destination again
  (RoyalDecree.swift:62-67).
- After an accepted request, the fetchers keep the `pathid` of the request
  URL, not of the redirect target. A `pathid` item without a value is kept as ""
  (RoyalDecree.swift:317-321, 422-424). On a first evaluation the engine then
  overwrites that token with the destination's `pathid` value when the
  destination has one (RoyalDecree.swift:161-166). So `u?pathid=a` redirected
  to `r?pathid=b` keeps "b", and redirected to `r` keeps "a".
- `push_id` and the fallback `pathid` are appended after a '?' or '&' even
  when the caller's URL has a '#' fragment. They then land inside the fragment
  and are not query items of the request (RoyalDecree.swift:276-280, 376-383).
- The facade's default timeout is 10 seconds; the engine's own is 12
  (VersaillesSplendor.swift:94, RoyalDecree.swift:39).

## Model

| member | source | states |
|---|---|---|
| Decimal.NatText | Sources/VersaillesSplendor/RoyalDecree.swift:256 | the decimal text of a non-negative Int is non-empty, all digits, and has no leading zero |
| Decimal.IntText | Sources/VersaillesSplendor/RoyalDecree.swift:56 | the text of an Int is non-empty and starts with '-' exactly when the Int is negative |
| Decimal.NatTextRoundTrip | Sources/VersaillesSplendor/RoyalDecree.swift:323 | reading the digits back gives the number rendered |
| Decimal.IntTextInjective | Sources/VersaillesSplendor/RoyalDecree.swift:319 | two Ints with the same text are equal, so `preservedPathScroll_<hash>` keys of distinct hashes differ |
| Query.FirstItem | Sources/VersaillesSplendor/RoyalDecree.swift:54 | `first(where: name == …)`: None exactly when no item has the name, otherwise the value of the first item with that name |
| Query.Lookup | Sources/VersaillesSplendor/RoyalDecree.swift:53-55 | `URLComponents(string:)?.queryItems?.first(where:)` on the URL text: the query between the first '?' and the first '#', split at '&'; its properties are the `WithItem…` and `FragmentHidesItem` lemmas |
| Query.WithItem | Sources/VersaillesSplendor/RoyalDecree.swift:276-280 | the string interpolation appending `name=value` after '?' or '&'; its properties are `WithItemReadsBack`, `WithItemKeepsOthers` and `FragmentHidesItem` |
| Query.FragmentHidesItem | Sources/VersaillesSplendor/RoyalDecree.swift:276-280 | appended to a URL with a '#', the parameter lands in the fragment and the query is unchanged |
| Query.WithItemReadsBack | Sources/VersaillesSplendor/RoyalDecree.swift:276-280 | a parameter appended with '?' or '&' to a URL without a fragment and without that item reads back with the appended value; the value may hold '=', only '&' and '#' would end it |
| Query.WithItemKeepsOthers | Sources/VersaillesSplendor/RoyalDecree.swift:376-383 | appending a parameter, to any URL, leaves every other query item as it was |
| Store.Defaults.Set | Sources/VersaillesSplendor/RoyalDecree.swift:57 | `set(_:forKey:)` replaces the one entry and keeps all others |
| ChateauKeeper.HeraldryIsAlphanumeric | Sources/VersaillesSplendor/VersaillesSplendor.swift:222 | the symbol string has 62 characters, all in [a-zA-Z0-9] |
| ChateauKeeper.ForgeRoyalSeal | Sources/VersaillesSplendor/VersaillesSplendor.swift:221-230 | a forged seal has exactly the requested length and only alphanumeric characters |
| ChateauKeeper.UniqueSeal | Sources/VersaillesSplendor/VersaillesSplendor.swift:205-214 | a kept seal is returned with the store unchanged; otherwise a seal of 10 to 20 alphanumeric characters is kept and returned; either way the store then holds the returned seal |
| ChateauKeeper.SealIsCached | Sources/VersaillesSplendor/VersaillesSplendor.swift:205-214 | a second call returns the same seal and leaves the same store, whatever its draw; the seal is non-empty unless "" was already kept |
| ChateauKeeper.GetUniqueChateauSeal | Sources/VersaillesSplendor/VersaillesSplendor.swift:205-214 | the read-then-write on the store returns and stores exactly what `UniqueSeal` says |
| RoyalDecree.KeysApart | Sources/VersaillesSplendor/RoyalDecree.swift:43-46 | the flag, saved-destination, path-token and seal key families never collide, and distinct seals give distinct flag keys |
| RoyalDecree.Accepted | Sources/VersaillesSplendor/RoyalDecree.swift:252 | the accepted status band `(200...403).contains(statusCode)`; its edges are `StatusBandEdges` |
| RoyalDecree.ExamineRoyalCalendar | Sources/VersaillesSplendor/RoyalDecree.swift:205-218 | the date gate: the current time has reached the target date; its place in the gate order is `ExamineNamesFailedGate` |
| RoyalDecree.ExamineRoyalDevice | Sources/VersaillesSplendor/RoyalDecree.swift:220-230 | the device gate: the model is not "iPad"; `DeviceIgnoredUnlessChecked` states when it is consulted |
| RoyalDecree.Expedite | Sources/VersaillesSplendor/RoyalDecree.swift:232-271 | success exactly when the URL parses and an HTTP status in 200...403 came back, with reason "Success"; a success names the last redirect or else the request URL, never ""; a failure has ""; each failure names its cause: "Invalid manor address", "Courier path error: <description>", "Distant manor error: <status>", "Invalid royal response", or "Unknown royal error" on a timeout |
| RoyalDecree.RecordPathItem | Sources/VersaillesSplendor/RoyalDecree.swift:317-321 | only the path-token key is written; with a `pathid` item in the request it then holds that item's value ("" without one), and without such an item the store is unchanged |
| RoyalDecree.RecordPathValue | Sources/VersaillesSplendor/RoyalDecree.swift:53-58 | only the path-token key is written; it then holds the destination's `pathid` value when there is one, and otherwise the store is unchanged |
| RoyalDecree.SealedExpedite | Sources/VersaillesSplendor/RoyalDecree.swift:273-338 | the result is `Expedite` of the URL with the store's seal appended as `push_id`; writes only the seal key and the path-token key, the store then holds the seal used, and a failure writes only the seal |
| RoyalDecree.Revalidate | Sources/VersaillesSplendor/RoyalDecree.swift:342-369 | writes only what getting the seal writes; a valid answer has a non-empty destination |
| RoyalDecree.Reroute | Sources/VersaillesSplendor/RoyalDecree.swift:371-442 | writes only the path-token key; success has a non-empty destination and keeps the fallback request's `pathid` item there ("" without a value, nothing without the item); failure has "" and writes nothing |
| RoyalDecree.ExamineDistantManor | Sources/VersaillesSplendor/RoyalDecree.swift:232-271 | the callback-and-patch code returns exactly `Expedite` |
| RoyalDecree.PreservePathScroll | Sources/VersaillesSplendor/RoyalDecree.swift:161-166 | the store afterwards is `RecordPathValue` of the store before |
| RoyalDecree.ExamineDistantManorWithPathScroll | Sources/VersaillesSplendor/RoyalDecree.swift:273-338 | result and store as `SealedExpedite` |
| RoyalDecree.ValidatePreservedManor | Sources/VersaillesSplendor/RoyalDecree.swift:342-369 | result and store as `Revalidate` |
| RoyalDecree.RequestNewManorWithPathScroll | Sources/VersaillesSplendor/RoyalDecree.swift:371-442 | result and store as `Reroute` |
| RoyalDecree.Recall | Sources/VersaillesSplendor/RoyalDecree.swift:49-95 | with the distant flag set the verdict always reveals, with an empty destination exactly when "Failed to obtain new manor, reveal empty chronicle" |
| RoyalDecree.Examine | Sources/VersaillesSplendor/RoyalDecree.swift:107-172 | a first evaluation that refuses has an empty destination and leaves the chateau flag set; one that reveals says "All royal examinations passed" with a non-empty destination |
| RoyalDecree.Decree | Sources/VersaillesSplendor/RoyalDecree.swift:35-173 | a set distant flag always reveals, and a refusal never names a destination; the latch and replay lemmas below are about it |
| RoyalDecree.ExamineDistantRealms | Sources/VersaillesSplendor/RoyalDecree.swift:35-173 | verdict and store as `Decree` on the call's arguments |
| RoyalDecreeProperties.HeraldicIsPlain | Sources/VersaillesSplendor/VersaillesSplendor.swift:222 | a forged seal contains no '&', '=' or '#', so it stays one query value |
| RoyalDecreeProperties.SealedRequestCarriesSeal | Sources/VersaillesSplendor/RoyalDecree.swift:276-280 | the sealed request reads back the seal as `push_id` and keeps the caller's `pathid` item unchanged |
| RoyalDecreeProperties.FallbackCarriesPathScroll | Sources/VersaillesSplendor/RoyalDecree.swift:376-383 | the fallback request is the URL itself when no token is kept, and otherwise reads back the token as `pathid`, for any token without '&' or '#' |
| RoyalDecreeProperties.StatusBandEdges | Sources/VersaillesSplendor/RoyalDecree.swift:252-256 | 200 and 403 are accepted; 199 and 404 fail with "Distant manor error: 199" and "…: 404" |
| RoyalDecreeProperties.RejectionNamesStatus | Sources/VersaillesSplendor/RoyalDecree.swift:256 | two rejections with the same reason have the same status |
| RoyalDecreeProperties.FragmentSwallowsItems | Sources/VersaillesSplendor/RoyalDecree.swift:276-280 | for a caller URL with a '#', the sealed and the fallback requests have the caller's query, so `push_id` reads back as it was in the caller's URL |
| RoyalDecreeProperties.FirstSuccessKeepsCallerPathId | Sources/VersaillesSplendor/RoyalDecree.swift:316-321 | after an accepted sealed request, for any caller URL, the kept token is the caller URL's `pathid` ("" for an item without a value); without such an item the token key is untouched |
| RoyalDecreeProperties.FirstRevealPathToken | Sources/VersaillesSplendor/RoyalDecree.swift:160-166 | after a revealing first evaluation the token is the destination's `pathid` value when it has one, else the caller URL's `pathid` item, else what it was before |
| RoyalDecreeProperties.RecallStands | Sources/VersaillesSplendor/RoyalDecree.swift:49-94 | with the distant flag set no flag is written; the reason is one of three; only a new manor is saved: the valid cached answer and the failed fallback leave the saved destination as it was, so the next call revalidates the same one |
| RoyalDecreeProperties.RecallPathToken | Sources/VersaillesSplendor/RoyalDecree.swift:53-80 | the token a cached call leaves for later calls: unless a new manor was obtained, the preserved destination's `pathid` value kept before revalidating, else the earlier token; after a new manor, the new destination's `pathid` value, else the fallback request's `pathid` item, else that kept token |
| RoyalDecreeProperties.RecallRequests | Sources/VersaillesSplendor/RoyalDecree.swift:50-92 | a cached call first requests the preserved destination with the seal, then the URL with the fallback token (the preserved destination's `pathid`, kept before revalidating, else the earlier token), and answers from the first accepted |
| RoyalDecreeProperties.CachedChateauReplays | Sources/VersaillesSplendor/RoyalDecree.swift:98-105 | with only the chateau flag set: (false, "", "Cached chateau content") and the store unchanged |
| RoyalDecreeProperties.ExamineLatches | Sources/VersaillesSplendor/RoyalDecree.swift:107-172 | a first evaluation reveals exactly when all four gates pass; then the distant flag is set and the non-empty destination saved; otherwise the chateau flag is set, the destination is "" and neither the distant flag nor the saved destination is touched |
| RoyalDecreeProperties.ExamineNamesFailedGate | Sources/VersaillesSplendor/RoyalDecree.swift:108-154 | each failed gate in order gives its own reason; the first three set only the chateau flag; a failed remote check embeds the fetcher's reason and leaves the store the seal lookup left (a new install seal when none was kept) with the chateau flag set; no refusal touches the path-token key |
| RoyalDecreeProperties.DeviceIgnoredUnlessChecked | Sources/VersaillesSplendor/RoyalDecree.swift:130-143 | without `deviceCheck` the device model does not change the outcome |
| RoyalDecreeProperties.DecreeFootprint | Sources/VersaillesSplendor/RoyalDecree.swift:43-172 | a call writes only its seal's three keys (two flags and the saved destination), the URL's path-token key and the install-seal key; the path-token key is shared by every cache key used with the same URL |
| RoyalDecreeProperties.SealKeptByDecree | Sources/VersaillesSplendor/VersaillesSplendor.swift:205-214 | a call leaves an install seal that is already stored as it was: the seal is made at most once |
| RoyalDecreeProperties.OtherSealsUntouched | Sources/VersaillesSplendor/RoyalDecree.swift:43-46 | a call leaves the flags of every other seal as they were |
| RoyalDecreeProperties.OwnSealLatched | Sources/VersaillesSplendor/RoyalDecree.swift:49-157 | the distant branch returns before the chateau flag is written and the chateau check before the distant flag is; a first evaluation sets exactly the flag of its decision |
| RoyalDecreeProperties.DecreeLatches | Sources/VersaillesSplendor/RoyalDecree.swift:110-157 | flags are only ever written `true`: every set flag stays set, and a store where no seal has both flags set stays so |
| RoyalDecreeProperties.RunLatches | Sources/VersaillesSplendor/RoyalDecree.swift:49-157 | over any sequence of calls, set flags stay set and the flags stay exclusive |
| RoyalDecreeProperties.RunKeepsSeal | Sources/VersaillesSplendor/VersaillesSplendor.swift:205-214 | once stored, the install seal is the same after any sequence of calls |
| RoyalDecreeProperties.NeverBothFlags | Sources/VersaillesSplendor/RoyalDecree.swift:49-105 | from an empty store no sequence of calls sets both flags of the same seal |
| RoyalDecreeProperties.DecisionReplays | Sources/VersaillesSplendor/RoyalDecree.swift:49-105 | after a decision, whatever calls follow, the next call with the same seal decides the same way; a refusal replays as "Cached chateau content" without writing |
| VersaillesSplendor.ExamineDistantRealms | Sources/VersaillesSplendor/VersaillesSplendor.swift:90-104 | forwards url, targetDate, deviceCheck, timeout and cacheKey unchanged to the engine |
| VersaillesSplendor.ObtainChateauSeal | Sources/VersaillesSplendor/VersaillesSplendor.swift:110-112 | returns and stores what `getUniqueChateauSeal` does |

## Left out

- The path monitor, URL sessions, semaphore waits and the redirect delegate are inputs. The monitor is one boolean, and each request URL has one reply that already reflects its timeout. The race where a late callback overwrites the verdict after the wait is not modelled, and neither is a server answering the same URL differently within one call.
- `timeout` is carried through but has no effect of its own: its only effect is which reply a request gets.
- `UIDevice.current.model` is a string input, and `Date()` is an integer input, with the target date on the same scale.
- `URL(string:)` validity and `String.hash` are uninterpreted. The empty string never parses.
- `absoluteString` is taken to be the string the URL was made from.
- `URLComponents` is modelled on the raw text. Percent-decoding of names and values is not modelled, and neither is `URLComponents(string:)` failing on a string `URL(string:)` would accept.
- `UserDefaults` holds booleans and strings only. Its coercions between them (a stored "YES" read by `bool(forKey:)`) are not modelled: a string entry reads as false.
- The random draws are inputs: the seal length in 10...20 and one index into the 62 symbols per position.
- `RoyalDecree` obtains the seal through `ChateauKeeper` directly rather than through the `VersaillesSplendor.obtainChateauSeal` facade. The two are proved equal (`VersaillesSplendor.ObtainChateauSeal`).
- The decorative code that never affects control flow is left out: random artists, epochs, dances, composers, measurements and collections.
- ChateauKeeper.SealIsCached: non-emptiness is proved only when the store did not already hold "" under the seal key, because the code returns whatever string it finds there.
- The views, alerts and push-notification wrapper of the library are not part of this model.
