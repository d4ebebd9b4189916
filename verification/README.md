# Verified model of the authentication library's state machines and codecs

This project models the parts of the library whose correctness spans several calls: the API-key
rate limiter, the API-key verifier with its success cache and derive slots, the key and stored-string
codecs, identity-code canonicalisation, the keeper of role copies, the JWKS cache, the DPoP replay
store, and the outbound token cache. `dafny verify dfyconfig.toml` checks all of it.

Each stateful component appears twice. A class updates its fields in place as the library does, and
every method is proved equal to a function on values (`MemoryLimiter.Allow` to `AllowAt`, and so on).
Runs, and interleavings of concurrent calls, are then sequences of those functions, and the properties
are proved for all of them. Every access under one lock is one step.

| module | from | main results |
|---|---|---|
| `Limiter` | apikeys/limit.go | flood bound over whole runs and any callers, and a run that meets it; forgetting a caller changes no answer; exact bursts; exactly what a delay promises whatever others attempt |
| `ApiKeys`, `Base64`, `Text` | apikeys/apikeys.go | parser and printer of stored strings are mutual inverses; minted keys parse; rehashing converges |
| `Verifier`, `Checks` | apikeys/verify.go | in every interleaving a cached answer is the derived one, and slots and the derives of every check, their number and their cost, are accounted for exactly |
| `IdentityCode` | identitycode/identitycode.go | one stored spelling per identity; display is injective and retypable; keys are stable, and exactly which values share one |
| `Placement` | placement/placement.go | the exact time from which no copy grants a removed key; what readiness covers, exactly; suppressed reports |
| `Jwks` | jwks/jwks.go | rotation pickup within the interval, spacing of attempts and freshness in every interleaving |
| `Replay` | replay/replay.go, dpop/dpop.go, authclient/client.go | the store refines an append-only log; exactly which proofs can be replayed, with the two clock readings of the code |
| `Outbound` | authclient/outbound.go | exactly which requests share a cache key; every served token was granted for the same request and is within its bounds |

## Conventions

- Time is an unbounded count of nanoseconds from Go's zero time, which lies below every clock reading.
  Differences of instants saturate at 64 bits as Go's do (`GoTime.Sub`).
- Clocks, randomness, the network, the store, the register and the issuer are parameters. What they may
  answer is constrained only where a statement says so. The membership register answers what is current,
  and a version of it names one state of a tenant's roles and is never empty.
- The key derivation and the digests are function parameters: the derivation is deterministic and
  returns the length asked of it, and a digest is injective only where a statement requires it.
- In the API-key modules a character stands for a byte; in `IdentityCode` for a Unicode character of
  valid UTF-8.

## Where the code and its promises part

- A limiter's burst is floor(Window / interval), which exceeds `Attempts` whenever the window leaves a
  remainder of at least one interval (`Limiter.BurstIsAttempts`, `Limiter.BurstExceedsAttempts`).
- A refused caller is told how long until it may try again. Whatever others attempt meanwhile, a tracked
  caller is sure to be admitted if and only if that delay is over and either its due time has not come or
  one interval since the last sweep has not passed; after both, others can have it forgotten and its retry
  refused (`Limiter.RetryAfterIsExact`, `Limiter.RetryCanBeRefused`). A caller refused by the shared
  overflow allowance is sure of nothing at any later time (`Limiter.OverflowPromisesNothing`,
  `Limiter.OverflowRetryCanBeRefused`); left alone, it is admitted if and only if the delay is over or a
  place can be made for it, which can be earlier (`Limiter.OverflowLeftAlone`).
- A check past the limit and the slot is said to pay exactly one derive (apikeys/verify.go:171-172). One
  that passes pays two if and only if its stored string is below the minted parameters in some field and
  the rehash's salt was read, and one cancelled once it holds its slot pays none; every other check in a
  slot pays one (`Checks.PassesPayExactly`, `Checks.KeyAtTheFloorPaysTwice`, `Checks.CancelledInItsSlot`).
- A role taken back in the register is said to stop working within the trust window. The window counts
  from when the answer is stamped here, which is up to a delay after the register gave it, so the key
  stops being granted one window and one such delay after it was taken back; no earlier bound holds
  (`Placement.RemovedKeyIsNotGranted`, `Placement.GrantedUntilTheBound`).
- A DPoP proof can be accepted twice if and only if it was accepted no later after its `iat` than a
  request may take between its freshness check and its replay check, which read the clock separately. With
  no such delay that is at or before the `iat`, as the leeway allows a client whose clock is ahead
  (`Replay.ReplayableIff`, `Replay.ReplayExample`, `Replay.DelayedReplayExample`).
- Readiness is said to cover every tenant the process has seen. A tenant without a trusted copy counts if
  and only if this process confirmed it once, or it was woken and not listed since; one that is listed and
  whose syncs all fail is passed over (`Placement.ReadyPassesOver`, `Placement.ReadyWithoutTenant`).
- `Key` is said to keep different unrecognised values different. It does so if and only if they differ in
  more than separators and the case of ASCII letters (`IdentityCode.KeysMergeIff`,
  `IdentityCode.KeysMergeExample`).
- A country carried in an identity code wins if and only if the code, once trimmed, is on one line,
  because the patterns do not match across a line feed (`IdentityCode.WrappedBareCode`,
  `IdentityCode.LineFeedHidesCountry`); a code that names its type is otherwise always refused
  (`IdentityCode.OneSpelling`).
- The outbound cache key's `|` marker is only assumed absent from audiences and scopes; wherever it
  occurs in one, another request has the same key (`Outbound.MarkerCollides`). Where it occurs in none,
  two requests still share a key if and only if one is a service request to an audience `obo` whose
  tenant is `t|fingerprint` and the other the delegated request for that fingerprint with the scope
  `tenant=t` (`Outbound.KeysSeparate`, `Outbound.LanesCollide`); the token of either is then
  served to the other (`Outbound.ConfusedIsServed`).
- A subject token whose expiry is exactly Go's zero time does not bound the reuse of its exchanged token
  (`Outbound.ExpiryEndsReuse`, `Outbound.ZeroExpiryIsServed`).

## Model

| member | source | states |
|---|---|---|
| `Limiter.NewLimits` | apikeys/limit.go:51-72 | a configuration is accepted exactly when it has at least one attempt, room for one caller and a window no shorter than its attempts; interval and tolerance add up to the window |
| `Limiter.MemoryLimiter.Take` | apikeys/limit.go:99-112 | spending one attempt gives the verdict, delay and next due time of the cell rate algorithm |
| `Limiter.MemoryLimiter.Sweep` | apikeys/limit.go:116-128 | a sweep, at most once per interval, forgets exactly the callers whose due time has passed |
| `Limiter.MemoryLimiter.Allow` | apikeys/limit.go:75-96 | one call answers and leaves the whole table as the value-level step does |
| `Limiter.FloodBound` | apikeys/limit.go:34-38 | in every run with a nondecreasing clock and any callers, the attempts admitted in any interval of length L are at most (MaxCallers+1) * floor((W+L)/I) |
| `Limiter.AllowanceBound` | apikeys/limit.go:34-38 | each caller's allowance, and the shared one, admits at most floor((W+L)/I) attempts in any interval of length L, across forgetting |
| `Limiter.BoundsAreMet` | apikeys/limit.go:34-38 | for every interval of every length there is a run that admits floor((W+L)/I) attempts from each of MaxCallers callers and from the shared allowance, and so (MaxCallers+1) times that in all |
| `Limiter.ForgettingChangesNothing` | apikeys/limit.go:114-115 | every tracked attempt gets the verdict and delay of a limiter that keeps every due time forever |
| `Limiter.TableIsBounded` | apikeys/limit.go:21-23 | in every run the table holds at most MaxCallers callers |
| `Limiter.OverflowExactlyWhenFull` | apikeys/limit.go:83-90 | an attempt shares the overflow allowance if and only if its caller is untracked, the table is full and no caller can be forgotten |
| `Limiter.NewCallerPasses` | apikeys/limit.go:83-95 | a new caller for whom there is or can be made a place is tracked and its first attempt passes |
| `Limiter.BurstIsExact` | apikeys/limit.go:99-112 | a whole allowance admits the k-th attempt at once if and only if k <= floor(W/I) |
| `Limiter.BurstIsAttempts` | apikeys/limit.go:17-18 | the burst is at least Attempts, and equals it if and only if Window mod Attempts is below the interval |
| `Limiter.BurstExceedsAttempts` | apikeys/limit.go:17-18 | six attempts in ten nanoseconds admit a tenth attempt at once |
| `Limiter.RetryAfterIsExact` | apikeys/limit.go:10-13 | after any run that ends in a tracked refusal, the caller is admitted at a later time in every continuation by others if and only if the delay it was told is over and its due time or the next possible sweep is still ahead |
| `Limiter.RetryCanBeRefused` | apikeys/limit.go:75-96 | a caller told to wait 9 ns, forgotten for another while a third spends the overflow, is refused after 10 |
| `Limiter.OverflowPromisesNothing` | apikeys/limit.go:83-90 | after any run that ends in a refusal by the shared allowance, at every later time some continuation by others has the caller refused again |
| `Limiter.OverflowLeftAlone` | apikeys/limit.go:83-96 | left alone, a caller refused by the shared allowance is admitted later if and only if its delay is over, or a sweep is due and some tracked caller is whole |
| `Limiter.OverflowRetryCanBeRefused` | apikeys/limit.go:83-90 | a caller told by the shared allowance to wait 9 ns is admitted after 8 when alone, and refused after 9 when others came |
| `Text.JoinSplit` | apikeys/apikeys.go:282-290 | splitting at a character loses nothing and leaves no separator in a part |
| `Text.SplitJoin` | apikeys/apikeys.go:282-290 | parts free of the separator are found again by splitting |
| `Text.DecimalIff` | apikeys/apikeys.go:320-332 | a field reads as n if and only if n is below the limit and the field is its name and n's canonical decimal |
| `Text.FormatIsDecimal` | apikeys/apikeys.go:259-266 | a number is printed in its decimal digits, the most significant first, with no zero before them |
| `Base64.DecodeEncode` | apikeys/apikeys.go:336-343 | decoding an encoding gives the bytes back, in both alphabets |
| `Base64.EncodeIsBase64` | apikeys/apikeys.go:259-266 | an encoding is the number its bytes write, in base 64 and the alphabet written out, followed by its padding's zero bits |
| `Base64.StrictBase64Iff` | apikeys/apikeys.go:334-343 | a string reads as b if and only if it is b's canonical encoding; line breaks the decoder skips are caught |
| `Base64.EncodeLookupInjective` | apikeys/apikeys.go:45-49 | different random bytes make different lookup parts |
| `Base64.LookupIsBase32` | apikeys/apikeys.go:45-49 | a lookup part is the number its five bytes write, in base 32 and Crockford's alphabet |
| `ApiKeys.IsValidScheme` | apikeys/apikeys.go:164-176 | a name is valid exactly when it is 2 to 8 lower-case letters or digits, the first a letter |
| `ApiKeys.NameIff` | apikeys/apikeys.go:164-176 | a valid name is two to eight of the small letters and digits, written out, the first a letter |
| `ApiKeys.NewScheme` | apikeys/apikeys.go:117-162 | accepts exactly the configurations with a valid name, a floor of at least 19456 KiB, two passes and one lane, minted parameters at least the floor and a ceiling at least those, field by field; fills in the defaults, the ceiling's as a join |
| `ApiKeys.DecodeOfEncode` | apikeys/apikeys.go:259-316 | every acceptable hash prints as a string within 256 characters that decodes to it |
| `ApiKeys.EncodeOfDecode` | apikeys/apikeys.go:272-316 | every string accepted is exactly the print of its result, within the scheme's bounds |
| `ApiKeys.StoredIff` | apikeys/apikeys.go:259-316 | parser and printer are mutual inverses: accepted as st if and only if st is acceptable and the string is its print |
| `ApiKeys.StoredSpelling` | apikeys/apikeys.go:272-316 | a string is accepted as st if and only if st has a salt of 16 to 64 bytes, a tag of 32 and parameters within floor and ceiling in every field, and the string is its print |
| `ApiKeys.EncodeSpelt` | apikeys/apikeys.go:259-266 | the print of a hash, written out field by field |
| `ApiKeys.Parse` | apikeys/apikeys.go:219-240 | the loops accept exactly the keys the specification function accepts |
| `ApiKeys.ParseIff` | apikeys/apikeys.go:217-240 | a key is accepted as its parts if and only if they are well shaped and rebuild it exactly |
| `ApiKeys.KeyIff` | apikeys/apikeys.go:217-240 | a key is accepted if and only if it is the scheme, eight of Crockford's symbols and 32 of URL base64's with an underscore between, in the alphabets written out |
| `ApiKeys.MintedReads` | apikeys/apikeys.go:193-210 | for all randomness a minted key parses to its own lookup and secret, and its hash decodes at the minted parameters |
| `ApiKeys.MintInjective` | apikeys/apikeys.go:193-210 | two mints make the same key only from the same random key bytes |
| `ApiKeys.RehashConverges` | apikeys/apikeys.go:242-252 | for any parameters in bounds a rehash is asked for exactly when a field is below the minted one; it decodes at the join of both, lowers nothing, holds the same secret's derivation, and asks for no further rehash |
| `Verifier.NewSettings` | apikeys/verify.go:127-168 | refuses exactly a missing lookup and negative settings; an accepted one has the defaults where a number is zero, at least one slot, room for one entry when caching, and a limiter of 60 attempts a minute for each of 10,000 callers if and only if none was given |
| `Verifier.SuccessCache.Hit` | apikeys/verify.go:282-290 | a hit needs a live entry for the lookup with the same stored string and the digest of the secret |
| `Verifier.SuccessCache.Put` | apikeys/verify.go:292-315 | keeps what it may: a full cache drops the expired, then only as many others as make room for one; never more than its size |
| `Verifier.PutIsExact` | apikeys/verify.go:292-315 | a put leaves its entry and everything else when the lookup was there or there was room, and otherwise live entries alone, as many as there are or as many as fit |
| `Verifier.PutAnswersUntil` | apikeys/verify.go:282-315 | an entry put at u is hit by its own stored string and secret at t if and only if t < u + ttl |
| `Verifier.HitAgrees` | apikeys/verify.go:201-220 | an answer from an earned entry is the answer one derive gives on the same lookup, with no rehash |
| `Verifier.KeyVerifier.Verify` | apikeys/verify.go:170-263 | the refusals for load in their order, and past them what one derive decides, cached or not; the slot is given back; the cache remembers the check if and only if it derived, passed and needed no rehash |
| `Verifier.FilledIsCached` | apikeys/verify.go:201-220 | after a check that filled the cache at u, the same key is answered from it at t if and only if t < u + ttl and the store still gives the same string |
| `Verifier.KeyVerifier.Settle` | apikeys/verify.go:242-263 | the part in the slot decides by one derive and fills the cache only with a plain pass |
| `Verifier.PassesIff` | apikeys/verify.go:190-249 | a check passes if and only if the key parses, its stored string is found and decodes, and the secret derives to its tag |
| `Verifier.RefusedIff` | apikeys/verify.go:242-249 | a check is refused for its stored string if and only if the key parses and the string found does not decode, and for its key if and only if the key does not parse, is not found, or its secret derives to another tag |
| `Verifier.RehashIff` | apikeys/verify.go:251-262 | a pass hands back a rehash if and only if a field of the stored string is below the minted one and a salt was read; it decodes to the join of both, that salt and the derivation there, and names the string it replaces |
| `Verifier.MintedKeyPasses` | apikeys/apikeys.go:190-192 | a minted key passes against its own hash and asks for no rehash |
| `Verifier.RehashedKeyPasses` | apikeys/verify.go:116-124 | the rehash handed back names the string it replaces, passes for the same key and asks for no further one |
| `Checks.CacheRefinesDerive` | apikeys/verify.go:201-263 | in every interleaving each answer is a refusal for load or the one an uncached derive makes on the same lookup answer; one from the cache is the same for every rehash salt |
| `Checks.HitIsTimely` | apikeys/verify.go:282-315 | in every interleaving a check the cache answered at t has another check of the same key and stored string behind it that paid its derive, passed and filled the cache at u, with t < u + ttl |
| `Checks.PassesAreRemembered` | apikeys/verify.go:253-260 | in every interleaving a check fills the cache if and only if caching is on and it derived, passed and had no rehash to make |
| `Checks.EntryAnswers` | apikeys/verify.go:282-290 | a check that meets the entry put at u for its own key and stored string reads it, and is answered at t if and only if t < u + ttl |
| `Checks.CacheIsBounded` | apikeys/verify.go:292-315 | in every interleaving the cache holds at most CacheSize entries |
| `Checks.SlotsAreHeld` | apikeys/verify.go:231-240 | in every interleaving the slots taken are the checks between taking and giving one back, cancelled ones included, and at most MaxDerives |
| `Checks.RefusalsPayOnce` | apikeys/verify.go:170-174 | in every interleaving a refused key or stored string paid exactly one derive, at the stored string's parameters if it decodes and at the minted ones otherwise; a refusal for load paid none |
| `Checks.RefusalsCostTheSame` | apikeys/verify.go:171-174 | while stored strings are at the minted parameters, a wrong, an unknown and a malformed key pay the same derive |
| `Checks.DerivesInBounds` | apikeys/apikeys.go:298-316 | in every interleaving no derive, a rehash's included, runs outside the scheme's floor and ceiling |
| `Checks.PassesPayExactly` | apikeys/verify.go:251-262 | in every interleaving a check pays two derives if and only if it passes, its stored string is below the minted parameters in some field and the salt was read, the second at the join of both; one if and only if it is refused as a key, or passes neither from the cache nor with a rehash; never more, and a pass pays nothing if and only if the cache answered |
| `Checks.KeyAtTheFloorPaysTwice` | apikeys/verify.go:253-257 | wherever the floor is below the minted parameters, any key stored at the floor has a run in which its check pays two derives |
| `Checks.CancelledInItsSlot` | apikeys/verify.go:231-240 | any check can be cancelled once it holds its slot, and has then paid nothing |
| `IdentityCode.Canonical` | identitycode/identitycode.go:153-201 | the unwrapping loop ends and the result is the specification function's |
| `IdentityCode.Identifier` | identitycode/identitycode.go:362-381 | the builder loop refuses exactly what holds another character or nothing, and otherwise gives the separator-free upper-case form |
| `IdentityCode.Key` | identitycode/identitycode.go:212-234 | the loop computes the specification function |
| `IdentityCode.ToUpper` | identitycode/identitycode.go:438-447 | upper-cases the ASCII letters in place and leaves the rest |
| `IdentityCode.CharactersAre` | identitycode/identitycode.go:406-411 | capitals, small letters, digits and separators are exactly the characters written out |
| `IdentityCode.UpperIs` | identitycode/identitycode.go:434-447 | the i-th small letter becomes the i-th capital, and every other character stays |
| `IdentityCode.OneSpelling` | identitycode/identitycode.go:139-201 | every way to type a code that names its type, each letter as itself or its small letter, with spaces, hyphens, dots and slashes anywhere in the identifier, spaces around it, country pairs about it, spaces after each pair and any hint, is stored as the one canonical string if and only if it is on one line once trimmed; otherwise it is refused |
| `IdentityCode.CanonicalIsStored` | identitycode/identitycode.go:151-152 | every result satisfies Parse and is returned unchanged when canonicalised again under any hint |
| `IdentityCode.StoredIsCanonical` | identitycode/identitycode.go:151-152 | a stored code is its own canonical form under any hint |
| `IdentityCode.CountryIsNeverGuessed` | identitycode/identitycode.go:16-19 | a hint changes nothing for a value that names a country; a value that names none is refused without a hint and stored under exactly the hint with one |
| `IdentityCode.RefusalsAre` | identitycode/identitycode.go:153-201 | which error a value out of its pairs is refused with, and what it is stored as otherwise, case by case |
| `IdentityCode.WrappedBareCode` | identitycode/identitycode.go:159-169 | a bare code in country pairs, with any spaces around it and after each pair, is stored under the innermost country whatever the hint if it is on one line once trimmed, and otherwise read as a bare code under the hint |
| `IdentityCode.LineFeedHidesCountry` | identitycode/identitycode.go:128-131 | a value with Latvia's pair and an inner line feed is stored under an Estonian hint |
| `IdentityCode.ParseIff` | identitycode/identitycode.go:312-353 | a string parses to a code if and only if the code is proper and prints as the string |
| `IdentityCode.StoredCodeIff` | identitycode/identitycode.go:312-353 | a string is a stored code if and only if it is one of the five types, two capitals, a hyphen, and capitals and digits |
| `IdentityCode.DisplayIsInjective` | identitycode/identitycode.go:236-274 | distinct stored codes are shown differently |
| `IdentityCode.DisplayIsRetypable` | identitycode/identitycode.go:249-253 | what is shown, typed back under the code's own country, reaches the same code |
| `IdentityCode.DisplayShows` | identitycode/identitycode.go:254-274 | a Latvian personal number of eleven digits is shown as six and five with a hyphen between, every other stored code as it is, and anything else unchanged |
| `IdentityCode.KeyMeans` | identitycode/identitycode.go:203-234 | the key is the canonical form whenever there is one without a hint; otherwise it is the separator-free upper-case form, holds no hyphen and parses as no stored code |
| `IdentityCode.KeysMergeIff` | identitycode/identitycode.go:207-211 | two unrecognised values have one key if and only if they differ in nothing but separators and the case of ASCII letters |
| `IdentityCode.KeysMergeExample` | identitycode/identitycode.go:207-211 | two different unrecognised values with one key |
| `IdentityCode.KeyIsStable` | identitycode/identitycode.go:203-234 | the key of a key is the key, for every string |
| `Placement.Keeper.Sync` | placement/placement.go:263-289 | one sync changes the copy, the confirmation and the reported counts as the value-level step does, on every failure path |
| `Placement.FailedSyncKeeps` | placement/placement.go:263-282 | which error a sync that does not get to its report ends in, and that confirmation, counts and, unless the write was made, the copy stay |
| `Placement.Keeper.ReportCounts` | placement/placement.go:293-323 | counts are sent exactly when they differ from those last accepted |
| `Placement.Keeper.Cycle` | placement/placement.go:224-253 | a cycle forgets listed tenants as extra, then syncs every listed tenant in the store's order and every extra one once, in turn until the context ends, and marks the keeper started |
| `Placement.Keeper.Woken` | placement/placement.go:214-218 | a woken tenant is remembered as extra and synced |
| `Placement.Keeper.IsReady` | placement/placement.go:330-358 | names exactly the tenants confirmed at a time before now - window and the extra ones never confirmed |
| `Placement.TrustedWithinWindow` | placement/placement.go:181-186 | a copy grants under the keeper's TrustedSince exactly what it carries, while now <= confirmedAt + window |
| `Placement.RemovedKeyIsNotGranted` | placement/placement.go:16-21 | for every run of honest answers, failures and lost writes, a key taken from a role at T and not given back is granted by no copy under the keeper's TrustedSince from T + window + delay on |
| `Placement.GrantedUntilTheBound` | placement/placement.go:16-21 | for every window and delay there is an honest run after which such a key is granted exactly until T + window + delay |
| `Placement.KeptAnswerIsGranted` | placement/placement.go:109-114 | after a kept answer the copy grants exactly what the register carried when asked, until the window has passed |
| `Placement.ReadyMeansTrusted` | placement/placement.go:325-329 | when a keeper is ready under its own TrustedSince, its confirmed and extra tenants each have a copy in the store confirmed no longer than the window ago |
| `Placement.ReadinessCovers` | placement/placement.go:238-245 | in every run a tenant is among the confirmed if and only if a visit of this process confirmed it, and among the extra if and only if it was woken and not listed since |
| `Placement.ConfirmedWhen` | placement/placement.go:284-286 | in every run a tenant's confirmation is the time of its last confirming visit |
| `Placement.ReadyPassesOver` | placement/placement.go:325-358 | in every honest run a tenant without a trusted copy is named stale if and only if this process confirmed it once, or it was woken and not listed since |
| `Placement.ReadyWithoutTenant` | placement/placement.go:325-358 | a keeper that listed a tenant and could not reach the register for it is ready while the store holds no copy of it |
| `Placement.SuppressedReportIsKnown` | placement/placement.go:291-323 | after a sync whose report was not refused the register has accepted exactly the current counts, sent now or before |
| `Placement.SentWhenChanged` | placement/placement.go:291-323 | after a sync whose report was not refused, one with the same counts sends nothing, and one with other counts fails exactly with its own report |
| `Jwks.Client.Cached` | jwks/jwks.go:112-123 | a key is read only from a document within its lifetime |
| `Jwks.Client.Refresh` | jwks/jwks.go:133-186 | a refresh fetches only if the stamp is the one seen and the interval has passed, stamps every attempt, and replaces the keys only on success |
| `Jwks.Client.Key` | jwks/jwks.go:86-110 | one call alone answers from the cache, or after one refresh from what it left |
| `Jwks.LastEntryWins` | jwks/jwks.go:176-180 | a kid means its last entry in the document, and no other kid means anything |
| `Jwks.AttemptsAreSpaced` | jwks/jwks.go:142-149 | in every interleaving, failures included, the i-th and j-th attempts are stamped at least j - i intervals apart |
| `Jwks.AttemptIff` | jwks/jwks.go:133-149 | in every interleaving a refresh makes an attempt if and only if the document is still the one its call missed on and no attempt was stamped within the interval |
| `Jwks.FailureKeepsKeys` | jwks/jwks.go:150-186 | a failed attempt changes no read of the cache |
| `Jwks.KeysAreFresh` | jwks/jwks.go:112-123 | in every interleaving a key handed out was mapped to its kid by the document of a successful attempt, every attempt since failed, and the document was no older than the lifetime |
| `Jwks.RotationIsPickedUp` | jwks/jwks.go:84-110 | in every interleaving a call begun with no attempt in the interval before it, while fetches succeed with the kid and do not lapse, answers with that key or with what its first read already held; never unknown |
| `Jwks.RotationWithinInterval` | jwks/jwks.go:31-35 | in every interleaving, whatever other kids do, if every attempt stamped since a time fetched the kid and has not lapsed, a call for it begun one interval after that time answers with the key, or with what was cached when it began |
| `Replay.Memory.CheckAndSet` | replay/replay.go:40-54 | one call answers and leaves the store as the value-level step does |
| `Replay.Memory.Gc` | replay/replay.go:57-69 | at most once a second, drops exactly the expired entries |
| `Replay.StoreIsExact` | replay/replay.go:15-20 | for a nondecreasing clock and any lifetimes, a jti is first if and only if no earlier acceptance in an append-only log is live |
| `Replay.NothingStaleStays` | replay/replay.go:56-69 | after every acceptance, whatever is left in the store runs out later than a second before it |
| `Replay.ValidatedIff` | dpop/dpop.go:208-216 | a request reaches the store if and only if it passes every other check and its iat is at most the leeway ahead and the age and leeway back; it is remembered for age and leeway, and any other leaves the store as it was |
| `Replay.TwiceNeedsDelay` | authclient/client.go:174-213 | a proof accepted twice took at least as long between its freshness and its replay check as the first acceptance came after its iat |
| `Replay.AtMostOnce` | replay/replay.go:1-4 | a proof first accepted later after its iat than any request takes between its two checks is never accepted again |
| `Replay.ReplayableIff` | dpop/dpop.go:208-216 | an accepted proof can be accepted again if and only if it was accepted no later after its iat than a request may take between its freshness and its replay check; a negative lifetime counts as lateness |
| `Replay.ReplayExample` | dpop/dpop.go:212-216 | a proof accepted at its iat is accepted again 65 seconds later under 60 seconds of age and 5 of leeway |
| `Replay.DelayedReplayExample` | authclient/client.go:174-213 | a proof accepted one second after its iat is accepted again by a request that is one second between its two checks |
| `Outbound.KeysSeparate` | authclient/outbound.go:53-64 | requests with no marker in audience or scope, whatever their tenants, share a cache key if and only if they are the same request or a confused pair of the two lanes |
| `Outbound.LanesMeetIff` | authclient/outbound.go:101-103 | a service and a delegated request share a key if and only if the service is obo and its tenant spells the rest of the delegated key; no injectivity of the fingerprint is needed |
| `Outbound.LanesCollide` | authclient/outbound.go:58-64 | for every marker-free scope and tenant and every subject token there is such a pair with no marker in audience or scope |
| `Outbound.MarkerCollides` | authclient/outbound.go:58-61 | every request with the marker in its audience or scope shares its key with a different request |
| `Outbound.TokenCache.Cached` | authclient/outbound.go:152-161 | a token is served only while it may be |
| `Outbound.TokenCache.Store` | authclient/outbound.go:167-182 | keeps exactly what may still be served, and the new token if it may |
| `Outbound.TokenCache.AcquireService` | authclient/outbound.go:60-78 | serves from the cache or asks and keeps, under the tenanted key |
| `Outbound.TokenCache.AcquireDelegated` | authclient/outbound.go:101-119 | serves from the cache or exchanges, and keeps the token only if the subject token's expiry is readable |
| `Outbound.StoreSweeps` | authclient/outbound.go:163-182 | after a store every entry is servable, other servable entries are served as before, and a servable new one is served |
| `Outbound.ReusedIff` | authclient/client.go:64-72 | a token granted at a time for a lifetime is served to the same request at a later t, with nothing stored between, if and only if the expiry was readable, t and the early margin are before its end, and t is before the expiry unless that is the zero time |
| `Outbound.ServedTokensAreOwn` | authclient/outbound.go:85-98 | in every run a token served to a request that can be confused with none was granted earlier for the same lane, audience, scope and tenant or subject token, outside the early margin and before the subject token's expiry |
| `Outbound.ConfusedIsServed` | authclient/outbound.go:152-161 | of two confused requests, whichever is granted a token, the other is served it in a well-formed run |
| `Outbound.AcquiredIsRun` | authclient/outbound.go:60-119 | an acquisition left alone leaves the cache its serve, grant and store leave, and keeps the run one the theorem on served tokens speaks of |
| `Outbound.ExpiryEndsReuse` | authclient/client.go:66-72 | the subject token's expiry ends reuse for every expiry but the zero time |
| `Outbound.ZeroExpiryIsServed` | authclient/client.go:71-71 | at any clock reading a token exchanged for a subject token that expired at the zero time is kept, and served from the cache as long as it lives |

## Left out

- HTTP, DPoP proof signing and verification, JWT and JWK parsing, telemetry and the Redis store: foreign libraries and I/O; their answers are parameters.
- Argon2id, SHA-256 and constant-time comparison: function parameters and plain equality; timing is not modelled.
- The rest of asclient, authclient, claims, nonce, permissions and chart: straight-line validation, or for chart/chart.go a second copy of the keeper without counts.
- The keeper's wake queue and ticker: any order of wakes and cycles is covered, their timing is not.
- Concurrent syncs of one tenant, and several processes writing one store at once: the trust window is stated for one serial loop after any honest earlier history of the store.
- The limiter in front of a verifier in `Checks`: only checks the limiter admitted are interleaved; the limiter's own runs are in `Limiter`.
- Strings that are not valid UTF-8, for which Go's ranging substitutes a replacement character.
- HTTPStatus, RetryAfter and IsNaturalPerson: tables and single-branch mappings; the texts of errors beside their kinds.
