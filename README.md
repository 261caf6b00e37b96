# NAMASTE-ICD-CLI core, modelled in Dafny

NAMASTE-ICD-CLI is a command-line tool. It keeps India's NAMASTE terminology
(Ayurveda, Siddha and Unani morbidity codes) beside the WHO's ICD-11 codes. It
also maps between the two and exchanges the results as HL7 FHIR R4 resources.
This project models the tool's core and proves properties of the model:

- **WHO credential handling** (`icd_auth.dfy`).
  - An OAuth 2.0 client-credentials client, per section 4.4 of RFC 6749.
  - It caches its access token and lets concurrent callers share one refresh.
  - It retries transient failures with the fixed backoff 300, 900 and 2700 ms.
  - It sends the token as a Bearer credential, per section 2.1 of RFC 6750.
  - A 401 answer is met with one forced refresh and one re-send.
- **Token stores** (`token_store.dfy`).
  - A volatile single slot.
  - A document-database store keyed by provider, with lazy set-up of its collection.
- **HTTPS enforcement** (`https_util.dfy`).
- **Automatic mapping by word overlap** (`auto_map.dfy`).
  - Jaccard similarity, a 0.3 threshold, equivalence bands and the three best candidates.
  - Saving only mappings that are not stored yet.
- **FHIR resource construction** (`fhir_utils.dfy`).
  - NAMASTE and ICD-11 CodeSystems, the NAMASTE-to-ICD ConceptMap and the encounter Bundle.
  - The basic resource validator.
- **CSV ingestion of NAMASTE codes** (`ingest_namaste.dfy`): row validation, normalisation and counting.
- **Ingestion with automatic ICD-11 derivation** (`ingest_auto_mapping.dfy`).
  - Keyword-driven generation of TM2 and biomedical codes.
  - Insertion of the missing ones.
  - Mappings by code containment.
  - A ConceptMap when any mapping was created.
- **Encounter upload** (`upload_encounter.dfy`).
  - Resource-type dispatch and Bundle entry selection.
  - Problem extraction from diagnoses, reason codes or a default.
  - Classification of codings as NAMASTE or ICD-11.

Shared modules:
- `wrappers.dfy` (Option, Result);
- `strings.dfy` (the JavaScript string operations used);
- `json.dfy` (parsed JSON values with JavaScript truthiness);
- `terminology.dfy` (the code and mapping records, and the mapping collection).

**Stateful code becomes classes.**
- Token manager: `ICDAuthService` holds the in-flight refresh marker and both stores.
- Stores: `InMemoryTokenStore`, `MongoTokenStore`.
- Collections: `MappingTable`, `IcdTable`.
- The CSV handler's state: `Ingestion`.
- Loops are methods proved against specification functions, for example `RefreshToken` against `IsRetryRun`.

**Outside influences are parameters.**
- The clock is a parameter.
- The token endpoint, the database and the protected API are oracles given per call or per attempt.
- Concurrency is an explicit state machine. A caller arrives, and one refresh completes for all callers attached to it.

**Behaviour that follows the code.**
- **Short lifetimes.** A token whose declared lifetime is ten seconds or less is stored already expired. Its `expiresAt` is not after its `fetchedAt`, so it is never used from the cache (`IcdAuth.FreshnessWindow`). The documented rule that expiry lies after the fetch time does not hold for such tokens.
- **Blank rows pass the required-field test.** The test looks at the untrimmed cells. A row whose name is only spaces is accepted and counted. Its normalised code, the one that goes into the CodeSystem, has an empty name (`IngestNamaste.BlankNameAccepted`). The database's own trim-and-required check on the name would still reject that document; that check is not modelled.
- **The `enc-` fallback.** A top-level Encounter reaches processing only with a truthy `id`, because the validator demands one. So the fallback id applies only to Encounters inside a Bundle (`UploadEncounter.DirectEncounterKeepsId`).
- **Code containment overmatches.** A NAMASTE code is related to every generated code that contains its code with `NAM` removed. This includes codes derived from other NAMASTE codes: `NAM1` relates to `TM2-12` (`IngestAutoMapping.RelatedAcrossCodes`).

## Model

| member | source | states |
|---|---|---|
| HttpsUtil.SchemeMatchEnd | src/utils/httpsUtil.ts:24 | where the anchored pattern `^[^:]+:\/\/` ends: at least four characters in, after `://`, with no colon before it |
| HttpsUtil.WebSchemesMatch | src/utils/httpsUtil.ts:9-24 | `https://` and `http://` URLs match the scheme pattern and contain `://` |
| HttpsUtil.EmptyUnchanged | src/utils/httpsUtil.ts:6 | the empty URL is returned unchanged |
| HttpsUtil.HttpsUnchanged | src/utils/httpsUtil.ts:9-11 | a URL already starting with `https://` is returned unchanged |
| HttpsUtil.HttpUpgraded | src/utils/httpsUtil.ts:14-16 | `http://rest` becomes `https://rest` |
| HttpsUtil.NoSchemePrefixed | src/utils/httpsUtil.ts:19-21 | a non-empty URL without `://` gets `https://` prepended |
| HttpsUtil.SchemeReplaced | src/utils/httpsUtil.ts:24 | any non-empty, colon-free scheme before `://` is replaced by `https` |
| HttpsUtil.UnmatchedUnchanged | src/utils/httpsUtil.ts:24 | a URL with `://` that the pattern does not match is returned unchanged |
| HttpsUtil.UnmatchedExamples | src/utils/httpsUtil.ts:24 | `://x` and `a:b://c` come back unchanged |
| HttpsUtil.SecureOrUnchanged | src/utils/httpsUtil.ts:5-25 | the result starts with `https://` exactly when the input is non-empty and has no `://` or a matching scheme; otherwise the input is returned |
| HttpsUtil.Idempotent | src/utils/httpsUtil.ts:5-25 | enforcing HTTPS twice equals enforcing it once |
| HttpsUtil.SampleUrls | scripts/test-auth.ts:24-33 | the three sample entity URLs all become `https://id.who.int/icd/entity/...` |
| TokenStore.InMemoryTokenStore.constructor | src/services/tokenStore.ts:17 | a new volatile store holds no record |
| TokenStore.InMemoryTokenStore.Get | src/services/tokenStore.ts:20-21 | returns the slot |
| TokenStore.InMemoryTokenStore.Set | src/services/tokenStore.ts:24-25 | the slot holds exactly the given record afterwards |
| TokenStore.InMemoryTokenStore.Clear | src/services/tokenStore.ts:28-29 | the slot is empty afterwards |
| TokenStore.MongoTokenStore.constructor | src/services/tokenStore.ts:35-41 | the store starts with no model, over the existing collection |
| TokenStore.MongoTokenStore.GetCollection | src/services/tokenStore.ts:43-69 | set-up succeeds once the connection is ready (readyState 1), and is then kept; the result says whether the model is set up |
| TokenStore.MongoTokenStore.Get | src/services/tokenStore.ts:71-89 | never fails; it returns the provider's document only when set-up and query succeed, and no record otherwise |
| TokenStore.MongoTokenStore.Set | src/services/tokenStore.ts:91-109 | upserts the `icd` document on success; a set-up failure or a query failure reaches the caller and the collection is unchanged |
| TokenStore.MongoTokenStore.Clear | src/services/tokenStore.ts:111-120 | deletes the `icd` document when set-up and query succeed; failures are swallowed and the collection is unchanged |
| TokenStore.InMemoryRoundTrip | src/services/tokenStore.ts:17-30 | get after set returns the record; a second set overwrites it; get after clear returns nothing |
| TokenStore.MongoRoundTrip | src/services/tokenStore.ts:71-120 | on a ready connection: set succeeds, get returns that record, a second set replaces it, one key per provider, and clear removes it |
| TokenStore.MongoUnavailable | src/services/tokenStore.ts:49-51 | without a ready connection: get yields nothing, set fails with the set-up error, and clear leaves the collection as it was |
| TokenStore.MongoSetUpOnce | src/services/tokenStore.ts:43-48 | once set up, the model is reused even when the connection is later not ready |
| IcdAuth.LifetimeSeconds | src/services/icdAuth.ts:108 | the declared `expires_in`, or 3600 when it is missing or zero |
| IcdAuth.RecordFor | src/services/icdAuth.ts:107-116 | the stored record has the token, `fetchedAt` equal to the clock, and lifetime (expiresIn - 10) * 1000 ms |
| IcdAuth.Received | src/services/icdAuth.ts:106-122 | a reply yields a record exactly when it grants a non-empty `access_token`; an HTTP error keeps its status |
| IcdAuth.Ideal | src/services/icdAuth.ts:106-119 | with a working store, an attempt obtains a record exactly when the reply grants a token, consistently with the reply |
| IcdAuth.Refused | src/services/icdAuth.ts:112-116 | with no database connection, every attempt fails, and the failure is the store write exactly when the reply held a token |
| IcdAuth.Copies | src/services/icdAuth.ts:79-104 | `n` identical exchange requests, one per attempt |
| IcdAuth.Decide | src/services/icdAuth.ts:124-136 | the loop backs off only before the last attempt and only after a retryable failure |
| IcdAuth.RunDelays | src/services/icdAuth.ts:129-132 | the sleeps of a run are the schedule 300, 900, 2700 in order, one fewer than the attempts, so the delay index stays in range |
| IcdAuth.TerminalErrorStopsAtOnce | src/services/icdAuth.ts:133-135 | a non-retryable first failure ends the refresh after one attempt with no sleep, surfacing that error |
| IcdAuth.RetryableFailuresExhaust | src/services/icdAuth.ts:79-127 | when every attempt fails retryably, exactly four attempts are made with all three backoffs, and the fourth error is surfaced |
| IcdAuth.RunSettlesOnLastAttempt | src/services/icdAuth.ts:79-139 | all attempts but the last failed retryably; success comes exactly from the last attempt's token; a failure is that attempt's error, terminal unless attempts ran out |
| IcdAuth.FirstAttemptObtained | src/services/icdAuth.ts:106-119 | a first attempt that obtains a record returns its token at once, with no sleep |
| IcdAuth.FreshnessWindow | src/services/icdAuth.ts:108-109 | with the strict cache test of line 49, a stored token is served from the cache exactly while less than (lifetime - 10 s) has passed since the fetch; lifetimes of 10 s or less are never served |
| IcdAuth.ExpiryExample | src/services/icdAuth.ts:108-109 | `expires_in` 3600, a missing value or 0, received at t = 0, is still cached at 10 s and refreshed at 3595 s |
| IcdAuth.EnvOr | src/services/icdAuth.ts:26-28 | an environment variable's value when set and non-empty, else the fallback |
| IcdAuth.WithToken | src/services/icdAuth.ts:204-213 | the request gains `Authorization: Bearer <token>`, and its URL and other headers are unchanged |
| IcdAuth.ClientDefaults | src/services/icdAuth.ts:192-201 | a given non-empty base URL becomes exactly its HTTPS-upgraded form, and an absent or empty one stays absent; 30 s timeout; `API-Version: v2` header |
| IcdAuth.ICDAuthService.constructor | src/services/icdAuth.ts:15-21 | a new manager has no refresh in flight, empty stores and no exchanges |
| IcdAuth.ICDAuthService.TokenRequestFor | src/services/icdAuth.ts:87-104 | every exchange posts to the HTTPS form of the endpoint with the client-credentials grant, scope `icdapi_access`, Basic credentials and a 10 s timeout |
| IcdAuth.ICDAuthService.StoreGet | src/services/icdAuth.ts:48 | reads the configured store without changing the stored record |
| IcdAuth.ICDAuthService.StoreSet | src/services/icdAuth.ts:112-116 | a successful write stores the record and a failed one leaves the store unchanged; the volatile store never fails; the database store fails exactly as `WriteFailure` says, with that error |
| IcdAuth.ICDAuthService.StoreClear | src/services/icdAuth.ts:248-251 | the volatile store is emptied; the database store is emptied unless the delete failed; the clear sets up the database model on a ready connection |
| IcdAuth.ICDAuthService.ExplainedRun | src/services/icdAuth.ts:79-136 | every predicted attempt agrees with its world; with a reliable store it is the ideal outcome; with no connection ever, the refused one |
| IcdAuth.ICDAuthService.Attempt | src/services/icdAuth.ts:87-122 | one exchange: the outcome is the one `Predicted` gives for the model's state before it (the ideal one when the store is writable); a record is stored exactly when obtained; the model is set up only by a write on a ready connection |
| IcdAuth.ICDAuthService.WriteFailure | src/services/tokenStore.ts:43-109 | a write fails exactly when the database store has no model and cannot set one up, or its query throws; a reliable store never fails |
| IcdAuth.ICDAuthService.Predicted | src/services/icdAuth.ts:87-122 | an attempt's outcome: the reply's own error, or its record unless the write fails, then that write error; with a successful write, the ideal outcome; with no connection, the refused one |
| IcdAuth.NeverConnected | src/services/tokenStore.ts:43-69 | a run that starts without a model and never finds the connection ready never sets one up |
| IcdAuth.ICDAuthService.RefreshToken | src/services/icdAuth.ts:76-140 | the loop's result, sleeps and attempts form a retry run; each attempt agrees with its world; every attempt's outcome is the predicted one for the model's state before it; one exchange per attempt; the store holds the last record on success and is unchanged on failure |
| IcdAuth.ICDAuthService.Arrive | src/services/icdAuth.ts:44-62 | a non-forced caller with a fresh cached token gets it; otherwise it joins the refresh in flight, or marks a new one; no exchange happens |
| IcdAuth.ICDAuthService.Complete | src/services/icdAuth.ts:62-70 | a refresh runs its retry loop, with every attempt's outcome the predicted one, delivers its result to every attached caller, and clears the marker on both paths |
| IcdAuth.ICDAuthService.Settle | src/services/icdAuth.ts:58-70 | a waiting caller gets its refresh's result after 1 to 4 exchanges; a working endpoint yields the first attempt's token |
| IcdAuth.ICDAuthService.GetAccessToken | src/services/icdAuth.ts:44-71 | a cache hit returns the cached token with no exchange and the marker unchanged; otherwise the caller gets the result of the refresh it joined or started, and the marker ends cleared |
| IcdAuth.ICDAuthService.ClearTokenCache | src/services/icdAuth.ts:248-252 | the store is emptied (unless the database delete fails), the database model is set up on a ready connection, and no refresh is marked in flight |
| IcdAuth.Registry.constructor | src/services/icdAuth.ts:13 | no manager exists before the first `getInstance` |
| IcdAuth.Registry.GetInstance | src/services/icdAuth.ts:23-39 | missing client id or secret fails and builds nothing; the first configured call builds the manager from the environment; later calls return it unchanged |
| IcdAuth.AuthenticatedClient.constructor | src/services/icdAuth.ts:191-201 | the client carries the manager and the defaults for its base URL |
| IcdAuth.AuthenticatedClient.AttachToken | src/services/icdAuth.ts:204-213 | the request carries the current token as a Bearer credential, or the token error is surfaced before sending |
| IcdAuth.AuthenticatedClient.Send | src/services/icdAuth.ts:204-240 | a 401 triggers one forced refresh and at most one re-send with the new token; a failed refresh or a missing config surfaces the original error; other answers pass through unchanged |
| AuthScenarios.CacheLifecycle | src/services/icdAuth.ts:47-119 | a token fetched at 0 s with lifetime 3600 is served at 10 s and replaced at 3595 s |
| AuthScenarios.ForcedRefresh | src/services/icdAuth.ts:47 | a forced refresh bypasses a fresh cached token |
| AuthScenarios.ClearThenFetch | src/services/icdAuth.ts:248-252 | after clearing, the next caller exchanges again |
| AuthScenarios.SingleFlight | src/services/icdAuth.ts:55-65 | callers arriving during a refresh join it; one exchange is sent, and the refresh they all wait on delivers the token |
| AuthScenarios.PersistentServerError | src/services/icdAuth.ts:125-132 | an endpoint answering 500 is tried four times with every backoff, and the 500 is surfaced |
| AuthScenarios.RejectedCredentials | src/services/icdAuth.ts:133-135 | a 400 means one attempt, no backoff |
| AuthScenarios.TransientOutage | src/services/icdAuth.ts:129-132 | a 503 then a grant succeeds after one 300 ms backoff |
| AuthScenarios.StoreUnavailable | src/services/icdAuth.ts:112-116 | a database store that never connects fails every write, so the refresh fails after four attempts |
| AuthScenarios.SingletonConfiguration | src/services/icdAuth.ts:23-39 | missing credentials fail; the first configured call builds; a later call returns the same manager |
| AuthScenarios.UnauthorizedThenRetried | src/services/icdAuth.ts:219-231 | a 401 is met by a forced refresh and a re-send whose answer the caller receives |
| AuthScenarios.UnauthorizedTwice | src/services/icdAuth.ts:231 | a 401 on the re-send is surfaced without a second refresh |
| AuthScenarios.ServerFailurePassedThrough | src/services/icdAuth.ts:219-238 | other failures pass through without another token lookup |
| Strings.IndexOf | src/utils/httpsUtil.ts:19 | the position of the first occurrence, none exactly when the pattern occurs at no position |
| Strings.IndexOfChar | src/utils/httpsUtil.ts:24 | the position of the first occurrence of a character, or none when it does not occur |
| Strings.ReplaceFirst | src/utils/httpsUtil.ts:15 | a string-pattern `replace`: unchanged without an occurrence; otherwise the first occurrence, and only it, is replaced |
| Strings.Trim | src/commands/ingestNAMASTE.ts:35-39 | `trim`: a window of the input with no whitespace at either end, and only whitespace outside it |
| Strings.TrimOfTrimmed | src/commands/ingestNAMASTE.ts:35-39 | a string without whitespace at its ends is its own trim |
| Strings.TrimIdempotent | src/commands/ingestNAMASTE.ts:35-39 | trimming twice equals trimming once |
| Strings.TrimStart | src/commands/ingestNAMASTE.ts:35-39 | a suffix of the input without leading whitespace, after a dropped prefix of whitespace only |
| Strings.TrimEnd | src/commands/ingestNAMASTE.ts:35-39 | a prefix of the input without trailing whitespace, before a dropped suffix of whitespace only |
| Strings.ToLower | src/commands/autoMap.ts:89 | same length, with each character lower-cased |
| Strings.NonWhitespacePrefix | src/commands/autoMap.ts:126 | the length of the leading run of non-whitespace characters |
| Strings.SplitWhitespace | src/commands/autoMap.ts:126-127 | `split(/\s+/)`: at least one piece; no piece contains whitespace; the first is empty exactly when the input is empty or starts with whitespace; inner pieces are non-empty |
| Strings.SplitJoin | src/commands/autoMap.ts:126-127 | the pieces joined by the separators give back the input, and every separator is a non-empty whitespace run |
| AutoMap.Words | src/commands/autoMap.ts:126-127 | a text's word set is never empty |
| AutoMap.JaccardProperties | src/commands/autoMap.ts:129-132 | the Jaccard index lies in [0, 1] and is 1 exactly when the sets agree |
| AutoMap.SimilarityProperties | src/commands/autoMap.ts:124-133 | the similarity lies in [0, 1], is symmetric, and is 1 exactly when the word sets agree |
| AutoMap.SameTextFullySimilar | src/commands/autoMap.ts:124-133 | a text is fully similar to itself |
| AutoMap.DisjointWordsDissimilar | src/commands/autoMap.ts:124-133 | texts without a shared word have similarity 0 |
| AutoMap.Band | src/commands/autoMap.ts:98-108 | `equivalent` above 0.8, `wider` in (0.6, 0.8], `narrower` in (0.4, 0.6], `relatedto` otherwise |
| AutoMap.Round2Properties | src/commands/autoMap.ts:113 | rounding to hundredths moves a value by at most 0.005, keeps [0, 1], and is monotone |
| AutoMap.Candidates | src/commands/autoMap.ts:91-116 | exactly the input ICD codes above the 0.3 threshold give a match, banded and rounded from their similarity; no code yields more matches than it is listed |
| AutoMap.CandidateConfidence | src/commands/autoMap.ts:97-113 | every candidate's confidence lies in [0.3, 1] |
| AutoMap.Insert | src/commands/autoMap.ts:119-120 | insertion into a sorted list keeps it sorted by confidence and adds exactly the element |
| AutoMap.SortByConfidence | src/commands/autoMap.ts:119-120 | the result is sorted by non-increasing confidence and is a permutation of the input |
| AutoMap.TakeShape | src/commands/autoMap.ts:121 | `slice(0, n)` of a sorted list has min(n, length) elements, stays sorted and is drawn from it |
| AutoMap.TakeBest | src/commands/autoMap.ts:119-121 | no element left out of the first `n` beats a kept one |
| AutoMap.TopMatchesShape | src/commands/autoMap.ts:119-121 | at most three matches, most confident first, drawn from the candidates (all of them when at most three), and none left out beats a kept match |
| AutoMap.TopMatchesSound | src/commands/autoMap.ts:91-115 | each returned match is for an input ICD code above the threshold, and no code appears more often than it is listed |
| AutoMap.FindPotentialMatches | src/commands/autoMap.ts:87-122 | the loop, sort and slice return the top matches of the lower-cased name and description |
| AutoMap.MappingsOf | src/commands/autoMap.ts:51-59 | one stored mapping per match, in order, with the match's code, type, equivalence, confidence and `auto-mapper` |
| AutoMap.RunAutoMap | src/commands/autoMap.ts:16-65 | with either list empty nothing is created; otherwise exactly the matches whose triple is new are saved, and created plus skipped equals the matches processed |
| Terminology.KeysOfAppend | src/commands/autoMap.ts:38-42 | the stored keys of two concatenated collections are the union of their keys |
| Terminology.DedupeProperties | src/commands/autoMap.ts:36-64 | saving creates no more than proposed, each created mapping is proposed and new, keys are distinct, and every proposed key is stored afterwards |
| Terminology.DedupeAppend | src/commands/autoMap.ts:30-65 | saving two batches in turn creates what saving them as one does |
| Terminology.MappingTable.constructor | src/commands/autoMap.ts:38-61 | the collection holds the given mappings |
| Terminology.MappingTable.HasKeys | src/commands/autoMap.ts:38-44 | `findOne` on the triple succeeds exactly when the key is stored |
| Terminology.MappingTable.Save | src/commands/autoMap.ts:61 | a save appends the mapping |
| Terminology.MappingTable.SaveNew | src/commands/autoMap.ts:36-64 | only mappings whose triple is absent by then are saved; created and skipped counts add up to the batch |
| FhirUtils.NamasteCodeSystem | src/utils/fhirUtils.ts:15-35 | one concept per code, same order, taking code, display and definition from code, name and description; id `namaste-codes`, NAMASTE url, complete content |
| FhirUtils.IcdCodeSystem | src/utils/fhirUtils.ts:40-61 | one concept per code, same order, from code, title and description; id `icd-11-` plus the lower-cased type; url the ICD API base plus the type |
| FhirUtils.IcdCodeSystemIds | src/utils/fhirUtils.ts:44-45 | the ids are `icd-11-tm2` and `icd-11-biomedicine`, with the matching URLs |
| FhirUtils.DistinctCodes | src/utils/fhirUtils.ts:68-94 | the grouped NAMASTE codes are distinct and exactly those of the mappings |
| FhirUtils.GenerateConceptMap | src/utils/fhirUtils.ts:66-123 | the fixed id and url, the date, and TM2 then Biomedicine groups |
| FhirUtils.GroupThenFilter | src/utils/fhirUtils.ts:68-97 | grouping by code and then filtering by type selects what filtering by both does, in input order |
| FhirUtils.SelectedContains | src/utils/fhirUtils.ts:96-103 | a mapping is among the targets selected for its own code and type |
| FhirUtils.ConceptMapStructure | src/utils/fhirUtils.ts:90-121 | two groups from the NAMASTE system to the TM2 and Biomedicine systems; one element per distinct code (also with no targets); targets are that code's mappings of the group's type, in order, with code = display = ICD code |
| FhirUtils.ConceptMapCoversMappings | src/utils/fhirUtils.ts:94-118 | every mapping appears as a target of its code's element in the group of its type |
| FhirUtils.EncounterBundle | src/utils/fhirUtils.ts:128-139 | id `encounter-` plus the encounter id, type `document`, exactly one entry holding the FHIR encounter |
| FhirUtils.ValidateResource | src/utils/fhirUtils.ts:144-160 | reading `resourceType` fails exactly on null; a falsy `resourceType` is invalid |
| FhirUtils.ValidateChecksRequired | src/utils/fhirUtils.ts:150-159 | with a `resourceType`, valid exactly when the type's required properties (CodeSystem: id, url, concept; ConceptMap: id, url, group; Encounter: id, status, subject; others: none) are truthy |
| FhirUtils.CodeSystemValidates | src/utils/fhirUtils.ts:151-152 | a CodeSystem with non-empty id and url passes the validator |
| FhirUtils.GeneratedCodeSystemsValidate | src/utils/fhirUtils.ts:144-160 | the generated CodeSystems pass the validator for any codes and date |
| FhirUtils.GeneratedConceptMapValidates | src/utils/fhirUtils.ts:144-160 | the generated ConceptMap passes the validator for any mappings and date |
| IngestNamaste.Normalise | src/commands/ingestNAMASTE.ts:34-40 | code, name, description and category are trimmed; category is present exactly when the column is; system defaults to the NAMASTE URL exactly when absent, blank or already that URL |
| IngestNamaste.NormalisedIsTrimmed | src/commands/ingestNAMASTE.ts:34-40 | every text field of a normalised code is already trimmed and the system is never empty |
| IngestNamaste.BlankNameAccepted | src/commands/ingestNAMASTE.ts:27-36 | a name of only spaces passes the required-field test, and the normalised code has an empty name |
| IngestNamaste.EveryRowCounted | src/commands/ingestNAMASTE.ts:24-51 | every row is either accepted or skipped |
| IngestNamaste.NothingAccepted | src/commands/ingestNAMASTE.ts:27-61 | no code is accepted exactly when every row fails the required-field test |
| IngestNamaste.Ingestion.constructor | src/commands/ingestNAMASTE.ts:17-19 | an ingestion starts with no results and zero counters |
| IngestNamaste.Ingestion.OnData | src/commands/ingestNAMASTE.ts:24-52 | an accepted row appends its normalised code and counts as processed; any other row counts as skipped; processed stays equal to the results |
| IngestNamaste.Ingestion.OnEnd | src/commands/ingestNAMASTE.ts:59-61 | fails with the "No valid NAMASTE codes" message exactly when nothing was accepted, else yields the results |
| IngestNamaste.IngestRows | src/commands/ingestNAMASTE.ts:24-61 | a whole file: the counters add up to the rows; the outcome is the accepted codes, or the message when there are none |
| IngestAutoMapping.Derived | src/commands/ingestWithAutoMapping.ts:144-185 | each derived code's system names its type, its version is `11`, and only the traditional kind is TM2 |
| IngestAutoMapping.Emit | src/commands/ingestWithAutoMapping.ts:143-186 | one keyword test emits at most the derived code of its kind |
| IngestAutoMapping.GenerateIcdCodes | src/commands/ingestWithAutoMapping.ts:138-189 | at most four codes, each with a system matching its type and version `11` |
| IngestAutoMapping.KeywordTests | src/commands/ingestWithAutoMapping.ts:143-177 | each kind's keyword test is the source's disjunction of `includes` tests |
| IngestAutoMapping.GenerationOrder | src/commands/ingestWithAutoMapping.ts:138-189 | the generated codes are the triggered kinds' codes in the fixed order TM2, BD, BD-N, BD-I |
| IngestAutoMapping.DerivedDistinct | src/commands/ingestWithAutoMapping.ts:146-180 | codes of different kinds differ |
| IngestAutoMapping.GeneratedIffKeyword | src/commands/ingestWithAutoMapping.ts:140-186 | a kind's code is generated exactly when one of its keywords occurs in the lower-cased name and description |
| IngestAutoMapping.BiomedicalComesWithTraditional | src/commands/ingestWithAutoMapping.ts:143-155 | the base BD code is never generated without the TM2 code |
| IngestAutoMapping.GeneratedRelatedToOrigin | src/commands/ingestWithAutoMapping.ts:145-198 | every generated code contains its NAMASTE code with `NAM` removed |
| IngestAutoMapping.DerivedContainsStripped | src/commands/ingestWithAutoMapping.ts:145-179 | each kind's code contains the stripped NAMASTE code |
| IngestAutoMapping.RelatedAcrossCodes | src/commands/ingestWithAutoMapping.ts:196-198 | `NAM1` relates to `TM2-12` |
| IngestAutoMapping.WithMissingProperties | src/commands/ingestWithAutoMapping.ts:117-131 | insertion keeps the old rows as a prefix, adds only batch codes, keeps (code, type) keys distinct, and stores every batch key |
| IngestAutoMapping.IcdTable.constructor | src/commands/ingestWithAutoMapping.ts:123-126 | the collection holds the given codes |
| IngestAutoMapping.IcdTable.FindOne | src/commands/ingestWithAutoMapping.ts:123 | found exactly when a code with that code and type is stored |
| IngestAutoMapping.IcdTable.Create | src/commands/ingestWithAutoMapping.ts:126 | a create appends the code |
| IngestAutoMapping.IcdTable.InsertGenerated | src/commands/ingestWithAutoMapping.ts:119-132 | the missing codes generated for one NAMASTE code are inserted in order |
| IngestAutoMapping.IcdTable.InsertMissing | src/commands/ingestWithAutoMapping.ts:121-132 | each code is inserted unless its key is stored by then; the inserted codes are returned in order |
| IngestAutoMapping.GenerateEquivalentIcdCodes | src/commands/ingestWithAutoMapping.ts:114-136 | the collection gains the missing generated codes of every NAMASTE code, in processing order, and these are returned |
| IngestAutoMapping.GenerationStoresEveryKey | src/commands/ingestWithAutoMapping.ts:114-136 | after generation the keys stay distinct, only generated codes are new, and every generated key is stored |
| IngestAutoMapping.RelatedCodes | src/commands/ingestWithAutoMapping.ts:196-198 | an ICD code is related exactly when its code contains the stripped NAMASTE code |
| IngestAutoMapping.AutoMappingsOf | src/commands/ingestWithAutoMapping.ts:210-218 | one `equivalent` mapping at confidence 0.8 by `auto-generator` per related code, in order |
| IngestAutoMapping.AutoProposedExactly | src/commands/ingestWithAutoMapping.ts:194-218 | a NAMASTE code is proposed for an ICD code exactly when the code contains its stripped code |
| IngestAutoMapping.AutoProposedCodes | src/commands/ingestWithAutoMapping.ts:194-218 | every proposed mapping comes from an input NAMASTE code and a related input ICD code |
| IngestAutoMapping.FilterRelated | src/commands/ingestWithAutoMapping.ts:196-198 | the filter loop returns the related codes |
| IngestAutoMapping.CreateAutoMappings | src/commands/ingestWithAutoMapping.ts:191-228 | saves exactly the proposed mappings whose triple is absent by then, and returns how many |
| IngestAutoMapping.FinishIngestion | src/commands/ingestWithAutoMapping.ts:53-93 | no accepted codes fails before any insert; otherwise it generates codes, creates mappings from the newly stored codes, and returns a ConceptMap over all mappings exactly when some were created |
| UploadEncounter.IcdTypeOf | src/commands/uploadEncounter.ts:199-202 | TM2 exactly when the system contains `tm2` or the code starts with `TM2`; a non-string code fails when the system does not settle it |
| UploadEncounter.ProcessCodeableConcept | src/commands/uploadEncounter.ts:176-214 | the coding loop yields the concept's fields as specified by `ConceptFields` |
| UploadEncounter.CodingsFromKnown | src/commands/uploadEncounter.ts:190-209 | code fields are only set from codings that the lookups find |
| UploadEncounter.LastNamasteCodingWins | src/commands/uploadEncounter.ts:183-211 | when the last coding is a known NAMASTE code, it is the result's NAMASTE code |
| UploadEncounter.OtherSystemIgnored | src/commands/uploadEncounter.ts:189-210 | a coding from neither system leaves the result unchanged |
| UploadEncounter.IcdCodingClassified | src/commands/uploadEncounter.ts:197-209 | an ICD coding is looked up under its type, and sets code, type and description only when found |
| UploadEncounter.CodingsKeepSeverity | src/commands/uploadEncounter.ts:181-211 | the coding loop never sets a severity |
| UploadEncounter.DiagnosisProblemShape | src/commands/uploadEncounter.ts:153-174 | a problem exists exactly when `condition.reference` is truthy, and it always has a description and severity `moderate` |
| UploadEncounter.DiagnosisDefaults | src/commands/uploadEncounter.ts:160-163 | a bare condition reference gives description `Diagnosis condition`, severity `moderate` |
| UploadEncounter.EncounterProblems | src/commands/uploadEncounter.ts:115-143 | the problem list is never empty |
| UploadEncounter.ProcessEncounterResource | src/commands/uploadEncounter.ts:107-151 | the loops produce the record specified by `EncounterRecordOf` |
| UploadEncounter.ReasonCodeOnlyWithoutDiagnosis | src/commands/uploadEncounter.ts:127 | with diagnosis problems, exactly those are kept and `reasonCode` is ignored |
| UploadEncounter.DefaultProblemAlone | src/commands/uploadEncounter.ts:137-143 | without diagnosis and reason code, the default problem alone |
| UploadEncounter.PatientPrefixRemoved | src/commands/uploadEncounter.ts:112 | the patient id is the subject reference without `Patient/`, or the fallback when that is empty |
| UploadEncounter.FindEncounter | src/commands/uploadEncounter.ts:36-38 | the first entry whose resource is an Encounter, with no such entry before it; none exactly when every entry is non-null without an Encounter; a TypeError exactly when a `null` entry comes before the first Encounter |
| UploadEncounter.FindEncounterFirst | src/commands/uploadEncounter.ts:36-38 | the first qualifying entry is the one found |
| UploadEncounter.OtherTypesRejected | src/commands/uploadEncounter.ts:45-46 | a valid resource that is neither an Encounter nor a Bundle is rejected with its type |
| UploadEncounter.DirectEncounterKeepsId | src/commands/uploadEncounter.ts:20-32 | an Encounter is invalid without truthy id, status and subject and is processed directly otherwise; its record keeps its id |
| UploadEncounter.BundleUsesFirstEncounter | src/commands/uploadEncounter.ts:33-44 | a Bundle is processed through its first Encounter entry |
| UploadEncounter.BundleWithoutEncounter | src/commands/uploadEncounter.ts:40-42 | a Bundle without entries, with a `null` entry list, or whose entries are all non-null without an Encounter, has no Encounter to process |

## Left out

- Asynchrony is sequentialised. Concurrent `getAccessToken` callers are modelled as arrivals and completions on one object. Promises, the event loop and interceptor scheduling are not modelled.
- The token endpoint, the database and the protected API are oracles supplied per call or per attempt. Axios, HTTP and Mongoose are not modelled.
- Each attempt reads the clock once, so `expiresAt` and `fetchedAt` share one instant.
- `sleep` is recorded as the requested delays and is not executed. The 10 s and 30 s timeouts are recorded as request fields.
- `formatTokenError` is reduced to the failure and its cause; its message text is not modelled. Console logging is left out throughout.
- The audit logger, the CLI wiring, the WHO API clients, file reading and writing, and `JSON.stringify` (`formatFHIRResource`) are not modelled.
- `getInstance` reads only the environment. Its optional `config` argument, which the source ignores, is not modelled.
- The `sent` record and the exchange log are ghost state. They describe the traffic; they are not part of the program.
- ClearTokenCache: a refresh still running after the cache is cleared later clears the marker of whatever refresh is then in flight. The model reproduces this, but no lemma is stated about it.
- Strings.ToLower: lower-cases ASCII letters only; the Unicode case mapping of `toLowerCase` is not modelled.
- Strings.Trim: whitespace (also for Strings.SplitWhitespace and so AutoMap.Words, the `\s` of `split(/\s+/)`) is the ASCII set plus NBSP and BOM; U+1680, U+2000 to U+200A, U+2028, U+2029, U+202F, U+205F and U+3000 are not counted as whitespace.
- FhirUtils.GenerateConceptMap: groups mappings by NAMASTE code as a map; in the source the grouping object is a plain object, so a code that names an `Object.prototype` member (`constructor`, `toString`, `__proto__`) finds an inherited value, and the following `push` throws a TypeError. That failure, which also reaches IngestAutoMapping.FinishIngestion, is not modelled.
- AutoMap.Round2Properties: similarity and rounding use exact rationals; floating-point error is not modelled.
- AutoMap.SortByConfidence: stability is built into the definition (`Insert` places ties after), but it is not stated as a separate property.
- Object key order. Elements appear in order of first occurrence. JavaScript's `Object.entries` would list integer-like keys first.
- Each ConceptMap target carries its numeric confidence in place of the `Confidence: x` comment text.
- Creation timestamps are parameters: the `date` of the generated resources, the `Date.now()` digits of the fallback ids, and `mappedAt`. An absent `period.start` is `None`, standing for the current time.
- Inserts and saves always succeed. The catch blocks around `ICDCode.create` and `ConceptMap.create`, and the Mongoose schema validation (for example `required` and `trim`), are not modelled. Because of that validation, the database could still reject an empty name or a problem without a description.
- IngestAutoMapping.FinishIngestion: storing the NAMASTE codes (`insertMany`) and writing the CodeSystem and ConceptMap files are not modelled. `FhirUtils.NamasteCodeSystem` gives the CodeSystem value.
- IngestNamaste.Ingestion.OnData: the handler's catch branch is not modelled. Cells of a parsed CSV row are always strings, so `trim` cannot throw.
- Parsing the CSV file and a missing input file are not modelled.
- Saving the encounter, the Bundle of the saved encounter, and the `fhirEncounter` virtual of the encounter model are not modelled in the upload. `FhirUtils.EncounterBundle` builds the Bundle from a stored encounter.
