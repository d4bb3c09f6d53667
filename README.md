# Shade-agent integrations: a Dafny model

This project models the core of a web front end for deploying NEAR "shade
agents" that talk to several external services. It covers five parts.

- **Checker Network client** (`checker_network.dfy`, module `CheckerNetwork`).
  It submits an identity, transaction or location claim with fixed validator
  requirements. It then polls for the verdict, up to an attempt bound. A
  failed fetch is replaced by a synthetic `verified` result. It also covers
  the verification history and network status read-throughs.
- **Integration registry** (`registry.dfy`, module `Registry`). The
  `IntegrationManager` class keeps a name-to-client map in insertion order.
  Clients are added one by one with `register`, or by `initializeAll` from a
  configuration record. It answers `get`, `isAvailable` and `getAll`.
- **Integration configuration** (`config.dfy`, module `IntegrationConfig`).
  This is the development and production settings of the six clients. The
  `DEV` flag and `VITE_NODE_ENV` choose between them. `validateConfig` checks
  the five NEAR settings.
- **Agent-deployment wizard** (`agent_deployment.dfy`, module
  `AgentDeployment`). It covers the capability toggle, the agent-type presets,
  the ordered validation rules and the name slug behind the contract address
  and NEAR wallet. The four-step wizard is a class whose methods are the
  buttons and inputs.
- **WeatherXM client** (`weather.dfy`, module `WeatherXM`). A weather record is
  normalised so that each field is the first truthy source or a default.
  Station records are mapped. There are fallbacks for failed requests.

Two support modules complete the project.

- `js.dfy` (module `Js`) holds the JavaScript values the code manipulates and
  their truthiness. It defines `||`, `?.`, `.` (a read of a nullish value is a
  TypeError, `None`) and `Array.prototype.map` with a callback that may
  throw. It also defines decimal rendering of natural numbers.
- `wrappers.dfy` holds `Option` and `Result`.

Inputs replace what the code reads from outside:
- every HTTP reply is a parameter: `None` for a failed request, otherwise the
  reply body;
- the clock readings are parameters;
- the `Math.random()` draws are parameters of type `Js.Random` (a real in [0, 1));
- the browser's geolocation answer is a parameter;
- whether the NEAR client's `initialize()` succeeds is a parameter;
- the build environment is a map of the variables that are set.

## Model

| member | source | states |
|---|---|---|
| Js.Member | src/integrations/checker-network/index.ts:62 | a property read throws exactly on `undefined`/`null`, otherwise yields the own property or `undefined` |
| Js.FalsyValues | src/config/integrations.ts:145 | JavaScript truthiness: exactly `undefined`, `null`, `false`, `0` and `""` are falsy; every array and object is truthy |
| Js.OrPicks | src/config/integrations.ts:51 | `a \|\| b` is one of its operands: the left one exactly when it is truthy, else the right one; the result is truthy iff either operand is |
| Js.OptMemberReads | src/config/integrations.ts:142 | `v?.[key]` is an object's own property when present, and `undefined` for a missing key or a value that is not an object |
| Js.FirstTruthy | src/integrations/weatherxm/index.ts:165 | an `\|\|` chain yields the first truthy candidate, or the default when none is truthy |
| Js.OrChain | src/integrations/weatherxm/index.ts:165 | `a \|\| b \|\| d`, grouped to the left, is the first truthy of `a`, `b`, else `d` |
| Js.FirstTruthyIsTruthyOrDefault | src/integrations/weatherxm/index.ts:165-177 | the chosen value is truthy or is the default, and is one of the candidates or the default |
| Js.MapItems | src/integrations/checker-network/index.ts:185-194 | `map` with a throwing callback: throws iff some item's callback throws; otherwise same length, item `i` maps to result `i` |
| Js.NatToString | src/components/AgentDeployment.tsx:168 | decimal text of a number: non-empty, all digits, no leading zero |
| Js.NatToStringRoundTrip | src/components/AgentDeployment.tsx:168 | reading the decimal text back gives the number, so distinct numbers render differently |
| CheckerNetwork.SubmitBodyOf | src/integrations/checker-network/index.ts:55-60 | the POST body carries the request's type, data and requirements and always the configured network |
| CheckerNetwork.SubmitVerification | src/integrations/checker-network/index.ts:53-66 | fails (rethrown) exactly when the request fails or the body is nullish; otherwise returns the body's `verificationId` |
| CheckerNetwork.ResultFromBody | src/integrations/checker-network/index.ts:76-85 | a nullish body throws; otherwise all eight fields (id, status, confidence, validators, consensus, evidence, timestamp, cost) are the body's own |
| CheckerNetwork.MockVerificationResult | src/integrations/checker-network/index.ts:215-230 | keeps the id; status `verified` (so not pending); confidence in [0.85, 1.0); 5 validators; consensus 0.9; cost 0.1; three evidence entries all `verified` |
| CheckerNetwork.EvidenceEntry | src/integrations/checker-network/index.ts:222-226 | an evidence entry is an object of exactly `validator`, `result` and `confidence`, reading back the validator, `verified` and the confidence |
| CheckerNetwork.GetVerificationResult | src/integrations/checker-network/index.ts:72-91 | the result read from the reply, or the mock result for the requested id when the request or the read fails |
| CheckerNetwork.PollForResult | src/integrations/checker-network/index.ts:201-213 | at most `max(0, maxAttempts)` fetches; returns the first non-pending result after only pending ones; throws `Verification timeout` only after every allowed fetch was pending |
| CheckerNetwork.PolledIsUnique | src/integrations/checker-network/index.ts:201-213 | the polling promise determines the outcome and the number of fetches uniquely |
| CheckerNetwork.NoAttemptsTimesOut | src/integrations/checker-network/index.ts:201-212 | with `maxAttempts <= 0` polling throws the timeout without any fetch |
| CheckerNetwork.AllPendingTimesOut | src/integrations/checker-network/index.ts:201-213 | if all allowed fetches are pending, polling times out after exactly that many fetches |
| CheckerNetwork.FailedFetchEndsPolling | src/integrations/checker-network/index.ts:203-207 | a failed fetch after k pending ones ends polling at fetch k+1 with the mock `verified` result for the id |
| CheckerNetwork.MissingStatusEndsPolling | src/integrations/checker-network/index.ts:205-207 | a reply without `status` is not `pending`, so polling returns it at once |
| CheckerNetwork.Verify | src/integrations/checker-network/index.ts:97-112 | submits the body for the request; a failed submit is rethrown with no fetch, otherwise polling with the default bound of 30 |
| CheckerNetwork.VerifyAgentIdentity | src/integrations/checker-network/index.ts:96-113 | type `identity`, requirements 3 / 0.8 / 30000, data agent id, credentials and time; then as `Verify` |
| CheckerNetwork.VerifyTransaction | src/integrations/checker-network/index.ts:118-134 | type `transaction`, requirements 5 / 0.9 / 60000, data hash, chain and time; then as `Verify` |
| CheckerNetwork.VerifyLocation | src/integrations/checker-network/index.ts:139-155 | type `location`, requirements 3 / 0.75 / 45000, data `{latitude, longitude}`, evidence and time; then as `Verify` |
| CheckerNetwork.GetVerificationHistory | src/integrations/checker-network/index.ts:181-199 | the reply list mapped item by item, with the same length and order; `[]` on any failure |
| CheckerNetwork.GetNetworkStatus | src/integrations/checker-network/index.ts:160-176 | on a readable reply, each of the six fields is the reply's property of that name (`undefined` when missing); when the request fails or the body is nullish, exactly the mock status |
| CheckerNetwork.MockNetworkStatus | src/integrations/checker-network/index.ts:232-241 | 150 of 200 validators active, 2500 ms response time, load 0.65 and consensus rate 0.92 (both in [0, 1]), stamped with the clock reading |
| IntegrationConfig.EnvOr | src/config/integrations.ts:51 | `env \|\| literal` is the variable when set and non-empty, else the literal, so never empty |
| IntegrationConfig.ConfigFor | src/config/integrations.ts:44-115 | a shipped configuration is an object whose `nearShade` entry is the NEAR settings for its network |
| IntegrationConfig.NearShadeConfig | src/config/integrations.ts:70-76 | the NEAR settings are an object on the configuration's network whose five required fields are all truthy |
| IntegrationConfig.DevelopmentConfig | src/config/integrations.ts:44-77 | the development configuration validates for every environment and is on `testnet` |
| IntegrationConfig.ProductionConfig | src/config/integrations.ts:82-115 | the production configuration validates for every environment and is on `mainnet` |
| IntegrationConfig.GetIntegrationConfig | src/config/integrations.ts:120-123 | the result is the development configuration iff `DEV` is set or `VITE_NODE_ENV === 'development'`, and the production configuration otherwise; so the NEAR network is `testnet` iff that holds, else `mainnet`, and the choice always validates |
| IntegrationConfig.PathValuePair | src/config/integrations.ts:141-143 | walking a two-key path is two optional reads in a row |
| IntegrationConfig.NearShadeFieldTruthy | src/config/integrations.ts:129-135 | each of the five required field names picks a truthy NEAR setting |
| IntegrationConfig.ValidateConfig | src/config/integrations.ts:128-152 | true iff all five NEAR fields are truthy; on false, names the first falsy field in list order, all earlier ones truthy |
| IntegrationConfig.NearShadeSettingsValid | src/config/integrations.ts:128-152 | any configuration whose `nearShade` entry is a shipped one validates |
| IntegrationConfig.ConfigForNetwork | src/config/integrations.ts:70-71 | the NEAR network id is `mainnet` in production and `testnet` in development |
| IntegrationConfig.OtherIntegrationsIgnored | src/config/integrations.ts:129-135 | changing or adding any top-level entry but `nearShade` leaves the verdict unchanged |
| IntegrationConfig.EmptyAnthropicKeyStillValid | src/config/integrations.ts:56 | with no environment the Anthropic key is `""` and the configuration still validates |
| IntegrationConfig.MissingOrEmptyFieldFails | src/config/integrations.ts:141-148 | a missing `nearShade` or an empty required field makes validation fail, without an error |
| Registry.OrderedMap.Set | src/integrations/index.ts:41 | the name now holds the handle; others keep theirs; a new name joins the end of the order, an old one keeps its place; validity kept |
| Registry.SetAllValid | src/integrations/index.ts:41 | a series of registrations keeps the map well formed |
| Registry.SetAllUntouched | src/integrations/index.ts:41 | a name no registration mentions keeps its entry or its absence |
| Registry.SetAllLands | src/integrations/index.ts:41 | with distinct names, each registered handle is what its name holds afterwards |
| Registry.SetAllKeepsKeys | src/integrations/index.ts:41 | registering never removes a name |
| Registry.SetAllAppend | src/integrations/index.ts:57-86 | registering `a` then `b` is registering `a + b` |
| Registry.RegistrationsBuilt | src/integrations/index.ts:57-86 | every registration comes from a block that was run, for its own key, from that key's truthy configuration |
| Registry.RegistrationsNames | src/integrations/index.ts:57-86 | a name is registered iff its block is run and its configuration is truthy |
| Registry.RegistrationsName | src/integrations/index.ts:57-86 | for one client: its name is registered iff its block is run and its configuration is truthy |
| Registry.RegisteredNameWasRun | src/integrations/index.ts:57-86 | a registered name comes from a block that was run with a truthy configuration |
| Registry.RunNameIsRegistered | src/integrations/index.ts:57-86 | a block that is run with a truthy configuration registers its name |
| Registry.RegistrationsDistinct | src/integrations/index.ts:57-86 | blocks for different clients register different names |
| Registry.RegistrationsOfShape | src/integrations/index.ts:57-86 | each block registers its client under its key from that key's truthy configuration; a name is registered iff its kind is listed and its configuration truthy; names distinct |
| Registry.InitPlan | src/integrations/index.ts:54-89 | corrected code (see Findings): `initializeAll` errors exactly when NEAR is configured and its initialisation fails, and with `NearShadeInitFailed` |
| Registry.InitPlanShape | src/integrations/index.ts:54-89 | corrected code (see Findings): the plan registers each client at most once, exactly those whose configuration is truthy (NEAR only if its initialisation succeeds), each built from its own value |
| Registry.KindsDistinct | src/integrations/index.ts:57-86 | the six blocks are for six different clients, NEAR last |
| Registry.FirstFive | src/integrations/index.ts:57-86 | the first five blocks, then the NEAR one |
| Registry.InitializeAllKeeps | src/integrations/index.ts:54-89 | `initializeAll` keeps the map well formed and never removes an entry |
| Registry.InitializeAllRegisters | src/integrations/index.ts:57-86 | corrected code (see Findings): each client whose key is truthy is registered under that key, built from that value, overwriting any earlier entry |
| Registry.InitializeAllLeavesOthers | src/integrations/index.ts:54-89 | every name not registered by the call keeps its entry or its absence |
| Registry.UnknownKeysIgnored | src/integrations/index.ts:54-86 | configuration keys other than the six known ones play no part |
| Registry.InitPlanAsWritten | src/integrations/index.ts:54-89 | as written: nothing is registered, and it throws iff some known key is truthy |
| Registry.FirstConstruction | src/integrations/index.ts:57-86 | as written: nothing is registered; it throws iff a listed key is truthy, and then names the class of the first such key |
| Registry.ShippedConfigAsWrittenFails | src/integrations/index.ts:7 | as written against corrected code (see Findings): on the development configuration the code as written throws `ReferenceError` at `SecuredFinanceIntegration`, while the intended code registers all six |
| Registry.DevelopmentEntriesTruthy | src/config/integrations.ts:44-78 | the development configuration has a truthy entry for all six clients |
| Registry.FirstBlockThrows | src/integrations/index.ts:57-58 | as written, a truthy `securedFinance` entry throws `ReferenceError` at the first block with nothing registered |
| Registry.BlockStep | src/integrations/index.ts:57-86 | running one more block after those done so far is running the longer list of blocks |
| Registry.FiveBlocks | src/integrations/index.ts:57-80 | the first five blocks in sequence run the first five registrations of the plan |
| Registry.SixBlocks | src/integrations/index.ts:82-86 | the NEAR block after the first five runs the whole plan |
| Registry.IntegrationManager.constructor | src/integrations/index.ts:35 | starts empty and well formed |
| Registry.IntegrationManager.Get | src/integrations/index.ts:47-49 | the handle registered under the name, `undefined` (`None`) iff none is |
| Registry.IntegrationManager.IsAvailable | src/integrations/index.ts:105-107 | true iff `get` finds a handle |
| Registry.IntegrationManager.Register | src/integrations/index.ts:40-42 | afterwards `get(name)` is the handle; every other name's entry unchanged |
| Registry.IntegrationManager.InitializeAll | src/integrations/index.ts:54-89 | corrected code (see Findings): the new map is the old one after the plan's registrations, and the error is the plan's |
| Registry.IntegrationManager.RegisterIfPresent | src/integrations/index.ts:57-60 | one block: registers the client iff its key is truthy |
| Registry.IntegrationManager.GetAll | src/integrations/index.ts:94-100 | exactly the registered names, each with its handle, in insertion order |
| AgentDeployment.PresetsWellFormed | src/components/AgentDeployment.tsx:51-90 | each preset and the default list hold only offered capabilities, without repeats, including `chat`; preset ids distinct |
| AgentDeployment.FindPreset | src/components/AgentDeployment.tsx:93 | `find` returns the first preset with the id (every earlier preset has another id), `undefined` iff there is none |
| AgentDeployment.SelectAgentType | src/components/AgentDeployment.tsx:92-101 | a known id sets the type and replaces the capabilities with its preset; an unknown id changes nothing |
| AgentDeployment.CustomChangesNothing | src/components/AgentDeployment.tsx:92-101 | choosing `custom` leaves the configuration as it was |
| AgentDeployment.Without | src/components/AgentDeployment.tsx:107 | `filter` keeps exactly the other elements |
| AgentDeployment.WithoutAppend | src/components/AgentDeployment.tsx:107 | filtering works piecewise, so the kept elements keep their relative order |
| AgentDeployment.WithoutAbsent | src/components/AgentDeployment.tsx:107 | filtering out an absent element is the identity |
| AgentDeployment.WithoutNoDuplicates | src/components/AgentDeployment.tsx:107 | filtering keeps a list free of repeats |
| AgentDeployment.Toggle | src/components/AgentDeployment.tsx:103-110 | a present capability is removed with every copy, the rest kept; an absent one is appended at the end |
| AgentDeployment.ToggleTwiceRestores | src/components/AgentDeployment.tsx:106-108 | toggling an absent capability twice gives back the original list |
| AgentDeployment.ToggleKeepsWellFormed | src/components/AgentDeployment.tsx:103-110 | toggling an offered capability keeps the list free of repeats and within the offered ids |
| AgentDeployment.TrimStart | src/components/AgentDeployment.tsx:133 | removes exactly the leading white space |
| AgentDeployment.TrimEnd | src/components/AgentDeployment.tsx:133 | removes exactly the trailing white space |
| AgentDeployment.Trim | src/components/AgentDeployment.tsx:133 | no white space is left at either end, and the trimmed name is empty iff the name is all white space |
| AgentDeployment.ToLower | src/components/AgentDeployment.tsx:169 | same length; each ASCII capital becomes its lower-case letter (code point + 32), every other character stays; no capitals left |
| AgentDeployment.ToLowerAppend | src/components/AgentDeployment.tsx:169 | lower-casing works character by character: it distributes over concatenation |
| AgentDeployment.NoCapitalsUnchanged | src/components/AgentDeployment.tsx:169 | text without ASCII capitals is left as it is |
| AgentDeployment.ReplaceWhitespaceRuns | src/components/AgentDeployment.tsx:169 | no white space in the result, no longer than the input, empty iff the input is |
| AgentDeployment.ReplaceKeepsCharacters | src/components/AgentDeployment.tsx:169 | every character of the result is `-` or one of the input's |
| AgentDeployment.Slug | src/components/AgentDeployment.tsx:169 | the slug has no white space and no ASCII capitals, each of its characters is `-` or a character of the lower-cased name, it is no longer than the name, and empty iff the name is |
| AgentDeployment.NoWhitespaceUnchanged | src/components/AgentDeployment.tsx:169 | text without white space is left as it is |
| AgentDeployment.RunCollapses | src/components/AgentDeployment.tsx:169 | a maximal run of white space after a word becomes a single `-` |
| AgentDeployment.DropRun | src/components/AgentDeployment.tsx:169 | the pattern consumes a whole white-space run |
| AgentDeployment.SlugExample | src/components/AgentDeployment.tsx:169 | `My Agent` becomes `my-agent` |
| AgentDeployment.FirstViolation | src/components/AgentDeployment.tsx:132-151 | passes iff the name is not blank, a capability is chosen, funding > 0 and balance >= funding; otherwise names the first broken rule in that order |
| AgentDeployment.ContractAddress | src/components/AgentDeployment.tsx:169 | the slug, a `.`, then the account id, or `null` without one |
| AgentDeployment.NearWallet | src/components/AgentDeployment.tsx:171 | the slug followed by `-near.testnet`, with no white space or capital anywhere |
| AgentDeployment.Deployment | src/components/AgentDeployment.tsx:167-177 | agent id `agent_` followed by the clock reading's digits; the contract address and NEAR wallet of the name; wallets prefixed `0x` and `bc1`; status `active` |
| AgentDeployment.AgentIdsDistinct | src/components/AgentDeployment.tsx:168 | deployments at different clock readings get different agent ids |
| AgentDeployment.ApplyEdit | src/components/AgentDeployment.tsx:275-466 | a field edit changes neither type nor capabilities, and only the name edit changes the name |
| AgentDeployment.Wizard.constructor | src/components/AgentDeployment.tsx:34-49 | step 1, default configuration, no error, no deployment |
| AgentDeployment.Wizard.Edit | src/components/AgentDeployment.tsx:275-466 | typing changes only that field of the configuration |
| AgentDeployment.Wizard.NextFromBasicInfo | src/components/AgentDeployment.tsx:311-312 | goes to step 2 iff the trimmed name is non-empty, otherwise nothing happens |
| AgentDeployment.Wizard.BackToBasicInfo | src/components/AgentDeployment.tsx:383 | step 2 back to step 1, nothing else changes |
| AgentDeployment.Wizard.NextToFunding | src/components/AgentDeployment.tsx:389 | step 2 on to step 3, nothing else changes |
| AgentDeployment.Wizard.BackToAgentType | src/components/AgentDeployment.tsx:478 | step 3 back to step 2, nothing else changes |
| AgentDeployment.Wizard.ChooseAgentType | src/components/AgentDeployment.tsx:332 | applies the type choice; the wizard invariant holds |
| AgentDeployment.Wizard.ToggleCapability | src/components/AgentDeployment.tsx:357 | applies the toggle; the list stays free of repeats |
| AgentDeployment.Wizard.UseDeviceLocation | src/components/AgentDeployment.tsx:112-130 | a position sets both coordinates; a failure or missing support sets the matching error and nothing else |
| AgentDeployment.Wizard.Validate | src/components/AgentDeployment.tsx:132-151 | returns true iff no rule is broken; the error is cleared or set to the first broken rule |
| AgentDeployment.Wizard.Deploy | src/components/AgentDeployment.tsx:153-187 | a broken rule stops it with that error and no other change; otherwise step 4 with the deployment record; never the name error, since only a non-blank name leaves step 1 |
| AgentDeployment.Wizard.Record | src/components/AgentDeployment.tsx:157-180 | a successful deployment shows its record on step 4 with no error, configuration unchanged |
| AgentDeployment.Wizard.ShowError | src/components/AgentDeployment.tsx:133-149 | sets the shown message and nothing else |
| AgentDeployment.Wizard.Reset | src/components/AgentDeployment.tsx:189-204 | back to step 1 with the default configuration, no error, no deployment |
| WeatherXM.FormatWeatherData | src/integrations/weatherxm/index.ts:163-180 | throws iff the record is nullish; each field is the first truthy source in the listed order, else its default (20, 50, 1013, 5, 180, 0, 5, 10, now, 0, 0, `Unknown Location`) |
| WeatherXM.ZeroHumidityBecomesDefault | src/integrations/weatherxm/index.ts:166 | a humidity of 0 is falsy and reads as 50 |
| WeatherXM.FormattedFieldsTruthy | src/integrations/weatherxm/index.ts:165-177 | all fields with a truthy default come out truthy |
| WeatherXM.NumericSourcesGiveNumbers | src/integrations/weatherxm/index.ts:165-172 | numeric or missing sources give numeric readings |
| WeatherXM.StationFromJson | src/integrations/weatherxm/index.ts:101-109 | throws iff the station or its coordinates are nullish; active iff the status is exactly `active`; coordinates from `coordinates.lat/lon`; id, name, elevation and lastUpdate copied from the station |
| WeatherXM.MockStation | src/integrations/weatherxm/index.ts:202-210 | id `station_<i+1>`; position within 0.05 of the point; elevation in [0, 1000); last update within the past hour |
| WeatherXM.MockStations | src/integrations/weatherxm/index.ts:201-211 | five simulated stations, numbered from 1 |
| WeatherXM.MockStationIdsDistinct | src/integrations/weatherxm/index.ts:203 | the five simulated ids are pairwise different |
| WeatherXM.GetNearbyStations | src/integrations/weatherxm/index.ts:95-114 | the mapped station list in reply order, or the simulated stations when the request, the body or any station fails |
| WeatherXM.OneBadStationFallsBack | src/integrations/weatherxm/index.ts:101-112 | a single nullish station discards the whole reply for the simulated stations |
| WeatherXM.MockWeatherData | src/integrations/weatherxm/index.ts:182-199 | each simulated reading lies in its range (20-35, 40-80, 1000-1050, ...), at the given point and date |
| WeatherXM.GetCurrentWeather | src/integrations/weatherxm/index.ts:59-71 | the formatted reply, or a simulated reading for now when the request or the formatting fails |
| WeatherXM.ForecastFallback | src/integrations/weatherxm/index.ts:86-88 | `max(days, 0)` simulated readings, reading `i` dated `now + i` days |
| WeatherXM.ForecastFallbackDaily | src/integrations/weatherxm/index.ts:86-88 | the first fallback reading is dated now, and each later one exactly 86,400,000 ms after the previous |
| WeatherXM.FormatAll | src/integrations/weatherxm/index.ts:82 | succeeds only on a list reply, and then iff no item is nullish; the result keeps length and order, item by item |
| WeatherXM.DefaultForecastIsAWeek | src/integrations/weatherxm/index.ts:76-88 | called without `days`, a failed forecast is seven simulated readings, the first now and the last six days later |
| WeatherXM.GetWeatherForecast | src/integrations/weatherxm/index.ts:76-90 | the formatted reply list, or exactly `max(days, 0)` daily simulated readings on any failure |
| WeatherXM.GetHistoricalWeather | src/integrations/weatherxm/index.ts:119-140 | the formatted reply list, or `[]` on any failure |
| WeatherXM.FailedHistoryIsEmpty | src/integrations/weatherxm/index.ts:136-139 | a failed history request gives an empty list |

## Left out

- HTTP (axios), timers (`setTimeout`, `setInterval`), `Date.now`/`new Date` and `Math.random`. They appear as inputs (replies, clock readings, draws). The two-second pause between polls has no effect in the model.
- Points where the model follows the code as it stands:
  - polling has no wall-clock deadline, and `requirements.timeoutMs` is only sent;
  - any status other than the string `pending` ends polling, not only verified/rejected;
  - a failed fetch is not retried: the synthetic `verified` result replaces it;
  - history keeps the reply's order;
  - `initializeAll` has no per-client failure isolation, so the NEAR initialisation error propagates.
- `subscribeToUpdates` (an interval timer that calls `getCurrentWeather`) and the constructors' `Authorization` headers are transport plumbing.
- Concurrency is not modelled: the `isDeploying` flag, the three-second deployment wait, and interleavings of the asynchronous handlers. Each handler runs atomically. The deploy `catch` branch is omitted because nothing in its `try` block can throw in the model.
- `parseFloat` and NaN: numeric inputs, and the wallet balance, are reals. A NaN balance or funding, which passes both numeric rules in the source, is not represented.
- Number and date formatting: `toFixed(2)` in the simulated location name (kept as the pair of coordinates), `toISOString`, `toString(16)`/`toString(36)` of random numbers (the digit strings are inputs), and `new Date(...)` parsing (the raw value is kept).
- AgentDeployment.ToLower: only ASCII letters are lower-cased; full Unicode case mapping is not modelled.
- Validation messages are represented by their rule (`ValidationError`), not their rendered text.
- Registry.IntegrationManager.GetAll: a JavaScript object lists integer-like keys first. The model returns the Map's insertion order for all names. A name `__proto__` assigned into the plain `{}` result sets its prototype instead of adding a key; the model lists it like any other name.
- Js.OptMember: prototype properties (for example a `map` property on a non-array body) are not modelled; a non-array reply body is treated as lacking `map`.
- WeatherXM.FormatAll: the formatted items share one clock reading, so every item with a falsy timestamp gets the same `now`. The source reads `Date.now()` once per item (weatherxm/index.ts:173, reached through `map` at lines 82 and 135).
- WeatherXM.GetWeatherForecast: the clock is read once per call. The source reads `Date.now()` once per element, so its successive fallback dates may differ by a day plus the elapsed milliseconds.
- WeatherXM.MockStations: all five stations share one clock reading. The source reads `Date.now()` once per station (weatherxm/index.ts:209), so their `lastUpdate` bounds may differ by the elapsed milliseconds.
- Client construction for the six integrations (Secured Finance, Filecoin, Anthropic MCP, NEAR Shade and the two above) is not modelled. A registered client is a handle recording its class and configuration. The NEAR client's `initialize()` outcome is an input. Client constructors are assumed not to throw. They may in fact throw: the Anthropic client is created without `dangerouslyAllowBrowser`, which that SDK requires in a browser, and the Lotus RPC and stablecoin SDK constructors are foreign code.
- The wizard's on-close callback and rendering are presentation only.

## Findings

| source | as written | input that shows it | evidently intended | confidence | as-written member | corrected member |
|---|---|---|---|---|---|---|
| src/integrations/index.ts:7 | the client classes are only re-exported (`export { default as X } from ...`), which binds no local name, so `new SecuredFinanceIntegration(...)` in `initializeAll` throws `ReferenceError` | `initializeAll(developmentConfig)`: `securedFinance` is truthy, so the first block throws and nothing is registered | import the classes and register each configured client | not executed | Registry.ShippedConfigAsWrittenFails | Registry.InitializeAllRegisters |
