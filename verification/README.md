# APY plugin model

A Dafny model of the yield-data ("APY") plugin of the YieldexAI agent. The plugin has three parts:

- the question-answering action `HANDLE_APY_QUERY`;
- the provider that reads the `apy_history` database;
- the Twitter posting action `POST_APY_UPDATE`.

The model covers their decision and formatting logic. Number formatting, the database, the memory store, embeddings and the Twitter client are abstract parameters.

Layout:

- `text.dfy` (`Text`): substring search (`includes`), ASCII lower-casing, `join`, and decimal numerals with their parser.
- `seqs.dfy` (`Seqs`): `filter` and the stable descending sort the plugin's comparators induce.
- `records.dfy` (`Records`): the `APYRecord` shape, memory entries and action state. Also the TVL cell shared by the tweet and the summary block. Rendering and host services are function-valued fields of `Render` and `Host`.
- `query.dfy` (`Query`, `QueryExamples`):
  - `validate`, `getQueryType`, `filterDataByQuery`, `formatResponse` and the handler;
  - worked questions on two concrete USDC pools.
- `publisher.dfy` (`Publisher`): `formatTweet` and the posting handler's guards.
- `provider.dfy` (`Provider`):
  - `get`;
  - `loadHistoricalData`: known ids, the history query, the memories created, and repeated runs;
  - `formatHistoricalRecord`.

Modelling choices:

- `apy` and `tvl` are exact reals. `tvl` is `Option<real>` because the record type allows `null`.
- A TVL is *falsy* when it is `null` or `0`. In arithmetic, `null` counts as `0`: the `b.tvl - a.tvl` sort and the `tvl / 1_000_000` of the answer templates read it that way.
- `Array.prototype.sort` is stable, so every `(a, b) => b.apy - a.apy` sort is a stable insertion sort by descending key.
- The database is `Database(table, atOrAfter)`: a truthful evaluator of a `HistoryQuery`. A query is the cutoff plus the list of excluded ids. `atOrAfter` is the timestamp order on `created_at` strings.

Behaviour the model makes explicit:

- Substring matching of chain aliases means the alias `op` also occurs inside `top`. "top apy" is therefore answered from optimism records only, and with no optimism records it gets the "no data" text. See `QueryExamples.TopApyMeansOptimism`.
- The history text writes `$` outside its TVL conditional, so a falsy TVL appears there as `$N/A`. The tweet and the summary block show plain `N/A`.
- A record with an empty `id` is never counted as known, because the empty string is falsy. The second-run guarantee therefore assumes truthy ids.

## Model

| member | source | states |
|---|---|---|
| Text.Contains | src/plugins/apy-monitor/actions/handleApyQuery.ts:26-30 | `includes`; no contract, see Query.Validate, Query.BestApyWins and the examples |
| Text.Join | src/plugins/apy-monitor/actions/postUpdate.ts:55 | `join`; no contract, see Text.JoinSnoc |
| Text.JoinSnoc | src/plugins/apy-monitor/actions/postUpdate.ts:55 | appending a part adds exactly one separator and that part at the end |
| Text.ParseNatToString | src/plugins/apy-monitor/actions/postUpdate.ts:49 | the decimal rank label printed after the trophy reads back as the same number |
| Text.LowerIdempotent | src/plugins/apy-monitor/actions/handleApyQuery.ts:23 | lower-casing twice is lower-casing once |
| Seqs.Filter | src/plugins/apy-monitor/actions/handleApyQuery.ts:131 | `filter` keeps exactly the passing elements with their multiplicities and never grows the list |
| Seqs.FilterMembers | src/plugins/apy-monitor/actions/handleApyQuery.ts:149 | an element is in the filtered list iff it is in the input and passes the test |
| Seqs.SortDesc | src/plugins/apy-monitor/actions/handleApyQuery.ts:160 | the sort returns a permutation of its input ordered by non-increasing key |
| Seqs.SortDescHead | src/plugins/apy-monitor/actions/handleApyQuery.ts:183 | the first element after sorting is an input element whose key is maximal |
| Records.TvlLabelNA | src/plugins/apy-monitor/actions/postUpdate.ts:45-47 | the TVL cell is "N/A" exactly when the TVL is null or zero |
| Records.CarriedRecord | src/plugins/apy-monitor/providers/apyProvider.ts:86-87 | a memory the provider wrote carries its record; a memory without metadata carries none |
| Query.Validate | src/plugins/apy-monitor/actions/handleApyQuery.ts:22-48 | no memory search happens unless one of apy/yield/rate/protocol/tvl occurs in the lower-cased text; the search uses that text; the message is accepted iff a keyword occurs and the search finds something |
| Query.ValidateIgnoresCase | src/plugins/apy-monitor/actions/handleApyQuery.ts:23 | a message and its lower-cased form are treated identically |
| Query.IntentNameInjective | src/plugins/apy-monitor/actions/handleApyQuery.ts:119-124 | the four stored query-type names are pairwise different |
| Query.QueryType | src/plugins/apy-monitor/actions/handleApyQuery.ts:119-124 | `getQueryType`; no contract, see Query.QueryTypeIsFirstMatch, Query.BestApyWins and Query.GeneralIffNoKeyword |
| Query.QueryTypeIsFirstMatch | src/plugins/apy-monitor/actions/handleApyQuery.ts:119-124 | the classifier equals an ordered keyword table read first-match-wins |
| Query.BestApyWins | src/plugins/apy-monitor/actions/handleApyQuery.ts:120 | "best" or "highest" anywhere gives best_apy whatever else the question says, and nothing else gives best_apy |
| Query.GeneralIffNoKeyword | src/plugins/apy-monitor/actions/handleApyQuery.ts:119-124 | the intent is general iff none of best, highest, compare, safe, tvl occurs |
| Query.SortByApy | src/plugins/apy-monitor/actions/handleApyQuery.ts:132 | the APY sort is a permutation in non-increasing APY order |
| Query.AssetBranch | src/plugins/apy-monitor/actions/handleApyQuery.ts:128-134 | when the asset loop returns, its answer is non-empty, APY-sorted and drawn from the data |
| Query.ChainBranch | src/plugins/apy-monitor/actions/handleApyQuery.ts:137-157 | when the chain loop returns, its answer is APY-sorted and drawn from the data |
| Query.FilterByQuery | src/plugins/apy-monitor/actions/handleApyQuery.ts:126-161 | every answer is sorted by non-increasing APY and contains only input records, never more often than the input |
| Query.AssetMatchesNonEmpty | src/plugins/apy-monitor/actions/handleApyQuery.ts:131-132 | an asset filter is non-empty iff some record's lower-cased asset contains the keyword |
| Query.AssetBranchFirstHit | src/plugins/apy-monitor/actions/handleApyQuery.ts:129-134 | the first asset keyword that is both asked and matched decides the asset branch |
| Query.AssetBranchMiss | src/plugins/apy-monitor/actions/handleApyQuery.ts:129-134 | with no asset keyword both asked and matched, the asset loop falls through |
| Query.ChainBranchFirstHit | src/plugins/apy-monitor/actions/handleApyQuery.ts:147-156 | the first chain in table order with an alias in the question decides the chain branch, even when its records are missing |
| Query.ChainBranchMiss | src/plugins/apy-monitor/actions/handleApyQuery.ts:147-157 | with no alias in the question the chain loop falls through |
| Query.FilterAssetPrecedence | src/plugins/apy-monitor/actions/handleApyQuery.ts:128-134 | when asset keyword k is the first asked and matched, the answer is exactly the records whose asset contains it, APY-sorted; chains are not consulted |
| Query.FilterChainPrecedence | src/plugins/apy-monitor/actions/handleApyQuery.ts:137-157 | with no asset hit, the first aliased chain gives exactly its records, APY-sorted, and an empty answer iff it has none |
| Query.FilterFallback | src/plugins/apy-monitor/actions/handleApyQuery.ts:159-160 | with no asset or chain hit the answer is a permutation of all records sorted by APY |
| Query.MostLocked | src/plugins/apy-monitor/actions/handleApyQuery.ts:183 | the TVL sort's head is an input record of maximal TVL, null counting as zero |
| Query.FormatResponse | src/plugins/apy-monitor/actions/handleApyQuery.ts:163-196 | empty data always gets the no-data text; best_apy cites the first record; security cites a record of maximal TVL; the list templates render every record in order |
| Query.ComparisonListAppends | src/plugins/apy-monitor/actions/handleApyQuery.ts:175-180 | each further record adds exactly one comparison line at the end |
| Query.GeneralListAppends | src/plugins/apy-monitor/actions/handleApyQuery.ts:186-194 | each further record adds exactly one blank line and its detail block at the end of the general list |
| Query.RecordsOf | src/plugins/apy-monitor/actions/handleApyQuery.ts:67-69 | record extraction fails iff some match lacks metadata; otherwise it yields the carried records in match order, repeats kept (`Present(CarriedAll(memories))`), and a record is among them iff some match carries it |
| Query.CarriedAll | src/plugins/apy-monitor/actions/handleApyQuery.ts:67-68 | the `map` step: one entry per match; no further contract, see Query.RecordsOf |
| Query.Present | src/plugins/apy-monitor/actions/handleApyQuery.ts:69 | the `filter(Boolean)` step; no contract, see Query.RecordsOf |
| Query.HandleQuery | src/plugins/apy-monitor/actions/handleApyQuery.ts:50-115 | the handler succeeds iff the search returns and every match has metadata (a match without it throws and the catch answers false); it stores a reply exactly when it succeeds, filed in the asking room under the reply id |
| Query.HandleQueryReply | src/plugins/apy-monitor/actions/handleApyQuery.ts:71-108 | with no carried record the reply is the fixed no-memory text tagged no_data; otherwise it is the formatted filtered answer tagged with the intent |
| QueryExamples.BestApyForUsdc | src/plugins/apy-monitor/actions/handleApyQuery.ts:128-173 | "best apy for usdc" over the two USDC pools puts the 7.2% pool first and the answer cites it |
| QueryExamples.ApyOnArbitrum | src/plugins/apy-monitor/actions/handleApyQuery.ts:137-165 | "apy on arbitrum" with no arbitrum records gets an empty answer and the no-data text |
| QueryExamples.TopApyMeansOptimism | src/plugins/apy-monitor/actions/handleApyQuery.ts:139-151 | "top apy" selects the optimism records only, because the alias "op" occurs in "top" |
| Publisher.FormatTweet | src/plugins/apy-monitor/actions/postUpdate.ts:43-56 | `formatTweet`; no contract, see Publisher.FormatTweetSingle, Publisher.FormatTweetSnoc, Publisher.TweetBlockRank and Publisher.TweetBlockTvl |
| Publisher.FormatTweetSingle | src/plugins/apy-monitor/actions/postUpdate.ts:43-56 | a single entry's tweet is its block, with no separator before or after |
| Publisher.FormatTweetSnoc | src/plugins/apy-monitor/actions/postUpdate.ts:44-55 | appending an entry appends exactly one blank line and that entry's block, ranked after all earlier ones |
| Publisher.ReadRankOf | src/plugins/apy-monitor/actions/postUpdate.ts:49 | a trophy, a numeral and a line break read back as that number |
| Publisher.TweetBlockRank | src/plugins/apy-monitor/actions/postUpdate.ts:49 | the block of the entry at index i is labelled with rank i + 1 |
| Publisher.TweetBlockTvl | src/plugins/apy-monitor/actions/postUpdate.ts:45-54 | a block ends in "TVL: N/A" exactly when the entry's TVL is falsy |
| Publisher.FindTwitter | src/plugins/apy-monitor/actions/postUpdate.ts:23-25 | the lookup finds nothing iff no client has a Twitter client, and otherwise returns the first one that does |
| Publisher.PostHandler | src/plugins/apy-monitor/actions/postUpdate.ts:14-40 | missing or empty data stops before any lookup; without a Twitter client nothing is sent; success iff data, client and send all succeed, and then exactly the formatted tweet is sent to that client |
| Provider.Get | src/plugins/apy-monitor/providers/apyProvider.ts:30-71 | an error, null or empty result returns null without posting; otherwise the rows are returned and the posting action ran on the state carrying them and the message's room |
| Provider.GetPostsWhatItReturns | src/plugins/apy-monitor/providers/apyProvider.ts:57-65 | whenever `get` returns rows, the posting action looked up a client first, tweeted those same rows if a client exists, and succeeded iff the send did |
| Provider.KnownId | src/plugins/apy-monitor/providers/apyProvider.ts:85-88 | only truthy ids count as known |
| Provider.ExistingIds | src/plugins/apy-monitor/providers/apyProvider.ts:83-93 | the known ids are exactly the truthy carried record ids of the scanned memories, each listed once |
| Provider.BuildQuery | src/plugins/apy-monitor/providers/apyProvider.ts:95-108 | the query reads `apy_history` from the cutoff, excludes nothing when no ids are known, and excludes exactly the truthy known ids |
| Provider.OneExclusionPerKnownId | src/plugins/apy-monitor/providers/apyProvider.ts:100-107 | the exclusions are the known ids themselves, one each and in order |
| Provider.CoveredQueryAdmitsNothing | src/plugins/apy-monitor/providers/apyProvider.ts:95-108 | a query with the same cutoff that excludes every row an earlier query admitted admits no row |
| Provider.MemoryKeyOnlyById | src/plugins/apy-monitor/providers/apyProvider.ts:151 | memory keys are equal iff record ids are equal, given an injective uuid derivation |
| Provider.HistoryMemoryKeys | src/plugins/apy-monitor/providers/apyProvider.ts:150-165 | the entry for a record is filed in the agent's room, keyed by the record id, and carries the record |
| Provider.IngestionPlan | src/plugins/apy-monitor/providers/apyProvider.ts:110-171 | an error, null or empty result creates nothing; otherwise one memory per row, in row order, each in the agent's room, keyed by its id and carrying its row |
| Provider.IngestedMemoryContent | src/plugins/apy-monitor/providers/apyProvider.ts:127-168 | the created memory stores and embeds the record's descriptive text |
| Provider.HistoryText | src/plugins/apy-monitor/providers/apyProvider.ts:127-146 | the descriptive text of one record; no contract, see Provider.IngestedMemoryContent and Provider.HistoryTvlNA |
| Provider.HistoryTvlNA | src/plugins/apy-monitor/providers/apyProvider.ts:131 | the history text's TVL cell is "$N/A" exactly when the TVL is falsy |
| Provider.LoadHistoricalData | src/plugins/apy-monitor/providers/apyProvider.ts:73-177 | a run asks from the cutoff, excludes exactly the ids known in the agent's room, and creates the plan for the database's answer |
| Provider.NeverIngestsKnownId | src/plugins/apy-monitor/providers/apyProvider.ts:78-171 | against a truthful database every created memory carries a table record whose id was not known before the run |
| Provider.ScanAfterRun | src/plugins/apy-monitor/providers/apyProvider.ts:78-80 | the next scan of the agent's room sees the old room followed by everything the run created |
| Provider.ExistingIdsGrow | src/plugins/apy-monitor/providers/apyProvider.ts:83-93 | adding memories never forgets a known id |
| Provider.CarriedIdsBecomeKnown | src/plugins/apy-monitor/providers/apyProvider.ts:159-160 | memories carrying records with truthy ids make those ids known once they join the room |
| Provider.EvaluatedIdsTruthy | src/plugins/apy-monitor/providers/apyProvider.ts:110 | a truthful database returns only table rows, so their ids are truthy when the table's are |
| Provider.RebuiltQueryAdmitsNothing | src/plugins/apy-monitor/providers/apyProvider.ts:78-110 | once the memories planned for a run's rows join the room, the query rebuilt from the room admits nothing |
| Provider.SecondRunAddsNothing | src/plugins/apy-monitor/providers/apyProvider.ts:73-177 | a second run over the same table and cutoff creates nothing, when the table's ids are truthy |
| Provider.FormatHistoricalRecord | src/plugins/apy-monitor/providers/apyProvider.ts:179-189 | `formatHistoricalRecord`; no contract, see Provider.TweetBlockIsRankedSummary |
| Provider.TweetBlockIsRankedSummary | src/plugins/apy-monitor/providers/apyProvider.ts:179-189 | a tweet block is its rank label over the record's summary block |

## Left out

- Timers: the scheduler service, its intervals and overlapping ticks.
- Configuration: environment variables and construction of the Supabase client.
- The plugin wiring.
- The Supabase query builder: the model assumes each `neq` call adds its filter to the query it is called on, and `get_latest_apy` (ordered, limit 3) is a parameter `fetch`.
- `getMemories` paging: the room read is the whole room. Any default result limit of the host's `getMemories` is not part of this model.
- Embeddings and memory search: `embed`, `searchMemories` and their thresholds are parameters (`search`, `Host.embed`).
- `stringToUuid`: a parameter (`Host.uuid`); injectivity is assumed only where a lemma says so.
- Identifiers from `Date.now()`: the reply id is the parameter `replyId`.
- Date arithmetic: the 24-hour cutoff is the parameter `cutoff`, and `created_at` ordering is the parameter `atOrAfter`.
- Date and number text: `toLocaleDateString`, `getTime`, `toFixed` and `${x}` are uninterpreted fields of `Render` and `Host`.
- Floating point: NaN, infinities and rounding; `apy` and `tvl` are exact reals.
- Tie order among equal APYs: the model's sort is stable, as `Array.prototype.sort` is required to be.
- Lower-casing: `Text.Lower` maps ASCII letters only; full Unicode case mapping is not modelled.
- Logging.
- Query.Validate: a thrown embedding or search error, which propagates to the caller, is not modelled; the search always returns a list.
- Query.HandleQuery: a failing `createMemory` for the reply is not modelled. Such a failure is caught and yields `false` like the other errors.
- Provider.IngestionPlan: a failing `embed` or `createMemory` is not modelled. In the source such a failure ends the loop, and the remaining rows of that run are not ingested.
- Publisher.PostHandler: a `formatTweet` that throws on a record with a null `apy` is not modelled, because `apy` is a number in the record type.
- Publisher.PostHandler: clients are a sequence; the object-valued `runtime.clients` form is read in its value order.
