/** The yield-data provider: `get`, which fetches the top records and hands
    them to the posting action, and `loadHistoricalData`, which ingests
    recent `apy_history` rows into the agent's memory without ingesting
    any record twice. The database and the memory store are modelled by
    what they return; the query itself is data (`HistoryQuery`) and
    `Evaluate` is the meaning the database gives it. */
module Provider {
  import opened Seqs
  import opened Records
  import Publisher

  /** What a database call yields: `{ data, error }`. */
  datatype Fetch = FetchError(message: string) | FetchNull | FetchRows(rows: seq<ApyRecord>)

  predicate FetchedNothing(fetch: Fetch)
  {
    fetch.FetchError? || fetch.FetchNull? || |fetch.rows| == 0
  }

  // ---------------------------------------------------------------------
  // get

  /** The value `get` returns, and the posting action's outcome when it
      was invoked. */
  datatype GetOutcome = GetOutcome(value: Option<seq<ApyRecord>>, post: Option<Publisher.PostOutcome>)

  /** `{ ...state, data, roomId: message.roomId }` */
  function HandOn(state: Option<State>, data: seq<ApyRecord>, roomId: string): State
  {
    State(Some(data), Some(roomId), if state.Some? then state.value.rest else map[])
  }

  /** `fetch` stands for the `get_latest_apy` call, ordered by APY and
      limited to three rows. */
  function Get(fetch: Fetch, state: Option<State>, roomId: string, clients: seq<Publisher.Client>,
               sendSucceeds: bool, render: Render): (r: GetOutcome)
    ensures r.value.None? <==> FetchedNothing(fetch)
    ensures r.value.None? ==> r.post.None?
    ensures r.value.Some? ==> fetch.FetchRows? && r.value.value == fetch.rows
    ensures r.value.Some? ==>
      r.post == Some(Publisher.PostHandler(Some(HandOn(state, fetch.rows, roomId)), clients, sendSucceeds, render))
  {
    match fetch
    case FetchError(_) => GetOutcome(None, None)
    case FetchNull => GetOutcome(None, None)
    case FetchRows(data) =>
      if |data| == 0 then GetOutcome(None, None)
      else
        var post := Publisher.PostHandler(Some(HandOn(state, data, roomId)), clients, sendSucceeds, render);
        GetOutcome(Some(data), Some(post))
  }

  /** Whatever `get` returns is what it tweeted: the posting action always
      passes its data guard, sends the formatted rows when a Twitter client
      exists, and reports success exactly when the send resolves. */
  lemma GetPostsWhatItReturns(fetch: Fetch, state: Option<State>, roomId: string,
                              clients: seq<Publisher.Client>, sendSucceeds: bool, render: Render)
    requires !FetchedNothing(fetch)
    ensures var r := Get(fetch, state, roomId, clients, sendSucceeds, render);
      && r.value == Some(fetch.rows)
      && r.post.Some?
      && |r.post.value.steps| > 0
      && r.post.value.steps[0] == Publisher.LookupClient
      && (Publisher.FindTwitter(clients).Some? ==>
            r.post.value.steps[1..] == [Publisher.SendTweet(Publisher.FindTwitter(clients).value,
                                                            Publisher.FormatTweet(fetch.rows, render))])
      && (r.post.value.ok <==> Publisher.FindTwitter(clients).Some? && sendSucceeds)
  {
  }

  // ---------------------------------------------------------------------
  // loadHistoricalData: the known ids

  /** `metadata?.apyData?.id` when it is truthy (a non-empty string). */
  function KnownId(m: Memory): (r: Option<string>)
    ensures r.Some? ==> r.value != ""
  {
    match CarriedRecord(m)
    case Some(rec) => if rec.id != "" then Some(rec.id) else None
    case None => None
  }

  /** `Array.from(new Set(...))`: the known ids in first-seen order, each
      once. */
  function ExistingIds(memories: seq<Memory>): (ids: seq<string>)
    ensures forall id :: id in ids <==> exists m :: m in memories && KnownId(m) == Some(id)
    ensures forall i, j :: 0 <= i < j < |ids| ==> ids[i] != ids[j]
    ensures forall i :: 0 <= i < |ids| ==> ids[i] != ""
    decreases |memories|
  {
    if |memories| == 0 then []
    else
      var init := memories[..|memories| - 1];
      var m := memories[|memories| - 1];
      assert memories == init + [m];
      assert forall x :: x in memories <==> x in init || x == m;
      var prev := ExistingIds(init);
      match KnownId(m)
      case Some(id) => if id in prev then prev else prev + [id]
      case None => prev
  }

  // ---------------------------------------------------------------------
  // loadHistoricalData: the query

  /** `from(table).select('*').gte('created_at', cutoff)` followed by one
      `neq('id', id)` per excluded id. */
  datatype HistoryQuery = HistoryQuery(table: string, cutoff: string, excluded: seq<string>)

  const HistoryTable: string := "apy_history"

  /** The exclusions are added only when there are known ids, after
      dropping falsy ones. */
  function BuildQuery(cutoff: string, existingIds: seq<string>): (q: HistoryQuery)
    ensures q.table == HistoryTable && q.cutoff == cutoff
    ensures |existingIds| == 0 ==> q.excluded == []
    ensures forall id :: id in q.excluded <==> id in existingIds && id != ""
  {
    if |existingIds| > 0 then
      var ids := Filter(existingIds, (id: string) => id != "");
      forall id
        ensures id in ids <==> id in existingIds && id != ""
      {
        FilterMembers(existingIds, (id: string) => id != "", id);
      }
      if |ids| > 0 then HistoryQuery(HistoryTable, cutoff, ids)
      else HistoryQuery(HistoryTable, cutoff, [])
    else HistoryQuery(HistoryTable, cutoff, [])
  }

  /** The ids read from memory are all truthy, so there is exactly one
      exclusion per known id, in the same order. */
  lemma OneExclusionPerKnownId(cutoff: string, memories: seq<Memory>)
    ensures BuildQuery(cutoff, ExistingIds(memories)).excluded == ExistingIds(memories)
  {
    var ids := ExistingIds(memories);
    if |ids| > 0 {
      FilterAll(ids, (id: string) => id != "");
    }
  }

  /** The database's reading of a query: `created_at` at or after the
      cutoff (`atOrAfter` is the timestamp order), and none of the excluded
      ids. */
  predicate Admits(q: HistoryQuery, row: ApyRecord, atOrAfter: (string, string) -> bool)
  {
    atOrAfter(row.createdAt, q.cutoff) && row.id !in q.excluded
  }

  function Evaluate(table: seq<ApyRecord>, q: HistoryQuery, atOrAfter: (string, string) -> bool): seq<ApyRecord>
  {
    Filter(table, row => Admits(q, row, atOrAfter))
  }

  /** A database holding `table` that answers every query truthfully. */
  function Database(table: seq<ApyRecord>, atOrAfter: (string, string) -> bool): HistoryQuery -> Fetch
  {
    q => FetchRows(Evaluate(table, q, atOrAfter))
  }

  // ---------------------------------------------------------------------
  // loadHistoricalData: the memories created

  /** `stringToUuid('apy-history-' + id)`: depends on the record id only. */
  function MemoryKey(recordId: string, host: Host): string
  {
    host.uuid("apy-history-" + recordId)
  }

  /** Equal record ids give equal keys; with an injective `stringToUuid`,
      different record ids give different keys. */
  lemma MemoryKeyOnlyById(a: ApyRecord, b: ApyRecord, host: Host)
    requires forall x, y :: host.uuid(x) == host.uuid(y) ==> x == y
    ensures MemoryKey(a.id, host) == MemoryKey(b.id, host) <==> a.id == b.id
  {
    if MemoryKey(a.id, host) == MemoryKey(b.id, host) {
      var p := "apy-history-";
      assert (p + a.id)[|p|..] == a.id && (p + b.id)[|p|..] == b.id;
    }
  }

  /** The TVL cell of the history text: `$` followed by the amount in
      millions, or by "N/A" when the TVL is falsy. */
  function HistoryTvl(tvl: Option<real>, render: Render): string
  {
    "$" + (if TvlFalsy(tvl) then "N/A" else render.millions1(TvlNumber(tvl)) + "M")
  }

  /** A piece of the history text: fixed wording, or a hole filled from
      the record. */
  datatype Piece = Words(words: string) | AssetHole | ChainHole | PoolHole | ApyHole | TvlHole | DateHole

  function PieceText(p: Piece, r: ApyRecord, render: Render): string
  {
    match p
    case Words(w) => w
    case AssetHole => r.asset
    case ChainHole => r.chain
    case PoolHole => r.poolId
    case ApyHole => render.plain(r.apy)
    case TvlHole => HistoryTvl(r.tvl, render)
    case DateHole => render.localeDate(r.createdAt)
  }

  function Fill(template: seq<Piece>, r: ApyRecord, render: Render): string
  {
    if |template| == 0 then "" else PieceText(template[0], r, render) + Fill(template[1..], r, render)
  }

  const HistoryTemplate: seq<Piece> := [
    Words("IMPORTANT DEFI APY INFORMATION:\nAsset: "), AssetHole, Words(" ("), ChainHole,
    Words(")\nProtocol Name: "), PoolHole,
    Words("\nCurrent APY Rate: "), ApyHole,
    Words("%\nTotal Value Locked (TVL): "), TvlHole,
    Words("\nDate: "), DateHole,
    Words("\n\nKey Information:\n- This is yield farming data for "), AssetHole,
    Words(" token\n- The protocol "), PoolHole, Words(" is running on "), ChainHole,
    Words(" blockchain\n- Current annual percentage yield is "), ApyHole,
    Words("%\n- Total value locked indicates protocol security and popularity\n\nUse Cases:\n- Answer questions about "),
    AssetHole,
    Words(" APY rates\n- Compare yields between different protocols\n- Provide historical APY data for "),
    ChainHole,
    Words("\n- Reference when discussing DeFi opportunities\n\nKeywords: DeFi, yield farming, APY, "),
    AssetHole, Words(", "), ChainHole, Words(", "), PoolHole,
    Words(", TVL, annual percentage yield, liquidity")]

  /** The descriptive text embedded and stored for one record. */
  function HistoryText(r: ApyRecord, render: Render): string
  {
    Fill(HistoryTemplate, r, render)
  }

  /** The memory entry created for one row. */
  function HistoryMemory(agentId: string, r: ApyRecord, render: Render, host: Host): Memory
  {
    var text := HistoryText(r, render);
    Memory(
      MemoryKey(r.id, host), agentId, agentId, agentId,
      Content(text, "apy_history", "historical_apy",
              Some(History(r, ["defi", "apy", r.asset, r.chain, r.poolId], "high", "yield_data"))),
      Some(host.embed(text)),
      Some(host.dateMillis(r.createdAt)))
  }

  /** Where the entry for a record is filed, and what it carries. */
  lemma HistoryMemoryKeys(agentId: string, r: ApyRecord, render: Render, host: Host)
    ensures var m := HistoryMemory(agentId, r, render, host);
      m.roomId == agentId && m.id == MemoryKey(r.id, host) && CarriedRecord(m) == Some(r)
  {
  }

  /** An error, a null result or no rows create nothing; otherwise one
      memory per row, in row order, each in the agent's own room, keyed by
      its record's id and carrying the record itself as `apyData`. */
  function IngestionPlan(agentId: string, fetch: Fetch, render: Render, host: Host): (created: seq<Memory>)
    ensures FetchedNothing(fetch) ==> created == []
    ensures fetch.FetchRows? ==> |created| == |fetch.rows|
    ensures fetch.FetchRows? ==> forall i :: 0 <= i < |created| ==>
      && created[i].roomId == agentId
      && created[i].id == MemoryKey(fetch.rows[i].id, host)
      && CarriedRecord(created[i]) == Some(fetch.rows[i])
  {
    match fetch
    case FetchError(_) => []
    case FetchNull => []
    case FetchRows(rows) =>
      if |rows| == 0 then []
      else
        var created := seq(|rows|, i requires 0 <= i < |rows| => HistoryMemory(agentId, rows[i], render, host));
        forall i | 0 <= i < |rows|
          ensures created[i].roomId == agentId && created[i].id == MemoryKey(rows[i].id, host)
          ensures CarriedRecord(created[i]) == Some(rows[i])
        {
          HistoryMemoryKeys(agentId, rows[i], render, host);
        }
        created
  }

  /** The entry created for a row is that row's `HistoryMemory`: its text,
      tags and embedding come from the record alone. */
  lemma IngestedMemoryContent(agentId: string, rows: seq<ApyRecord>, render: Render, host: Host, i: nat)
    requires i < |rows|
    ensures var created := IngestionPlan(agentId, FetchRows(rows), render, host);
      && created[i] == HistoryMemory(agentId, rows[i], render, host)
      && created[i].content.text == HistoryText(rows[i], render)
      && created[i].embedding == Some(host.embed(HistoryText(rows[i], render)))
  {
  }

  /** The memories the id scan reads: those in the agent's room. */
  function Scan(store: seq<Memory>, agentId: string): seq<Memory>
  {
    Filter(store, (m: Memory) => m.roomId == agentId)
  }

  /** One run: what the run asked the database and what it created. */
  datatype LoadRun = LoadRun(query: HistoryQuery, created: seq<Memory>)

  /** `cutoff` stands for the ISO time 24 hours before now; `db` for the
      database call. */
  function LoadHistoricalData(agentId: string, store: seq<Memory>, cutoff: string,
                              db: HistoryQuery -> Fetch, render: Render, host: Host): (r: LoadRun)
    ensures r.query.cutoff == cutoff
    ensures forall id :: id in r.query.excluded <==> exists m :: m in Scan(store, agentId) && KnownId(m) == Some(id)
    ensures r.created == IngestionPlan(agentId, db(r.query), render, host)
  {
    var ids := ExistingIds(Scan(store, agentId));
    var q := BuildQuery(cutoff, ids);
    LoadRun(q, IngestionPlan(agentId, db(q), render, host))
  }

  /** Dedup: against a truthful database, no run ingests a record whose id
      the agent's room already knows. */
  lemma NeverIngestsKnownId(agentId: string, store: seq<Memory>, cutoff: string, table: seq<ApyRecord>,
                            atOrAfter: (string, string) -> bool, render: Render, host: Host)
    ensures var run := LoadHistoricalData(agentId, store, cutoff, Database(table, atOrAfter), render, host);
      forall i :: 0 <= i < |run.created| ==>
        && CarriedRecord(run.created[i]).Some?
        && CarriedRecord(run.created[i]).value in table
        && CarriedRecord(run.created[i]).value.id !in ExistingIds(Scan(store, agentId))
  {
    var run := LoadHistoricalData(agentId, store, cutoff, Database(table, atOrAfter), render, host);
    var known := ExistingIds(Scan(store, agentId));
    var rows := Evaluate(table, run.query, atOrAfter);
    var created := run.created;
    assert created == IngestionPlan(agentId, FetchRows(rows), render, host);
    OneExclusionPerKnownId(cutoff, Scan(store, agentId));
    assert run.query.excluded == known;
    assert forall i :: 0 <= i < |created| ==> CarriedRecord(created[i]) == Some(rows[i]);
    forall i | 0 <= i < |rows|
      ensures rows[i] in table && rows[i].id !in known
    {
      FilterMembers(table, row => Admits(run.query, row, atOrAfter), rows[i]);
    }
    forall i | 0 <= i < |created|
      ensures CarriedRecord(created[i]).Some? && CarriedRecord(created[i]).value in table
      ensures CarriedRecord(created[i]).value.id !in known
    {
      assert CarriedRecord(created[i]) == Some(rows[i]);
    }
  }

  /** The scan after a run sees the old room plus everything the run
      created. */
  lemma ScanAfterRun(agentId: string, store: seq<Memory>, created: seq<Memory>)
    requires forall i :: 0 <= i < |created| ==> created[i].roomId == agentId
    ensures Scan(store + created, agentId) == Scan(store, agentId) + created
  {
    FilterConcat(store, created, (m: Memory) => m.roomId == agentId);
    FilterAll(created, (m: Memory) => m.roomId == agentId);
  }

  /** A query whose exclusions cover every row an earlier query with the
      same cutoff admitted admits nothing. */
  lemma CoveredQueryAdmitsNothing(table: seq<ApyRecord>, q1: HistoryQuery, q2: HistoryQuery,
                                  atOrAfter: (string, string) -> bool)
    requires q1.cutoff == q2.cutoff
    requires forall id :: id in q1.excluded ==> id in q2.excluded
    requires forall row :: row in Evaluate(table, q1, atOrAfter) ==> row.id in q2.excluded
    ensures Evaluate(table, q2, atOrAfter) == []
  {
    var rows2 := Evaluate(table, q2, atOrAfter);
    if |rows2| > 0 {
      var row := rows2[0];
      FilterMembers(table, r => Admits(q2, r, atOrAfter), row);
      FilterMembers(table, r => Admits(q1, r, atOrAfter), row);
      assert false;
    }
  }

  /** Ids known before more memories arrive stay known. */
  lemma ExistingIdsGrow(before: seq<Memory>, added: seq<Memory>)
    ensures forall id :: id in ExistingIds(before) ==> id in ExistingIds(before + added)
  {
    forall id | id in ExistingIds(before)
      ensures id in ExistingIds(before + added)
    {
      var m :| m in before && KnownId(m) == Some(id);
      assert m in before + added;
    }
  }

  /** Memories carrying records with truthy ids make those ids known once
      they are added to the room. */
  lemma CarriedIdsBecomeKnown(rows: seq<ApyRecord>, created: seq<Memory>, earlier: seq<Memory>)
    requires |created| == |rows|
    requires forall i :: 0 <= i < |rows| ==> rows[i].id != "" && CarriedRecord(created[i]) == Some(rows[i])
    ensures forall row :: row in rows ==> row.id in ExistingIds(earlier + created)
  {
    forall row | row in rows
      ensures row.id in ExistingIds(earlier + created)
    {
      var i :| 0 <= i < |rows| && rows[i] == row;
      assert (earlier + created)[|earlier| + i] == created[i];
      assert KnownId(created[i]) == Some(row.id);
    }
  }

  /** A truthful database returns rows of its table only, so their ids are
      truthy when the table's are. */
  lemma EvaluatedIdsTruthy(table: seq<ApyRecord>, q: HistoryQuery, atOrAfter: (string, string) -> bool)
    requires forall i :: 0 <= i < |table| ==> table[i].id != ""
    ensures forall i :: 0 <= i < |Evaluate(table, q, atOrAfter)| ==> Evaluate(table, q, atOrAfter)[i].id != ""
  {
    var rows := Evaluate(table, q, atOrAfter);
    forall i | 0 <= i < |rows|
      ensures rows[i].id != ""
    {
      FilterMembers(table, r => Admits(q, r, atOrAfter), rows[i]);
      var k :| 0 <= k < |table| && table[k] == rows[i];
    }
  }

  /** Once the memories planned for a query's rows are in the room, the
      query rebuilt from the room admits nothing. */
  lemma RebuiltQueryAdmitsNothing(table: seq<ApyRecord>, scan: seq<Memory>, cutoff: string,
                                  atOrAfter: (string, string) -> bool, agentId: string, render: Render, host: Host)
    requires forall i :: 0 <= i < |table| ==> table[i].id != ""
    ensures var rows := Evaluate(table, BuildQuery(cutoff, ExistingIds(scan)), atOrAfter);
      var created := IngestionPlan(agentId, FetchRows(rows), render, host);
      Evaluate(table, BuildQuery(cutoff, ExistingIds(scan + created)), atOrAfter) == []
  {
    var q1 := BuildQuery(cutoff, ExistingIds(scan));
    var rows := Evaluate(table, q1, atOrAfter);
    var created := IngestionPlan(agentId, FetchRows(rows), render, host);
    var q2 := BuildQuery(cutoff, ExistingIds(scan + created));
    OneExclusionPerKnownId(cutoff, scan);
    OneExclusionPerKnownId(cutoff, scan + created);
    EvaluatedIdsTruthy(table, q1, atOrAfter);
    CarriedIdsBecomeKnown(rows, created, scan);
    ExistingIdsGrow(scan, created);
    CoveredQueryAdmitsNothing(table, q1, q2, atOrAfter);
  }

  /** The feedback loop closes: run twice against the same table and
      cutoff, the second run creates nothing, provided the table's ids are
      truthy (an empty id is never recorded as known). */
  lemma SecondRunAddsNothing(agentId: string, store: seq<Memory>, cutoff: string, table: seq<ApyRecord>,
                             atOrAfter: (string, string) -> bool, render: Render, host: Host)
    requires forall i :: 0 <= i < |table| ==> table[i].id != ""
    ensures var db := Database(table, atOrAfter);
      var first := LoadHistoricalData(agentId, store, cutoff, db, render, host);
      LoadHistoricalData(agentId, store + first.created, cutoff, db, render, host).created == []
  {
    var db := Database(table, atOrAfter);
    var first := LoadHistoricalData(agentId, store, cutoff, db, render, host);
    var created := first.created;
    var scan1 := Scan(store, agentId);
    assert first.query == BuildQuery(cutoff, ExistingIds(scan1));
    var rows1 := Evaluate(table, first.query, atOrAfter);
    assert created == IngestionPlan(agentId, FetchRows(rows1), render, host);
    ScanAfterRun(agentId, store, created);
    RebuiltQueryAdmitsNothing(table, scan1, cutoff, atOrAfter, agentId, render, host);
    var second := LoadHistoricalData(agentId, store + created, cutoff, db, render, host);
    assert second.query == BuildQuery(cutoff, ExistingIds(scan1 + created));
    assert second.created == IngestionPlan(agentId, FetchRows([]), render, host);
  }

  // ---------------------------------------------------------------------
  // formatHistoricalRecord

  /** The summary block of one record; its TVL line reads "N/A" when the
      TVL is falsy. */
  function FormatHistoricalRecord(r: ApyRecord, render: Render): string
  {
    "Asset: " + r.asset + "\nChain: " + r.chain + "\nProtocol: " + r.poolId
    + "\nAPY: " + render.fixed2(r.apy) + "%\nTVL: " + TvlLabel(r.tvl, render)
  }

  /** The provider's summary block and the tweet block agree: a tweet block
      is its rank label over the record's summary. */
  lemma TweetBlockIsRankedSummary(i: nat, r: ApyRecord, render: Render)
    ensures Publisher.TweetBlock(i, r, render) == Publisher.RankLabel(i) + "\n" + FormatHistoricalRecord(r, render)
  {
  }

  /** In the history text the TVL cell is "$N/A" for a falsy TVL, and an
      amount in millions otherwise. */
  lemma HistoryTvlNA(tvl: Option<real>, render: Render)
    ensures HistoryTvl(tvl, render) == "$N/A" <==> TvlFalsy(tvl)
  {
    if !TvlFalsy(tvl) {
      var cell := HistoryTvl(tvl, render);
      assert cell[|cell| - 1] == 'M';
    }
  }
}
