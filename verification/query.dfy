/** The question-answering action (`HANDLE_APY_QUERY`): the keyword gate of
    `validate`, the intent classifier, the asset/chain filter, the answer
    templates and the handler that ties them together. The question is
    lower-cased once by the callers; every test below is on that text. */
module Query {
  import opened Text
  import opened Seqs
  import opened Records

  // ---------------------------------------------------------------------
  // validate

  /** The five words that make a message a candidate yield question. */
  predicate HasQueryKeyword(text: string)
  {
    Contains(text, "apy") || Contains(text, "yield") || Contains(text, "rate")
    || Contains(text, "protocol") || Contains(text, "tvl")
  }

  /** What `validate` did: the text it searched memory with, if it searched
      at all, and its verdict. */
  datatype ValidateOutcome = ValidateOutcome(searchedWith: Option<string>, accepted: bool)

  /** `search` stands for embedding the text and searching the room's
      memories (threshold 0.7, at most 3 matches). */
  function Validate(text: string, search: string -> seq<Memory>): (r: ValidateOutcome)
    ensures r.searchedWith.None? <==> !HasQueryKeyword(Lower(text))
    ensures r.searchedWith.None? ==> !r.accepted
    ensures r.searchedWith.Some? ==> r.searchedWith.value == Lower(text)
    ensures r.accepted <==> HasQueryKeyword(Lower(text)) && |search(Lower(text))| > 0
  {
    var t := Lower(text);
    if HasQueryKeyword(t) then ValidateOutcome(Some(t), |search(t)| > 0)
    else ValidateOutcome(None, false)
  }

  /** The gate ignores letter case: an upper-case variant of a message is
      treated exactly like the message itself. */
  lemma ValidateIgnoresCase(text: string, search: string -> seq<Memory>)
    ensures Validate(Lower(text), search) == Validate(text, search)
  {
    LowerIdempotent(text);
  }

  // ---------------------------------------------------------------------
  // getQueryType

  datatype Intent = BestApy | Comparison | Security | General

  /** The string the handler stores as `queryType`. */
  function IntentName(i: Intent): string
  {
    match i
    case BestApy => "best_apy"
    case Comparison => "comparison"
    case Security => "security"
    case General => "general"
  }

  lemma IntentNameInjective(a: Intent, b: Intent)
    ensures IntentName(a) == IntentName(b) <==> a == b
  {
  }

  /** First match wins, in the order best/highest, compare, safe/tvl. */
  function QueryType(q: string): Intent
  {
    if Contains(q, "best") || Contains(q, "highest") then BestApy
    else if Contains(q, "compare") then Comparison
    else if Contains(q, "safe") || Contains(q, "tvl") then Security
    else General
  }

  /** A reference reading of the classifier: a keyword table scanned in
      order, the first keyword present deciding the intent. */
  const IntentTable: seq<(string, Intent)> :=
    [("best", BestApy), ("highest", BestApy), ("compare", Comparison),
     ("safe", Security), ("tvl", Security)]

  function FirstIntent(q: string, table: seq<(string, Intent)>): Intent
  {
    if |table| == 0 then General
    else if Contains(q, table[0].0) then table[0].1
    else FirstIntent(q, table[1..])
  }

  lemma QueryTypeIsFirstMatch(q: string)
    ensures QueryType(q) == FirstIntent(q, IntentTable)
  {
    var t := IntentTable;
    assert FirstIntent(q, t[4..]) == (if Contains(q, "tvl") then Security else General) by {
      assert t[4..][0] == ("tvl", Security) && t[4..][1..] == [];
    }
    assert FirstIntent(q, t[3..]) == (if Contains(q, "safe") then Security else FirstIntent(q, t[4..])) by {
      assert t[3..][0] == ("safe", Security) && t[3..][1..] == t[4..];
    }
    assert FirstIntent(q, t[2..]) == (if Contains(q, "compare") then Comparison else FirstIntent(q, t[3..])) by {
      assert t[2..][0] == ("compare", Comparison) && t[2..][1..] == t[3..];
    }
    assert FirstIntent(q, t[1..]) == (if Contains(q, "highest") then BestApy else FirstIntent(q, t[2..])) by {
      assert t[1..][0] == ("highest", BestApy) && t[1..][1..] == t[2..];
    }
  }

  /** "best" or "highest" decides the intent whatever else the question
      mentions. */
  lemma BestApyWins(q: string)
    ensures Contains(q, "best") || Contains(q, "highest") <==> QueryType(q) == BestApy
  {
  }

  /** `general` is exactly the absence of all five keywords. */
  lemma GeneralIffNoKeyword(q: string)
    ensures QueryType(q) == General <==>
      !Contains(q, "best") && !Contains(q, "highest") && !Contains(q, "compare")
      && !Contains(q, "safe") && !Contains(q, "tvl")
  {
  }

  // ---------------------------------------------------------------------
  // filterDataByQuery

  const AssetKeywords: seq<string> := ["usdc", "usdt", "dai", "eth", "lusd"]

  /** A canonical chain name and the words that select it. */
  datatype ChainEntry = ChainEntry(name: string, aliases: seq<string>)

  /** The chain table, in its insertion order (which `Object.entries`
      preserves). */
  const ChainTable: seq<ChainEntry> := [
    ChainEntry("ethereum", ["ethereum", "eth"]),
    ChainEntry("optimism", ["optimism", "op"]),
    ChainEntry("arbitrum", ["arbitrum", "arb"]),
    ChainEntry("polygon", ["polygon", "matic"]),
    ChainEntry("bsc", ["bsc", "binance"]),
    ChainEntry("gnosis", ["gnosis", "xdai"]),
    ChainEntry("avalanche", ["avalanche", "avax"])
  ]

  function ApyKey(d: ApyRecord): real { d.apy }

  predicate SortedByApy(s: seq<ApyRecord>) { SortedDesc(s, ApyKey) }

  /** `sort((a, b) => b.apy - a.apy)`: highest APY first, stable. */
  function SortByApy(s: seq<ApyRecord>): (r: seq<ApyRecord>)
    ensures SortedByApy(r)
    ensures multiset(r) == multiset(s)
  {
    SortDesc(s, ApyKey)
  }

  predicate AssetMatch(d: ApyRecord, asset: string) { Contains(Lower(d.asset), asset) }

  predicate ChainMatch(d: ApyRecord, chain: string) { Lower(d.chain) == chain }

  function AssetMatches(data: seq<ApyRecord>, asset: string): seq<ApyRecord>
  {
    Filter(data, d => AssetMatch(d, asset))
  }

  function ChainMatches(data: seq<ApyRecord>, chain: string): seq<ApyRecord>
  {
    Filter(data, d => ChainMatch(d, chain))
  }

  /** The question names `asset` and some record's asset contains it
      (see `AssetMatchesNonEmpty` for the second half). */
  predicate AssetHit(q: string, data: seq<ApyRecord>, asset: string)
  {
    Contains(q, asset) && |AssetMatches(data, asset)| > 0
  }

  /** `aliases.some(alias => question.includes(alias))` */
  predicate MentionsAny(q: string, aliases: seq<string>)
  {
    exists i :: 0 <= i < |aliases| && Contains(q, aliases[i])
  }

  /** The asset loop: `Some` when it returns, `None` when it falls through. */
  function AssetBranch(q: string, data: seq<ApyRecord>, assets: seq<string>): (r: Option<seq<ApyRecord>>)
    ensures r.Some? ==> SortedByApy(r.value) && |r.value| > 0
    ensures r.Some? ==> multiset(r.value) <= multiset(data)
  {
    if |assets| == 0 then None
    else if Contains(q, assets[0]) then
      var hits := AssetMatches(data, assets[0]);
      if |hits| > 0 then Some(SortByApy(hits)) else AssetBranch(q, data, assets[1..])
    else AssetBranch(q, data, assets[1..])
  }

  /** The chain loop: the first entry with an alias in the question returns,
      possibly with no records at all. */
  function ChainBranch(q: string, data: seq<ApyRecord>, table: seq<ChainEntry>): (r: Option<seq<ApyRecord>>)
    ensures r.Some? ==> SortedByApy(r.value)
    ensures r.Some? ==> multiset(r.value) <= multiset(data)
  {
    if |table| == 0 then None
    else if MentionsAny(q, table[0].aliases) then
      var hits := ChainMatches(data, table[0].name);
      if |hits| > 0 then Some(SortByApy(hits)) else Some([])
    else ChainBranch(q, data, table[1..])
  }

  /** Assets first, then chains, then everything; always highest APY first,
      and never a record that was not in the input. */
  function FilterByQuery(q: string, data: seq<ApyRecord>): (r: seq<ApyRecord>)
    ensures SortedByApy(r)
    ensures multiset(r) <= multiset(data)
  {
    match AssetBranch(q, data, AssetKeywords)
    case Some(hits) => hits
    case None =>
      match ChainBranch(q, data, ChainTable)
      case Some(hits) => hits
      case None => SortByApy(data)
  }

  lemma AssetMatchesNonEmpty(data: seq<ApyRecord>, asset: string)
    ensures |AssetMatches(data, asset)| > 0 <==> exists d :: d in data && AssetMatch(d, asset)
  {
    var p := (d: ApyRecord) => AssetMatch(d, asset);
    if |AssetMatches(data, asset)| > 0 {
      FilterMembers(data, p, AssetMatches(data, asset)[0]);
    }
    forall d | d in data && AssetMatch(d, asset)
      ensures |AssetMatches(data, asset)| > 0
    {
      FilterMembers(data, p, d);
    }
  }

  lemma {:induction false} AssetBranchFirstHit(q: string, data: seq<ApyRecord>, assets: seq<string>, k: nat)
    requires k < |assets| && AssetHit(q, data, assets[k])
    requires forall j :: 0 <= j < k ==> !AssetHit(q, data, assets[j])
    ensures AssetBranch(q, data, assets) == Some(SortByApy(AssetMatches(data, assets[k])))
    decreases k
  {
    if k > 0 {
      assert !AssetHit(q, data, assets[0]);
      assert forall j :: 0 <= j < k - 1 ==> assets[1..][j] == assets[j + 1];
      AssetBranchFirstHit(q, data, assets[1..], k - 1);
    }
  }

  lemma {:induction false} AssetBranchMiss(q: string, data: seq<ApyRecord>, assets: seq<string>)
    requires forall j :: 0 <= j < |assets| ==> !AssetHit(q, data, assets[j])
    ensures AssetBranch(q, data, assets) == None
    decreases |assets|
  {
    if |assets| > 0 {
      AssetBranchMiss(q, data, assets[1..]);
    }
  }

  lemma {:induction false} ChainBranchFirstHit(q: string, data: seq<ApyRecord>, table: seq<ChainEntry>, k: nat)
    requires k < |table| && MentionsAny(q, table[k].aliases)
    requires forall j :: 0 <= j < k ==> !MentionsAny(q, table[j].aliases)
    ensures ChainBranch(q, data, table) == Some(SortByApy(ChainMatches(data, table[k].name)))
    decreases k
  {
    if k > 0 {
      ChainBranchFirstHit(q, data, table[1..], k - 1);
    } else if |ChainMatches(data, table[0].name)| == 0 {
      assert SortByApy([]) == [];
    }
  }

  lemma {:induction false} ChainBranchMiss(q: string, data: seq<ApyRecord>, table: seq<ChainEntry>)
    requires forall j :: 0 <= j < |table| ==> !MentionsAny(q, table[j].aliases)
    ensures ChainBranch(q, data, table) == None
    decreases |table|
  {
    if |table| > 0 {
      ChainBranchMiss(q, data, table[1..]);
    }
  }

  /** The first asset keyword (in list order) that the question names and
      some record carries decides the answer: exactly the records whose
      asset contains it, highest APY first. Chains are not consulted. */
  lemma FilterAssetPrecedence(q: string, data: seq<ApyRecord>, k: nat)
    requires k < |AssetKeywords| && AssetHit(q, data, AssetKeywords[k])
    requires forall j :: 0 <= j < k ==> !AssetHit(q, data, AssetKeywords[j])
    ensures FilterByQuery(q, data) == SortByApy(AssetMatches(data, AssetKeywords[k]))
    ensures forall d :: d in FilterByQuery(q, data) <==> d in data && AssetMatch(d, AssetKeywords[k])
    ensures |FilterByQuery(q, data)| > 0
  {
    AssetBranchFirstHit(q, data, AssetKeywords, k);
    var a := AssetKeywords[k];
    var r := FilterByQuery(q, data);
    forall d
      ensures d in r <==> d in data && AssetMatch(d, a)
    {
      assert d in r <==> d in multiset(r);
      FilterMembers(data, x => AssetMatch(x, a), d);
    }
  }

  /** With no asset hit, the first chain (in table order) with an alias in
      the question decides: exactly the records on that chain, highest APY
      first, and no records at all when that chain has none. */
  lemma FilterChainPrecedence(q: string, data: seq<ApyRecord>, k: nat)
    requires forall j :: 0 <= j < |AssetKeywords| ==> !AssetHit(q, data, AssetKeywords[j])
    requires k < |ChainTable| && MentionsAny(q, ChainTable[k].aliases)
    requires forall j :: 0 <= j < k ==> !MentionsAny(q, ChainTable[j].aliases)
    ensures FilterByQuery(q, data) == SortByApy(ChainMatches(data, ChainTable[k].name))
    ensures forall d :: d in FilterByQuery(q, data) <==> d in data && ChainMatch(d, ChainTable[k].name)
    ensures FilterByQuery(q, data) == [] <==> forall d :: d in data ==> !ChainMatch(d, ChainTable[k].name)
  {
    AssetBranchMiss(q, data, AssetKeywords);
    ChainBranchFirstHit(q, data, ChainTable, k);
    var c := ChainTable[k].name;
    var r := FilterByQuery(q, data);
    forall d
      ensures d in r <==> d in data && ChainMatch(d, c)
    {
      assert d in r <==> d in multiset(r);
      FilterMembers(data, x => ChainMatch(x, c), d);
    }
    if r != [] {
      assert r[0] in r;
    }
  }

  /** With neither an asset hit nor a chain alias, the answer is the whole
      input, reordered highest APY first. */
  lemma FilterFallback(q: string, data: seq<ApyRecord>)
    requires forall j :: 0 <= j < |AssetKeywords| ==> !AssetHit(q, data, AssetKeywords[j])
    requires forall j :: 0 <= j < |ChainTable| ==> !MentionsAny(q, ChainTable[j].aliases)
    ensures multiset(FilterByQuery(q, data)) == multiset(data)
    ensures SortedByApy(FilterByQuery(q, data))
  {
    AssetBranchMiss(q, data, AssetKeywords);
    ChainBranchMiss(q, data, ChainTable);
  }

  // ---------------------------------------------------------------------
  // formatResponse

  const NoDataAnswer: string :=
    "I don't have any current APY data for this specific network/asset in my memory. "
    + "Please try asking about other networks or check general APY rates."

  function BestLine(best: ApyRecord, render: Render): string
  {
    "Based on my current data, on " + best.chain + " the highest APY is "
    + render.fixed2(best.apy) + "% for " + best.asset + " via " + best.poolId
    + " (TVL: $" + render.millions1(TvlNumber(best.tvl)) + "M)"
  }

  function ComparisonLine(d: ApyRecord, render: Render): string
  {
    d.asset + " on " + d.chain + ": " + render.fixed2(d.apy) + "% (" + d.poolId + ")"
  }

  function SecurityLine(top: ApyRecord, render: Render): string
  {
    "Based on TVL data, " + top.poolId + " has the highest security with $"
    + render.millions1(TvlNumber(top.tvl)) + "M TVL and offers "
    + render.fixed2(top.apy) + "% APY"
  }

  function DetailBlock(d: ApyRecord, render: Render): string
  {
    d.asset + " (" + d.chain + "):\n"
    + "• APY: " + render.fixed2(d.apy) + "%\n"
    + "• Protocol: " + d.poolId + "\n"
    + "• TVL: $" + render.millions1(TvlNumber(d.tvl)) + "M"
  }

  const ComparisonHeader: string := "Here are the current top yields from my data:\n\n"

  const GeneralHeader: string := "Here are the current yields from my data:\n\n"

  function ComparisonLines(data: seq<ApyRecord>, render: Render): (r: seq<string>)
    ensures |r| == |data|
  {
    seq(|data|, i requires 0 <= i < |data| => ComparisonLine(data[i], render))
  }

  function DetailBlocks(data: seq<ApyRecord>, render: Render): (r: seq<string>)
    ensures |r| == |data|
  {
    seq(|data|, i requires 0 <= i < |data| => DetailBlock(data[i], render))
  }

  function TvlKey(d: ApyRecord): real { TvlNumber(d.tvl) }

  /** `[...data].sort((a, b) => b.tvl - a.tvl)[0]`: the first record of
      largest TVL (null counting as 0); `data` itself is not reordered. */
  function MostLocked(data: seq<ApyRecord>): (top: ApyRecord)
    requires |data| > 0
    ensures top in data
    ensures forall j :: 0 <= j < |data| ==> TvlNumber(data[j].tvl) <= TvlNumber(top.tvl)
  {
    SortDescHead(data, TvlKey);
    SortDesc(data, TvlKey)[0]
  }

  /** An empty list always gets the fixed "no data" text; otherwise the
      intent picks the template: the best-APY line cites the first record,
      the security line a record of largest TVL, and the two list
      templates render every record in order. */
  function FormatResponse(q: string, data: seq<ApyRecord>, render: Render): (r: string)
    ensures |data| == 0 ==> r == NoDataAnswer
    ensures |data| > 0 && QueryType(q) == BestApy ==> r == BestLine(data[0], render)
    ensures |data| > 0 && QueryType(q) == Security ==>
      exists i :: 0 <= i < |data| && r == SecurityLine(data[i], render)
        && forall j :: 0 <= j < |data| ==> TvlNumber(data[j].tvl) <= TvlNumber(data[i].tvl)
    ensures |data| > 0 && QueryType(q) == Comparison ==>
      r == ComparisonHeader + Join(ComparisonLines(data, render), "\n")
    ensures |data| > 0 && QueryType(q) == General ==>
      r == GeneralHeader + Join(DetailBlocks(data, render), "\n\n")
  {
    if |data| == 0 then NoDataAnswer
    else
      match QueryType(q)
      case BestApy => BestLine(data[0], render)
      case Comparison => ComparisonHeader + Join(ComparisonLines(data, render), "\n")
      case Security =>
        var top := MostLocked(data);
        var i :| 0 <= i < |data| && data[i] == top;
        SecurityLine(top, render)
      case General => GeneralHeader + Join(DetailBlocks(data, render), "\n\n")
  }

  /** Every record appears in the comparison list, on its own line, in
      the order of `data`: appending a record appends one line. */
  lemma ComparisonListAppends(q: string, data: seq<ApyRecord>, d: ApyRecord, render: Render)
    requires QueryType(q) == Comparison && |data| > 0
    ensures FormatResponse(q, data + [d], render)
            == FormatResponse(q, data, render) + "\n" + ComparisonLine(d, render)
  {
    assert ComparisonLines(data + [d], render) == ComparisonLines(data, render) + [ComparisonLine(d, render)];
    JoinSnoc(ComparisonLines(data, render), ComparisonLine(d, render), "\n");
  }

  /** Every record appears in the general list as its own block, in the
      order of `data`: appending a record appends one blank line and its
      block. */
  lemma GeneralListAppends(q: string, data: seq<ApyRecord>, d: ApyRecord, render: Render)
    requires QueryType(q) == General && |data| > 0
    ensures FormatResponse(q, data + [d], render)
            == FormatResponse(q, data, render) + "\n\n" + DetailBlock(d, render)
  {
    assert DetailBlocks(data + [d], render) == DetailBlocks(data, render) + [DetailBlock(d, render)];
    JoinSnoc(DetailBlocks(data, render), DetailBlock(d, render), "\n\n");
  }

  // ---------------------------------------------------------------------
  // handler

  const NoMemoryAnswer: string :=
    "I don't have relevant data in my memory for this specific query. "
    + "Please try asking about general APY rates or specific protocols I track."

  /** The memory search of the handler (threshold 0.8, at most 10 matches):
      either the matches or a thrown error. */
  datatype Searched = Found(memories: seq<Memory>) | SearchFailed

  /** What the handler stored as its reply, and what it returned. */
  datatype HandleOutcome = HandleOutcome(reply: Option<Memory>, ok: bool)

  /** `memories.map(m => m.content.metadata.apyData)`, for memories that
      all have metadata. */
  function CarriedAll(memories: seq<Memory>): (r: seq<Option<ApyRecord>>)
    ensures |r| == |memories|
  {
    seq(|memories|, i requires 0 <= i < |memories| => CarriedRecord(memories[i]))
  }

  /** `.filter(Boolean)`: the records present, in order, repeats kept. */
  function Present(carried: seq<Option<ApyRecord>>): seq<ApyRecord>
  {
    if |carried| == 0 then []
    else (if carried[0].Some? then [carried[0].value] else []) + Present(carried[1..])
  }

  /** `memories.map(m => m.content.metadata.apyData).filter(Boolean)`;
      `None` when some memory has no metadata, where the property read
      throws. */
  function RecordsOf(memories: seq<Memory>): (r: Option<seq<ApyRecord>>)
    ensures r.None? <==> exists i :: 0 <= i < |memories| && memories[i].content.metadata.None?
    ensures r.Some? ==> forall d :: d in r.value <==> exists m :: m in memories && CarriedRecord(m) == Some(d)
    ensures r.Some? ==> r.value == Present(CarriedAll(memories))
  {
    if |memories| == 0 then Some([])
    else
      var m := memories[0];
      var rest := RecordsOf(memories[1..]);
      if m.content.metadata.None? || rest.None? then
        if rest.None? then
          var i :| 0 <= i < |memories[1..]| && memories[1..][i].content.metadata.None?;
          assert memories[i + 1] == memories[1..][i];
          None
        else None
      else
        assert forall x :: x in memories <==> x == m || x in memories[1..];
        assert CarriedAll(memories)[0] == CarriedRecord(m);
        assert CarriedAll(memories)[1..] == CarriedAll(memories[1..]);
        match CarriedRecord(m)
        case Some(d) => Some([d] + rest.value)
        case None => Some(rest.value)
  }

  function ReplyMemory(replyId: string, agentId: string, roomId: string, text: string, meta: Metadata): Memory
  {
    Memory(replyId, agentId, agentId, roomId, Content(text, "apy_query", "response", Some(meta)), None, None)
  }

  /** `replyId` stands for `stringToUuid('apy-response-' + Date.now())`. */
  function HandleQuery(text: string, agentId: string, roomId: string, replyId: string,
                       search: string -> Searched, render: Render): (r: HandleOutcome)
    ensures r.ok <==> r.reply.Some?
    ensures search(Lower(text)).SearchFailed? ==> !r.ok
    ensures r.ok <==> search(Lower(text)).Found? && RecordsOf(search(Lower(text)).memories).Some?
    ensures r.ok ==> r.reply.value.roomId == roomId && r.reply.value.id == replyId
  {
    var q := Lower(text);
    match search(q)
    case SearchFailed => HandleOutcome(None, false)
    case Found(memories) =>
      match RecordsOf(memories)
      case None => HandleOutcome(None, false)
      case Some(records) =>
        if |records| == 0 then
          HandleOutcome(Some(ReplyMemory(replyId, agentId, roomId, NoMemoryAnswer, Response(None, "no_data"))), true)
        else
          var answer := FilterByQuery(q, records);
          var meta := Response(Some(answer), IntentName(QueryType(q)));
          HandleOutcome(Some(ReplyMemory(replyId, agentId, roomId, FormatResponse(q, answer, render), meta)), true)
  }

  /** When the matches carry no yield record the reply is the fixed
      "nothing in memory" text tagged `no_data`; otherwise it is the
      formatted answer over the filtered records, tagged with the intent. */
  lemma HandleQueryReply(text: string, agentId: string, roomId: string, replyId: string,
                         search: string -> Searched, render: Render)
    requires search(Lower(text)).Found?
    requires forall m :: m in search(Lower(text)).memories ==> m.content.metadata.Some?
    ensures var r := HandleQuery(text, agentId, roomId, replyId, search, render);
      && r.ok
      && ((forall m :: m in search(Lower(text)).memories ==> CarriedRecord(m).None?) ==>
            r.reply.value.content.text == NoMemoryAnswer
            && r.reply.value.content.metadata == Some(Response(None, "no_data")))
      && (forall m :: m in search(Lower(text)).memories && CarriedRecord(m).Some? ==>
            var records := RecordsOf(search(Lower(text)).memories).value;
            var answer := FilterByQuery(Lower(text), records);
            && CarriedRecord(m).value in records
            && r.reply.value.content.text == FormatResponse(Lower(text), answer, render)
            && r.reply.value.content.metadata
               == Some(Response(Some(answer), IntentName(QueryType(Lower(text))))))
  {
    var ms := search(Lower(text)).memories;
    var rs := RecordsOf(ms);
    assert rs.Some?;
    if |rs.value| > 0 {
      var d := rs.value[0];
      assert d in rs.value;
    }
  }
}

/** Worked examples of the query pipeline on two USDC pools. */
module QueryExamples {
  import opened Text
  import opened Seqs
  import opened Records
  import opened Query

  const OnEthereum: ApyRecord :=
    ApyRecord("r1", "USDC", "ethereum", 5.0, 0, "aave-v3", "2024-05-01T00:00:00Z", Some(12000000.0))
  const OnOptimism: ApyRecord :=
    ApyRecord("r2", "USDC", "optimism", 7.2, 0, "velodrome", "2024-05-01T00:00:00Z", None)

  const Pools: seq<ApyRecord> := [OnEthereum, OnOptimism]

  lemma PoolsChains()
    ensures Lower(OnEthereum.chain) == "ethereum" && Lower(OnOptimism.chain) == "optimism"
    ensures Lower(OnEthereum.asset) == "usdc" && Lower(OnOptimism.asset) == "usdc"
  {
  }

  /** A question naming none of the asset keywords has no asset hit. */
  lemma NoAssetHit(q: string)
    requires !Contains(q, "usdc") && !Contains(q, "usdt") && !Contains(q, "dai")
    requires !Contains(q, "eth") && !Contains(q, "lusd")
    ensures forall j :: 0 <= j < |AssetKeywords| ==> !AssetHit(q, Pools, AssetKeywords[j])
  {
    assert forall j :: 0 <= j < |AssetKeywords| ==> !Contains(q, AssetKeywords[j]);
  }

  /** Both records are USDC; sorted, the 7.2% one comes first. */
  lemma UsdcPools()
    ensures AssetMatches(Pools, "usdc") == Pools
    ensures SortByApy(Pools) == [OnOptimism, OnEthereum]
  {
    UsdcMatches();
    PoolsSorted();
  }

  lemma UsdcMatches()
    ensures AssetMatches(Pools, "usdc") == Pools
  {
    PoolsChains();
    assert OccursAt("usdc", "usdc", 0);
    assert AssetMatch(OnEthereum, "usdc") && AssetMatch(OnOptimism, "usdc");
    assert Pools[1..] == [OnOptimism] && Pools[1..][1..] == [];
  }

  lemma PoolsSorted()
    ensures SortByApy(Pools) == [OnOptimism, OnEthereum]
  {
    assert Pools[1..] == [OnOptimism] && Pools[1..][1..] == [];
    assert SortDesc([OnOptimism], ApyKey) == [OnOptimism];
    assert InsertDesc(OnEthereum, [], ApyKey) == [OnEthereum];
    assert InsertDesc(OnEthereum, [OnOptimism], ApyKey) == [OnOptimism, OnEthereum];
  }

  lemma UsdcQuestion()
    ensures Contains("best apy for usdc", "usdc")
    ensures QueryType("best apy for usdc") == BestApy
  {
    assert OccursAt("best apy for usdc", "usdc", 13);
    assert OccursAt("best apy for usdc", "best", 0);
  }

  /** "best apy for usdc": both USDC records, the 7.2% one first, and the
      answer cites it. */
  lemma BestApyForUsdc(render: Render)
    ensures FilterByQuery("best apy for usdc", Pools) == [OnOptimism, OnEthereum]
    ensures FormatResponse("best apy for usdc", [OnOptimism, OnEthereum], render) == BestLine(OnOptimism, render)
  {
    UsdcPools();
    UsdcQuestion();
    FilterAssetPrecedence("best apy for usdc", Pools, 0);
  }

  lemma ArbitrumQuestionAssets()
    ensures !Contains("apy on arbitrum", "usdc") && !Contains("apy on arbitrum", "usdt")
    ensures !Contains("apy on arbitrum", "dai") && !Contains("apy on arbitrum", "eth")
    ensures !Contains("apy on arbitrum", "lusd")
  {
    ArbitrumQuestionLacks('s');
    ArbitrumQuestionLacks('d');
    ArbitrumQuestionLacks('e');
    ArbitrumQuestionLacks('l');
    NotContainsChar("apy on arbitrum", "usdc", 's');
    NotContainsChar("apy on arbitrum", "usdt", 's');
    NotContainsChar("apy on arbitrum", "dai", 'd');
    NotContainsChar("apy on arbitrum", "eth", 'e');
    NotContainsChar("apy on arbitrum", "lusd", 'l');
  }

  lemma ArbitrumQuestionLacks(c: char)
    requires c in "sdel"
    ensures c !in "apy on arbitrum"
  {
  }

  lemma ArbitrumQuestionNoOp()
    ensures !Contains("apy on arbitrum", "op")
  {
    assert "apy on arbitrum" == "apy " + ['o'] + "n arbitrum";
    NotContainsPair("apy ", 'o', "n arbitrum", 'p');
  }

  lemma ArbitrumQuestionArbitrum()
    ensures Contains("apy on arbitrum", "arbitrum")
  {
    assert OccursAt("apy on arbitrum", "arbitrum", 7);
  }

  /** A question naming neither "eth", "ethereum", "optimism" nor "op"
      selects neither of the first two chains. */
  lemma NotFirstTwoChains(q: string)
    requires !Contains(q, "ethereum") && !Contains(q, "eth")
    requires !Contains(q, "optimism") && !Contains(q, "op")
    ensures !MentionsAny(q, ChainTable[0].aliases) && !MentionsAny(q, ChainTable[1].aliases)
  {
  }

  lemma ArbitrumQuestion()
    ensures !MentionsAny("apy on arbitrum", ChainTable[0].aliases)
    ensures !MentionsAny("apy on arbitrum", ChainTable[1].aliases)
    ensures MentionsAny("apy on arbitrum", ChainTable[2].aliases)
  {
    ArbitrumQuestionLacks('e');
    ArbitrumQuestionLacks('s');
    NotContainsChar("apy on arbitrum", "ethereum", 'e');
    NotContainsChar("apy on arbitrum", "eth", 'e');
    NotContainsChar("apy on arbitrum", "optimism", 's');
    ArbitrumQuestionNoOp();
    NotFirstTwoChains("apy on arbitrum");
    ArbitrumQuestionArbitrum();
    assert ChainTable[2].aliases[0] == "arbitrum";
  }

  /** "apy on arbitrum": the chain filter finds nothing and the answer is
      the fixed "no data" text. */
  lemma ApyOnArbitrum(render: Render)
    ensures FilterByQuery("apy on arbitrum", Pools) == []
    ensures FormatResponse("apy on arbitrum", [], render) == NoDataAnswer
  {
    ArbitrumQuestionAssets();
    ArbitrumQuestion();
    NoAssetHit("apy on arbitrum");
    PoolsChains();
    FilterChainPrecedence("apy on arbitrum", Pools, 2);
  }

  /** Which keywords "top apy" names. */
  lemma TopQuestion()
    ensures !Contains("top apy", "usdc") && !Contains("top apy", "usdt")
    ensures !Contains("top apy", "dai") && !Contains("top apy", "eth")
    ensures !Contains("top apy", "lusd")
    ensures !MentionsAny("top apy", ChainTable[0].aliases)
    ensures MentionsAny("top apy", ChainTable[1].aliases)
  {
    var q := "top apy";
    NotContainsChar(q, "usdc", 'u');
    NotContainsChar(q, "usdt", 'u');
    NotContainsChar(q, "dai", 'd');
    NotContainsChar(q, "eth", 'e');
    NotContainsChar(q, "lusd", 'l');
    NotContainsChar(q, "ethereum", 'e');
    assert OccursAt(q, "op", 1);
    assert ChainTable[1].aliases[1] == "op";
  }

  lemma OptimismMatches()
    ensures SortByApy(ChainMatches(Pools, "optimism")) == [OnOptimism]
  {
    PoolsChains();
    var p := (d: ApyRecord) => ChainMatch(d, "optimism");
    assert Pools[1..] == [OnOptimism] && [OnOptimism][1..] == [];
    assert Filter([OnOptimism], p) == [OnOptimism];
    assert Filter(Pools, p) == Filter([OnOptimism], p);
    assert SortByApy([OnOptimism]) == [OnOptimism];
  }

  /** The alias "op" also occurs inside "top": "top apy" is answered from
      the optimism records only. */
  lemma TopApyMeansOptimism()
    ensures FilterByQuery("top apy", Pools) == [OnOptimism]
  {
    TopQuestion();
    NoAssetHit("top apy");
    PoolsChains();
    OptimismMatches();
    FilterChainPrecedence("top apy", Pools, 1);
  }
}
