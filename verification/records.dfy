/** The data the plugin handles: the yield record of the `apy_history`
    table, the agent runtime's memory entries and action state, and the
    abstract renderers and host services the plugin calls into. */
module Records {

  datatype Option<T> = None | Some(value: T)

  /** One observed yield position (field for field the `APYRecord`
      interface; `apy` and `tvl` are treated as exact numbers). */
  datatype ApyRecord = ApyRecord(
    id: string,
    asset: string,
    chain: string,
    apy: real,
    timestamp: int,
    poolId: string,
    createdAt: string,
    tvl: Option<real>)

  /** JavaScript truthiness of `tvl`: `null` and `0` are falsy. */
  predicate TvlFalsy(tvl: Option<real>)
  {
    tvl == None || tvl == Some(0.0)
  }

  /** The number `tvl` becomes in arithmetic (`null` coerces to 0). */
  function TvlNumber(tvl: Option<real>): real
  {
    match tvl
    case None => 0.0
    case Some(v) => v
  }

  /** Number and date rendering the plugin leaves to the JavaScript runtime,
      kept uninterpreted: `x.toFixed(2)`, `(x / 1_000_000).toFixed(1)`,
      `${x}` and `new Date(s).toLocaleDateString()`. */
  datatype Render = Render(
    fixed2: real -> string,
    millions1: real -> string,
    plain: real -> string,
    localeDate: string -> string)

  /** Host services: `stringToUuid`, the embedding model, and the
      millisecond value of a date string. */
  datatype Host = Host(
    uuid: string -> string,
    embed: string -> seq<real>,
    dateMillis: string -> int)

  /** The TVL cell shared by the tweet and the history formatter: "N/A"
      for a falsy TVL, otherwise dollars in millions. */
  function TvlLabel(tvl: Option<real>, render: Render): string
  {
    if TvlFalsy(tvl) then "N/A" else "$" + render.millions1(TvlNumber(tvl)) + "M"
  }

  lemma TvlLabelNA(tvl: Option<real>, render: Render)
    ensures TvlLabel(tvl, render) == "N/A" <==> TvlFalsy(tvl)
  {
    if !TvlFalsy(tvl) {
      assert TvlLabel(tvl, render)[0] == '$';
    }
  }

  /** The metadata a memory entry may carry. `History` is what the
      provider writes, `Response` what the query action writes, and
      `Foreign` anything else, which may or may not hold an `apyData`. */
  datatype Metadata =
    | History(apyData: ApyRecord, tags: seq<string>, importance: string, category: string)
    | Response(queryData: Option<seq<ApyRecord>>, queryType: string)
    | Foreign(carried: Option<ApyRecord>)

  datatype Content = Content(text: string, source: string, kind: string, metadata: Option<Metadata>)

  datatype Memory = Memory(
    id: string,
    userId: string,
    agentId: string,
    roomId: string,
    content: Content,
    embedding: Option<seq<real>>,
    createdAt: Option<int>)

  /** `metadata?.apyData`: the yield record a memory carries, if any. */
  function CarriedRecord(m: Memory): (r: Option<ApyRecord>)
    ensures m.content.metadata.Some? && m.content.metadata.value.History? ==>
              r == Some(m.content.metadata.value.apyData)
    ensures m.content.metadata.None? ==> r.None?
  {
    match m.content.metadata
    case None => None
    case Some(History(rec, _, _, _)) => Some(rec)
    case Some(Response(_, _)) => None
    case Some(Foreign(c)) => c
  }

  /** The action state handed from the provider to the posting action;
      `rest` stands for the fields the spread `...state` copies along. */
  datatype State = State(data: Option<seq<ApyRecord>>, roomId: Option<string>, rest: map<string, string>)
}
