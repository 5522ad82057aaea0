/** The posting action (`POST_APY_UPDATE`): the tweet text built from a
    ranked list of records, and the handler's guards around locating a
    Twitter client and sending. */
module Publisher {
  import opened Text
  import opened Records

  const Trophy: string := "\U{1F3C6} #"

  const BlockSeparator: string := "\n\n"

  /** `🏆 #<index + 1>`, the first line of the block for position `i`. */
  function RankLabel(i: nat): string
  {
    Trophy + NatToString(i + 1)
  }

  /** The lines under the rank label: asset, chain, protocol, APY, TVL. */
  function BlockBody(e: ApyRecord, render: Render): string
  {
    "\nAsset: " + e.asset + "\nChain: " + e.chain
    + "\nProtocol: " + e.poolId + "\nAPY: " + render.fixed2(e.apy)
    + "%\nTVL: " + TvlLabel(e.tvl, render)
  }

  /** The block for the `i`-th entry. */
  function TweetBlock(i: nat, e: ApyRecord, render: Render): string
  {
    RankLabel(i) + BlockBody(e, render)
  }

  function TweetBlocks(entries: seq<ApyRecord>, render: Render): (r: seq<string>)
    ensures |r| == |entries|
  {
    seq(|entries|, i requires 0 <= i < |entries| => TweetBlock(i, entries[i], render))
  }

  /** `formatTweet`: one block per entry, in order, blank-line separated. */
  function FormatTweet(entries: seq<ApyRecord>, render: Render): string
  {
    Join(TweetBlocks(entries, render), BlockSeparator)
  }

  /** A single entry is its block alone: no leading or trailing separator. */
  lemma FormatTweetSingle(e: ApyRecord, render: Render)
    ensures FormatTweet([e], render) == TweetBlock(0, e, render)
  {
  }

  /** Appending an entry appends exactly one separator and the new entry's
      block, ranked after all earlier ones. */
  lemma FormatTweetSnoc(entries: seq<ApyRecord>, e: ApyRecord, render: Render)
    requires |entries| > 0
    ensures FormatTweet(entries + [e], render)
            == FormatTweet(entries, render) + BlockSeparator + TweetBlock(|entries|, e, render)
  {
    var bs := TweetBlocks(entries, render);
    assert TweetBlocks(entries + [e], render) == bs + [TweetBlock(|entries|, e, render)];
    JoinSnoc(bs, TweetBlock(|entries|, e, render), BlockSeparator);
  }

  /** The rank a reader sees in a block: the number after the trophy. */
  function ReadRank(block: string): Option<nat>
  {
    if |block| >= |Trophy| && block[..|Trophy|] == Trophy then
      Some(ParseNat(LeadingDigits(block[|Trophy|..])))
    else None
  }

  /** A trophy, a number and a line break read back as that number. */
  lemma ReadRankOf(n: nat, rest: string)
    requires |rest| > 0 && rest[0] == '\n'
    ensures ReadRank(Trophy + (NatToString(n) + rest)) == Some(n)
  {
    var digits := NatToString(n);
    var block := Trophy + (digits + rest);
    assert block[..|Trophy|] == Trophy;
    assert block[|Trophy|..] == digits + rest;
    LeadingDigitsOf(digits, rest);
    ParseNatToString(n);
  }

  /** The block for position `i` is labelled with rank `i + 1`. */
  lemma TweetBlockRank(i: nat, e: ApyRecord, render: Render)
    ensures ReadRank(TweetBlock(i, e, render)) == Some(i + 1)
  {
    var body := BlockBody(e, render);
    assert body[0] == '\n';
    assert TweetBlock(i, e, render) == Trophy + (NatToString(i + 1) + body);
    ReadRankOf(i + 1, body);
  }

  /** The TVL line of a block reads "N/A" exactly when the TVL is falsy. */
  lemma TweetBlockTvl(i: nat, e: ApyRecord, render: Render)
    ensures var block := TweetBlock(i, e, render);
      |block| >= 8 && (block[|block| - 8..] == "TVL: N/A" <==> TvlFalsy(e.tvl))
  {
    var block := TweetBlock(i, e, render);
    var cell := TvlLabel(e.tvl, render);
    assert block[|block| - |cell|..] == cell;
    if !TvlFalsy(e.tvl) {
      assert block[|block| - 1] == 'M';
    }
  }

  /** A registered client; `twitter` is its `client.twitterClient`, when
      that is set. */
  datatype Client = Client(twitter: Option<string>) | Absent

  predicate HasTwitter(c: Client) { c.Client? && c.twitter.Some? }

  /** `clients.find(c => c?.client?.twitterClient)`: the account of the
      first client that has one. */
  function FindTwitter(clients: seq<Client>): (r: Option<string>)
    ensures r.None? <==> forall i :: 0 <= i < |clients| ==> !HasTwitter(clients[i])
    ensures r.Some? ==> exists i :: 0 <= i < |clients| && clients[i] == Client(r)
                          && forall j :: 0 <= j < i ==> !HasTwitter(clients[j])
  {
    if |clients| == 0 then None
    else if HasTwitter(clients[0]) then
      assert clients[0] == Client(clients[0].twitter);
      clients[0].twitter
    else
      var r := FindTwitter(clients[1..]);
      assert forall i :: 1 <= i < |clients| ==> clients[i] == clients[1..][i - 1];
      if r.Some? then
        var i :| 0 <= i < |clients[1..]| && clients[1..][i] == Client(r)
                 && forall j :: 0 <= j < i ==> !HasTwitter(clients[1..][j]);
        assert clients[i + 1] == Client(r);
        r
      else r
  }

  /** The observable steps of the handler, in order. */
  datatype PostStep = LookupClient | SendTweet(account: string, text: string)

  datatype PostOutcome = PostOutcome(steps: seq<PostStep>, ok: bool)

  /** `sendSucceeds` is whether the awaited `sendTweet` resolves (rather
      than throws). */
  function PostHandler(state: Option<State>, clients: seq<Client>, sendSucceeds: bool, render: Render): (r: PostOutcome)
    ensures (state.None? || state.value.data.None? || |state.value.data.value| == 0) ==> r == PostOutcome([], false)
    ensures FindTwitter(clients).None? ==> !r.ok && forall k :: 0 <= k < |r.steps| ==> !r.steps[k].SendTweet?
    ensures r.ok <==> state.Some? && state.value.data.Some? && |state.value.data.value| > 0
                      && FindTwitter(clients).Some? && sendSucceeds
    ensures r.ok ==> r.steps == [LookupClient, SendTweet(FindTwitter(clients).value, FormatTweet(state.value.data.value, render))]
  {
    match state
    case None => PostOutcome([], false)
    case Some(st) =>
      match st.data
      case None => PostOutcome([], false)
      case Some(data) =>
        if |data| == 0 then PostOutcome([], false)
        else
          var text := FormatTweet(data, render);
          match FindTwitter(clients)
          case None => PostOutcome([LookupClient], false)
          case Some(account) => PostOutcome([LookupClient, SendTweet(account, text)], sendSucceeds)
  }
}
