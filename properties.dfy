/** What the translation rules promise, stated over the traces of module Translate. */
module Properties {
  import opened Decimal
  import opened Rpc
  import opened Metrics
  import opened Translate
  import opened SeqFacts

  // ---------------------------------------------------------------- connections

  function Sum(s: seq<int>): int
    decreases |s|
  {
    if s == [] then 0 else Sum(s[..|s| - 1]) + s[|s| - 1]
  }

  /** Incrementing one bucket adds one to the total. */
  lemma {:induction false} SumIncrement(s: seq<int>, i: nat)
    requires i < |s|
    ensures Sum(s[i := s[i] + 1]) == Sum(s) + 1
    decreases |s|
  {
    var u := s[i := s[i] + 1];
    assert u[..|u| - 1] == if i < |s| - 1 then s[..|s| - 1][i := s[i] + 1] else s[..|s| - 1];
    if i < |s| - 1 {
      SumIncrement(s[..|s| - 1], i);
    }
  }

  lemma SumZeros(n: nat)
    ensures Sum(seq(n, _ => 0)) == 0
  {
    if n > 0 {
      assert seq(n, _ => 0)[..n - 1] == seq(n - 1, _ => 0);
      SumZeros(n - 1);
    }
  }

  /** Every connection lands in exactly one bucket: the buckets add up to the number of
      connections. */
  lemma {:induction false} PeerCountsSum(conns: seq<Connection>)
    requires TypesInRange(conns)
    ensures Sum(PeerCounts(conns)) == |conns|
    decreases |conns|
  {
    if conns == [] {
      SumZeros(NumNodeTypes);
    } else {
      var init := conns[..|conns| - 1];
      assert TypesInRange(init);
      PeerCountsSum(init);
      SumIncrement(PeerCounts(init), conns[|conns| - 1].nodeType - 1);
    }
  }

  /** Bucket i holds the number of connections whose type is i + 1. */
  lemma {:induction false} PeerCountsAt(conns: seq<Connection>, i: nat)
    requires TypesInRange(conns)
    requires i < NumNodeTypes
    ensures PeerCounts(conns)[i] == CountType(conns, i + 1)
    decreases |conns|
  {
    if conns != [] {
      var init := conns[..|conns| - 1];
      assert TypesInRange(init);
      PeerCountsAt(init, i);
      assert NodeTypes(conns) == NodeTypes(init) + [conns[|conns| - 1].nodeType];
    }
  }

  /** When get_connections answers and every type is in 1..6, exactly six samples are sent;
      sample i is labelled with the decimal of i + 1 (no two share a label) and counts the
      connections of that type; together they count every connection. */
  lemma ConnectionsOnSuccess(cc: Collector, conns: seq<Connection>)
    requires Enabled(cc.pullSwitcher, IsConn)
    requires cc.client.respond(ConnectionsRequest(cc)) == Ok(ConnectionsPayload(conns))
    requires TypesInRange(conns)
    ensures !ConnectionsTrace(cc).panicked
    ensures |ConnectionsTrace(cc).samples| == NumNodeTypes
    ensures forall i :: 0 <= i < NumNodeTypes ==>
      && ConnectionsTrace(cc).samples[i].name == cc.name + "_peers_count"
      && ConnectionsTrace(cc).samples[i].labels == [Itoa(i + 1)]
      && ConnectionsTrace(cc).samples[i].value == CountType(conns, i + 1)
    ensures forall i, j :: 0 <= i < j < NumNodeTypes ==>
      ConnectionsTrace(cc).samples[i].labels != ConnectionsTrace(cc).samples[j].labels
    ensures Sum(seq(NumNodeTypes, i requires 0 <= i < NumNodeTypes => ConnectionsTrace(cc).samples[i].value)) == |conns|
  {
    var t := ConnectionsTrace(cc);
    assert t.samples == PeerSamples(cc.name, PeerCounts(conns));
    forall i | 0 <= i < NumNodeTypes
      ensures t.samples[i].value == CountType(conns, i + 1)
    {
      PeerCountsAt(conns, i);
    }
    forall i, j | 0 <= i < j < NumNodeTypes
      ensures t.samples[i].labels != t.samples[j].labels
    {
      if Itoa(i + 1) == Itoa(j + 1) {
        ItoaInjective(i + 1, j + 1);
      }
    }
    PeerCountsSum(conns);
    assert seq(NumNodeTypes, i requires 0 <= i < NumNodeTypes => t.samples[i].value) == PeerCounts(conns);
  }

  /** A connection type outside 1..6 panics collectConnections before any sample is sent. */
  lemma ConnectionsPanic(cc: Collector, conns: seq<Connection>, k: nat)
    requires Enabled(cc.pullSwitcher, IsConn)
    requires cc.client.respond(ConnectionsRequest(cc)) == Ok(ConnectionsPayload(conns))
    requires k < |conns| && !(1 <= conns[k].nodeType <= NumNodeTypes)
    ensures ConnectionsTrace(cc).panicked && ConnectionsTrace(cc).samples == []
  {
  }

  // ---------------------------------------------------------------- blockchain state

  /** On success the group sends five unlabelled samples, first the sync scalar and then
      height, difficulty, space and total iterations. */
  lemma BlockchainStateOnSuccess(cc: Collector, bs: BlockchainState)
    requires Enabled(cc.pullSwitcher, IsState)
    requires cc.client.respond(BlockchainStateRequest(cc)) == Ok(BlockchainStatePayload(bs))
    ensures var s := BlockchainStateTrace(cc).samples;
      && |s| == 5
      && s[0] == Sample(cc.name + "_blockchain_sync_status", [], SyncStatus(bs.syncMode, bs.synced))
      && (bs.syncMode ==> s[0].value == 1)
      && s[1].value == bs.height && s[2].value == bs.difficulty
      && s[3].value == bs.space && s[4].value == bs.totalIters
  {
  }

  // ---------------------------------------------------------------- wallets

  predicate BalanceAnswered(cc: Collector, w: Wallet) {
    var r := cc.client.respond(WalletRequest(cc, GetWalletBalance, w.id));
    r.Ok? && r.payload.WalletBalancePayload?
  }

  predicate FarmedAnswered(cc: Collector, w: Wallet) {
    var r := cc.client.respond(WalletRequest(cc, GetFarmedAmount, w.id));
    r.Ok? && r.payload.FarmedAmountPayload?
  }

  /** How many samples collectWalletSync sends: none if the status query fails, one if only
      the height query fails, two otherwise. */
  function SyncAnswered(cc: Collector, w: Wallet): nat {
    var status := cc.client.respond(WalletRequest(cc, GetSyncStatus, w.id));
    var height := cc.client.respond(WalletRequest(cc, GetHeightInfo, w.id));
    if !(status.Ok? && status.payload.SyncStatusPayload?) then 0
    else if !(height.Ok? && height.payload.HeightInfoPayload?) then 1
    else 2
  }

  function BalanceFamilies(name: string): seq<string> {
    [ name + "_wallet_confirmed_balance_mojo", name + "_wallet_unconfirmed_balance_mojo",
      name + "_wallet_spendable_balance_mojo", name + "_wallet_max_send_mojo",
      name + "_wallet_pending_change_mojo" ]
  }

  function SyncFamilies(name: string): seq<string> {
    [name + "_wallet_sync_status", name + "_wallet_height"]
  }

  function FarmedFamilies(name: string): seq<string> {
    [ name + "_wallet_farmed_amount", name + "_wallet_reward_amount", name + "_wallet_fee_amount",
      name + "_wallet_last_height_farmed", name + "_wallet_pool_reward_amount" ]
  }

  /** The family names of `samples`, in order. */
  function Names(samples: seq<Sample>): (names: seq<string>)
    ensures |names| == |samples|
  {
    seq(|samples|, k requires 0 <= k < |samples| => samples[k].name)
  }

  /** The balance run of one wallet: the five balance families, or nothing. */
  lemma BalanceRun(cc: Collector, w: Wallet, on: bool)
    ensures var b := if on && BalanceAnswered(cc, w) then 5 else 0;
      Names(Gated(on, BalanceTrace(cc, w)).samples) == BalanceFamilies(cc.name)[..b]
  {
  }

  /** The sync run of one wallet: status, then height, as far as the queries answer. */
  lemma SyncRun(cc: Collector, w: Wallet, on: bool)
    ensures var n := if on then SyncAnswered(cc, w) else 0;
      Names(Gated(on, WalletSyncTrace(cc, w)).samples) == SyncFamilies(cc.name)[..n]
  {
  }

  /** The farmed run of one wallet: the five farmed families, or nothing. */
  lemma FarmedRun(cc: Collector, w: Wallet, on: bool)
    ensures var f := if on && FarmedAnswered(cc, w) then 5 else 0;
      Names(Gated(on, FarmedTrace(cc, w)).samples) == FarmedFamilies(cc.name)[..f]
  {
  }

  /** The samples of one wallet come in three runs: the five balance gauges (when balance
      is on and its query answers), then the sync status and height (when sync is on, as
      far as its queries answer), then the five farmed gauges (when farmed amount is on
      and its query answers). */
  lemma WalletLayout(cc: Collector, w: Wallet)
    ensures
      var sw := cc.pullSwitcher;
      var b := if Enabled(sw, IsWalletBalance) && BalanceAnswered(cc, w) then 5 else 0;
      var s := if Enabled(sw, IsWalletSync) then SyncAnswered(cc, w) else 0;
      var f := if Enabled(sw, IsFarmed) && FarmedAnswered(cc, w) then 5 else 0;
      Names(WalletTrace(cc, w).samples)
        == BalanceFamilies(cc.name)[..b] + SyncFamilies(cc.name)[..s] + FarmedFamilies(cc.name)[..f]
  {
    var sw := cc.pullSwitcher;
    var rw := ResolvedWallet(cc, w);
    var pk := Trace([WalletRequest(cc, GetPublicKeys, w.id)], [], false);
    var B := Gated(Enabled(sw, IsWalletBalance), BalanceTrace(cc, rw));
    var S := Gated(Enabled(sw, IsWalletSync), WalletSyncTrace(cc, rw));
    var F := Gated(Enabled(sw, IsFarmed), FarmedTrace(cc, rw));
    assert WalletTrace(cc, w) == Then(pk, Then(Then(B, S), F));
    assert WalletTrace(cc, w).samples == B.samples + S.samples + F.samples;
    BalanceRun(cc, rw, Enabled(sw, IsWalletBalance));
    SyncRun(cc, rw, Enabled(sw, IsWalletSync));
    FarmedRun(cc, rw, Enabled(sw, IsFarmed));
    assert BalanceAnswered(cc, rw) == BalanceAnswered(cc, w);
    assert SyncAnswered(cc, rw) == SyncAnswered(cc, w);
    assert FarmedAnswered(cc, rw) == FarmedAnswered(cc, w);
    NamesAppend(B.samples, S.samples);
    NamesAppend(B.samples + S.samples, F.samples);
  }

  lemma NamesAppend(x: seq<Sample>, y: seq<Sample>)
    ensures Names(x + y) == Names(x) + Names(y)
  {
  }

  /** If get_sync_status answers and get_height_info fails, the wallet's only sync sample
      is its status. */
  lemma SyncStatusWithoutHeight(cc: Collector, w: Wallet, syncing: bool, synced: bool)
    requires cc.client.respond(WalletRequest(cc, GetSyncStatus, w.id)) == Ok(SyncStatusPayload(syncing, synced))
    requires cc.client.respond(WalletRequest(cc, GetHeightInfo, w.id)).Failed?
    ensures WalletSyncTrace(cc, w).samples
      == [Sample(cc.name + "_wallet_sync_status", [w.stringId, w.publicKey], SyncStatus(syncing, synced))]
  {
  }

  /** If get_sync_status fails, get_height_info is not even asked. */
  lemma SyncStatusFailure(cc: Collector, w: Wallet)
    requires cc.client.respond(WalletRequest(cc, GetSyncStatus, w.id)).Failed?
    ensures WalletSyncTrace(cc, w) == Trace([WalletRequest(cc, GetSyncStatus, w.id)], [], false)
  {
  }

  /** A failed get_wallets ends the group after that one request. */
  lemma WalletsFailure(cc: Collector)
    requires WalletGroupEnabled(cc.pullSwitcher)
    requires cc.client.respond(WalletsRequest(cc)).Failed?
    ensures WalletsTrace(cc).samples == []
    ensures WalletsTrace(cc).requests == [WalletsRequest(cc)]
  {
  }

  /** Over the wallet loop: one public-key request per wallet at least, at most twelve
      samples per wallet, and every sample labelled with the id and fingerprint of one of
      the listed wallets. */
  lemma {:induction false} WalletListLabels(cc: Collector, ws: seq<Wallet>)
    ensures |WalletListTrace(cc, ws).requests| >= |ws|
    ensures |WalletListTrace(cc, ws).samples| <= 12 * |ws|
    ensures forall s :: s in WalletListTrace(cc, ws).samples ==>
      exists k :: 0 <= k < |ws| && s.labels == [Itoa(ws[k].id), WalletPublicKey(cc, ws[k])]
    decreases |ws|
  {
    if ws != [] {
      var init := ws[..|ws| - 1];
      var last := ws[|ws| - 1];
      WalletListLabels(cc, init);
      var t := WalletListTrace(cc, ws);
      assert t.samples == WalletListTrace(cc, init).samples + WalletTrace(cc, last).samples;
      forall s | s in t.samples
        ensures exists k :: 0 <= k < |ws| && s.labels == [Itoa(ws[k].id), WalletPublicKey(cc, ws[k])]
      {
        if s in WalletListTrace(cc, init).samples {
          var k :| 0 <= k < |init| && s.labels == [Itoa(init[k].id), WalletPublicKey(cc, init[k])];
          assert ws[k] == init[k];
        } else {
          var j :| 0 <= j < |WalletTrace(cc, last).samples| && WalletTrace(cc, last).samples[j] == s;
          assert s.labels == [Itoa(ws[|ws| - 1].id), WalletPublicKey(cc, ws[|ws| - 1])];
        }
      }
    }
  }

  /** Two wallets with different ids never share a label set. */
  lemma WalletLabelsDistinct(cc: Collector, v: Wallet, w: Wallet)
    requires v.id != w.id
    ensures [Itoa(v.id), WalletPublicKey(cc, v)] != [Itoa(w.id), WalletPublicKey(cc, w)]
  {
    if Itoa(v.id) == Itoa(w.id) {
      ItoaInjective(v.id, w.id);
    }
  }

  // ---------------------------------------------------------------- pool state

  /** Sample k of the pool loop is gauge k % 4 of entry k / 4: four per entry, in entry
      order. */
  lemma {:induction false} PoolSamplesAt(name: string, entries: seq<PoolStateEntry>)
    ensures |PoolSamples(name, entries)| == 4 * |entries|
    ensures forall k :: 0 <= k < |PoolSamples(name, entries)| ==>
      PoolSamples(name, entries)[k] == PoolSample(name, entries[k / 4], k % 4)
    decreases |entries|
  {
    if entries != [] {
      PoolSamplesAt(name, entries[..|entries| - 1]);
      forall k | 0 <= k < 4 * |entries|
        ensures PoolSamples(name, entries)[k] == PoolSample(name, entries[k / 4], k % 4)
      {
        PoolSampleOneMore(name, entries, k);
      }
    }
  }

  /** Sample k of the pool loop, from sample k of the loop without the last entry. */
  lemma PoolSampleOneMore(name: string, entries: seq<PoolStateEntry>, k: nat)
    requires entries != [] && k < 4 * |entries|
    requires var init := entries[..|entries| - 1];
      k < 4 * |init| ==> PoolSamples(name, init)[k] == PoolSample(name, init[k / 4], k % 4)
    ensures PoolSamples(name, entries)[k] == PoolSample(name, entries[k / 4], k % 4)
  {
    var init := entries[..|entries| - 1];
    var last := entries[|entries| - 1];
    Quarter(k, |init|);
    AppendAt(PoolSamples(name, init), PoolEntrySamples(name, last), k);
    if k < 4 * |init| {
      assert entries[k / 4] == init[k / 4];
    } else {
      assert entries[k / 4] == last;
    }
  }

  /** Where position k falls among blocks of four. */
  lemma Quarter(k: nat, n: nat)
    ensures k < 4 * n ==> k / 4 < n
    ensures 4 * n <= k < 4 * n + 4 ==> k / 4 == n && k % 4 == k - 4 * n
  {
  }

  /** The two 24h gauges count the records of each list, whatever they hold. */
  lemma PoolCountsIgnoreContents(name: string, p: PoolStateEntry, q: PoolStateEntry)
    requires p.launcherId == q.launcherId && p.poolUrl == q.poolUrl
    requires p.currentDifficulty == q.currentDifficulty && p.currentPoints == q.currentPoints
    requires |p.pointsAcknowledged24h| == |q.pointsAcknowledged24h|
    requires |p.pointsFound24h| == |q.pointsFound24h|
    ensures PoolEntrySamples(name, p) == PoolEntrySamples(name, q)
    ensures PoolEntrySamples(name, p)[2].value == |p.pointsAcknowledged24h|
    ensures PoolEntrySamples(name, p)[3].value == |p.pointsFound24h|
  {
  }

  // ---------------------------------------------------------------- plots

  /** On success the plots group sends the three list lengths, unlabelled. */
  lemma PlotsOnSuccess(cc: Collector, files: PlotFiles)
    requires Enabled(cc.pullSwitcher, IsPlots)
    requires cc.client.respond(PlotsRequest(cc)) == Ok(PlotsPayload(files))
    ensures PlotsTrace(cc).samples == [
      Sample(cc.name + "_plots_failed_to_open", [], |files.failedToOpen|),
      Sample(cc.name + "_plots_not_found", [], |files.notFound|),
      Sample(cc.name + "_plots", [], |files.plots|)]
  {
  }

  // ---------------------------------------------------------------- one coin

  /** A coin whose seven known switches are all off or absent posts nothing and sends
      nothing, whatever other keys its map holds. */
  lemma AllSwitchesOffSilent(cc: Collector)
    requires !Enabled(cc.pullSwitcher, IsConn) && !Enabled(cc.pullSwitcher, IsState)
    requires !Enabled(cc.pullSwitcher, IsWalletSync) && !Enabled(cc.pullSwitcher, IsWalletBalance)
    requires !Enabled(cc.pullSwitcher, IsFarmed) && !Enabled(cc.pullSwitcher, IsPlots)
    requires !Enabled(cc.pullSwitcher, IsPool)
    ensures ConnectionsTrace(cc) == Silent && BlockchainStateTrace(cc) == Silent
    ensures WalletsTrace(cc) == Silent && PoolTrace(cc) == Silent && PlotsTrace(cc) == Silent
    ensures CoinRequests(cc) == multiset{}
    ensures CoinSamples(cc) == multiset{}
  {
  }

  /** A request for one of the two full-node methods of the coin. */
  predicate FullNodeUrl(cc: Collector, url: string) {
    url == cc.baseURL + "/" + GetConnections || url == cc.baseURL + "/" + GetBlockchainState
  }

  /** Two strings with different last `n` characters stay different after any prefix. */
  lemma EndingsDiffer(a: string, s: string, b: string, t: string, n: nat)
    requires n <= |s| && n <= |t|
    requires s[|s| - n..] != t[|t| - n..]
    ensures a + s != b + t
  {
    var u, v := a + s, b + t;
    assert u[|u| - n..] == s[|s| - n..];
    assert v[|v| - n..] == t[|t| - n..];
  }

  /** No URL of a wallet, farmer or harvester method is a full-node URL, whatever the
      configured addresses. */
  lemma NotFullNode(cc: Collector, base: string, endpoint: string)
    requires endpoint in [GetWallets, GetPublicKeys, GetWalletBalance, GetSyncStatus,
                          GetHeightInfo, GetFarmedAmount, GetPoolState, GetPlots]
    ensures !FullNodeUrl(cc, base + "/" + endpoint)
  {
    var conn := GetConnections;
    var state := GetBlockchainState;
    EndingsDiffer(base + "/", endpoint, cc.baseURL + "/", conn, 7);
    EndingsDiffer(base + "/", endpoint, cc.baseURL + "/", state, 7);
  }

  /** `other` answers like the coin's own client except, possibly, on the full-node URLs. */
  ghost predicate AgreeOffFullNode(cc: Collector, other: Client) {
    forall req: Request :: !FullNodeUrl(cc, req.url) ==> other.respond(req) == cc.client.respond(req)
  }

  lemma {:induction false} WalletTraceIsolated(cc: Collector, other: Client, w: Wallet)
    requires AgreeOffFullNode(cc, other)
    ensures WalletTrace(cc.(client := other), w) == WalletTrace(cc, w)
  {
    var oc := cc.(client := other);
    forall e | e in [GetPublicKeys, GetWalletBalance, GetSyncStatus, GetHeightInfo, GetFarmedAmount]
      ensures other.respond(WalletRequest(cc, e, w.id)) == cc.client.respond(WalletRequest(cc, e, w.id))
    {
      NotFullNode(cc, cc.walletURL, e);
    }
    assert WalletPublicKey(oc, w) == WalletPublicKey(cc, w);
    var rw := ResolvedWallet(cc, w);
    assert ResolvedWallet(oc, w) == rw;
    assert BalanceTrace(oc, rw) == BalanceTrace(cc, rw);
    assert WalletSyncTrace(oc, rw) == WalletSyncTrace(cc, rw);
    assert FarmedTrace(oc, rw) == FarmedTrace(cc, rw);
  }

  lemma {:induction false} WalletListIsolated(cc: Collector, other: Client, ws: seq<Wallet>)
    requires AgreeOffFullNode(cc, other)
    ensures WalletListTrace(cc.(client := other), ws) == WalletListTrace(cc, ws)
    decreases |ws|
  {
    if ws != [] {
      WalletListIsolated(cc, other, ws[..|ws| - 1]);
      WalletTraceIsolated(cc, other, ws[|ws| - 1]);
    }
  }

  /** When the full node is down, the coin's connections and blockchain-state groups send
      nothing, while its wallet, pool and plots groups post and send exactly what they would
      with the full node up. */
  lemma FullNodeOutage(cc: Collector, down: Client)
    requires AgreeOffFullNode(cc, down)
    requires forall req: Request :: FullNodeUrl(cc, req.url) ==> down.respond(req).Failed?
    ensures ConnectionsTrace(cc.(client := down)).samples == []
    ensures BlockchainStateTrace(cc.(client := down)).samples == []
    ensures WalletsTrace(cc.(client := down)) == WalletsTrace(cc)
    ensures PoolTrace(cc.(client := down)) == PoolTrace(cc)
    ensures PlotsTrace(cc.(client := down)) == PlotsTrace(cc)
  {
    var dc := cc.(client := down);
    assert FullNodeUrl(cc, ConnectionsRequest(dc).url);
    assert FullNodeUrl(cc, BlockchainStateRequest(dc).url);
    NotFullNode(cc, cc.walletURL, GetWallets);
    NotFullNode(cc, cc.farmerURL, GetPoolState);
    NotFullNode(cc, cc.harvesterURL, GetPlots);
    match cc.client.respond(WalletsRequest(cc))
    case Ok(WalletsPayload(ws)) => WalletListIsolated(cc, down, ws);
    case _ =>
  }
}
