/** The scrape-time translation rules of one coin: for each metric group, which requests
    are posted, in which order, and which samples are emitted, as a function of the coin's
    switches and of the replies its client gives. The methods in module Collect perform the
    same steps one at a time and are proved to produce exactly these traces. */
module Translate {
  import opened Decimal
  import opened Rpc
  import opened Metrics

  /** Peer node types are 1..NumNodeTypes: full node, harvester, farmer, timelord,
      introducer, wallet. */
  const NumNodeTypes: nat := 6

  // Keys of a coin's pull-switcher map.
  const IsConn: string := "conn"
  const IsState: string := "state"
  const IsWalletSync: string := "wallet-sync"
  const IsWalletBalance: string := "wallet-balance"
  const IsFarmed: string := "farmed-amount"
  const IsPlots: string := "plots"
  const IsPool: string := "pool"

  // RPC methods.
  const GetConnections: string := "get_connections"
  const GetBlockchainState: string := "get_blockchain_state"
  const GetWallets: string := "get_wallets"
  const GetPublicKeys: string := "get_public_keys"
  const GetWalletBalance: string := "get_wallet_balance"
  const GetSyncStatus: string := "get_sync_status"
  const GetHeightInfo: string := "get_height_info"
  const GetFarmedAmount: string := "get_farmed_amount"
  const GetPoolState: string := "get_pool_state"
  const GetPlots: string := "get_plots"

  /** One configured coin: its name (the metric-name prefix), its client, the four
      service addresses and its switches. */
  datatype Collector = Collector(
    name: string,
    client: Client,
    baseURL: string,
    walletURL: string,
    farmerURL: string,
    harvesterURL: string,
    pullSwitcher: map<string, bool>)

  /** What one task does in a scrape: the requests it posts, the samples it sends, and
      whether it panicked. */
  datatype Trace = Trace(requests: seq<Request>, samples: seq<Sample>, panicked: bool)

  const Silent: Trace := Trace([], [], false)

  /** `a` followed by `b`. */
  function Then(a: Trace, b: Trace): Trace {
    Trace(a.requests + b.requests, a.samples + b.samples, a.panicked || b.panicked)
  }

  /** A Go map lookup of a missing key yields false: a switch that is absent is off. */
  function Enabled(switches: map<string, bool>, key: string): (on: bool)
    ensures on ==> key in switches
    ensures key in switches ==> on == switches[key]
  {
    if key in switches then switches[key] else false
  }

  /** The wallet group runs when any of its three switches is on. */
  predicate WalletGroupEnabled(switches: map<string, bool>) {
    Enabled(switches, IsWalletBalance) || Enabled(switches, IsWalletSync) || Enabled(switches, IsFarmed)
  }

  /** Every sample in `samples` belongs to a family of the coin `name`: its family name
      starts with the coin's name. */
  predicate Prefixed(name: string, samples: seq<Sample>) {
    forall s :: s in samples ==> name <= s.name
  }

  lemma PrefixedAppend(name: string, a: seq<Sample>, b: seq<Sample>)
    requires Prefixed(name, a) && Prefixed(name, b)
    ensures Prefixed(name, a + b)
  {
  }

  // ---------------------------------------------------------------- connections

  predicate TypesInRange(conns: seq<Connection>) {
    forall k :: 0 <= k < |conns| ==> 1 <= conns[k].nodeType <= NumNodeTypes
  }

  /** The `peers` buckets after the increments for `conns`, in order: bucket t - 1 counts
      type t. */
  function PeerCounts(conns: seq<Connection>): (counts: seq<int>)
    requires TypesInRange(conns)
    ensures |counts| == NumNodeTypes
    ensures forall t :: 0 <= t < NumNodeTypes ==> 0 <= counts[t] <= |conns|
  {
    if conns == [] then seq(NumNodeTypes, _ => 0)
    else
      var prior := PeerCounts(conns[..|conns| - 1]);
      var t := conns[|conns| - 1].nodeType - 1;
      prior[t := prior[t] + 1]
  }

  /** The node types of `conns`, in order. */
  function NodeTypes(conns: seq<Connection>): (types: seq<int>)
    ensures |types| == |conns|
    ensures forall k :: 0 <= k < |conns| ==> types[k] == conns[k].nodeType
  {
    seq(|conns|, k requires 0 <= k < |conns| => conns[k].nodeType)
  }

  /** How many of `conns` have type `nodeType`. */
  function CountType(conns: seq<Connection>, nodeType: int): nat {
    multiset(NodeTypes(conns))[nodeType]
  }

  /** Distinct type numbers render as distinct labels. */
  lemma TypeLabelsDistinct()
    ensures forall i, j :: 0 < i < j ==> Itoa(i) != Itoa(j)
  {
    forall i, j | 0 < i < j
      ensures Itoa(i) != Itoa(j)
    {
      if Itoa(i) == Itoa(j) {
        ItoaInjective(i, j);
      }
    }
  }

  /** One `<coin>_peers_count{type}` sample per bucket, labelled with the type number, so
      that no two buckets share a label set. */
  function PeerSamples(name: string, counts: seq<int>): (samples: seq<Sample>)
    ensures |samples| == |counts|
    ensures forall i :: 0 <= i < |counts| ==> samples[i].labels == [Itoa(i + 1)] && samples[i].value == counts[i]
    ensures forall i, j :: 0 <= i < j < |counts| ==> samples[i].labels != samples[j].labels
    ensures Prefixed(name, samples)
  {
    TypeLabelsDistinct();
    seq(|counts|, i requires 0 <= i < |counts| => Sample(name + "_peers_count", [Itoa(i + 1)], counts[i]))
  }

  function ConnectionsRequest(cc: Collector): Request {
    PostRequest(cc.baseURL, GetConnections, "")
  }

  /** collectConnections: one query; a type outside 1..6 makes the increment panic before
      anything is sent. */
  function ConnectionsTrace(cc: Collector): (t: Trace)
    ensures !Enabled(cc.pullSwitcher, IsConn) ==> t == Silent
    ensures Enabled(cc.pullSwitcher, IsConn) ==> t.requests == [ConnectionsRequest(cc)]
    ensures t.panicked ==> t.samples == []
    ensures |t.samples| == 0 || |t.samples| == NumNodeTypes
    ensures Prefixed(cc.name, t.samples)
  {
    if !Enabled(cc.pullSwitcher, IsConn) then Silent
    else
      var req := ConnectionsRequest(cc);
      match cc.client.respond(req)
      case Ok(ConnectionsPayload(conns)) =>
        if TypesInRange(conns) then Trace([req], PeerSamples(cc.name, PeerCounts(conns)), false)
        else Trace([req], [], true)
      case _ => Trace([req], [], false)
  }

  // ---------------------------------------------------------------- blockchain state

  /** The tri-state sync scalar: syncing wins over synced. */
  function SyncStatus(syncing: bool, synced: bool): (status: int)
    ensures status == 1 <==> syncing
    ensures status == 2 <==> !syncing && synced
    ensures status == 0 <==> !syncing && !synced
  {
    if syncing then 1 else if synced then 2 else 0
  }

  /** The five unlabelled blockchain gauges. */
  function BlockchainSamples(name: string, bs: BlockchainState): (samples: seq<Sample>)
    ensures |samples| == 5
    ensures forall k :: 0 <= k < 5 ==> samples[k].labels == []
    ensures && samples[0].value == SyncStatus(bs.syncMode, bs.synced) && samples[1].value == bs.height
            && samples[2].value == bs.difficulty && samples[3].value == bs.space
            && samples[4].value == bs.totalIters
    ensures Prefixed(name, samples)
  {
    [ Sample(name + "_blockchain_sync_status", [], SyncStatus(bs.syncMode, bs.synced)),
      Sample(name + "_blockchain_height", [], bs.height),
      Sample(name + "_blockchain_difficulty", [], bs.difficulty),
      Sample(name + "_blockchain_space_bytes", [], bs.space),
      Sample(name + "_blockchain_total_iters", [], bs.totalIters) ]
  }

  function BlockchainStateRequest(cc: Collector): Request {
    PostRequest(cc.baseURL, GetBlockchainState, "")
  }

  /** collectBlockchainState. */
  function BlockchainStateTrace(cc: Collector): (t: Trace)
    ensures !Enabled(cc.pullSwitcher, IsState) ==> t == Silent
    ensures Enabled(cc.pullSwitcher, IsState) ==> t.requests == [BlockchainStateRequest(cc)]
    ensures !t.panicked
    ensures |t.samples| == 0 || |t.samples| == 5
    ensures forall k :: 0 <= k < |t.samples| ==> t.samples[k].labels == []
    ensures Prefixed(cc.name, t.samples)
  {
    if !Enabled(cc.pullSwitcher, IsState) then Silent
    else
      var req := BlockchainStateRequest(cc);
      match cc.client.respond(req)
      case Ok(BlockchainStatePayload(bs)) => Trace([req], BlockchainSamples(cc.name, bs), false)
      case _ => Trace([req], [], false)
  }

  // ---------------------------------------------------------------- wallets

  /** The `{"wallet_id":<id>}` body of the per-wallet queries. */
  function WalletQuery(id: int): (q: string)
    ensures q != ""
  {
    "{\"wallet_id\":" + Itoa(id) + "}"
  }

  function WalletRequest(cc: Collector, endpoint: string, id: int): Request {
    PostRequest(cc.walletURL, endpoint, WalletQuery(id))
  }

  /** The fingerprint label chosen from a get_public_keys reply: empty when the query
      failed or returned no keys, otherwise the first key; later keys are ignored. */
  function Fingerprint(reply: Reply): (fp: string)
    ensures fp == "" <==> !(reply.Ok? && reply.payload.PublicKeysPayload? && |reply.payload.fingerprints| > 0)
    ensures fp != "" ==> fp == Itoa(reply.payload.fingerprints[0])
  {
    match reply
    case Ok(PublicKeysPayload(fps)) => if |fps| < 1 then "" else Itoa(fps[0])
    case _ => ""
  }

  /** getWalletPublicKey: the wallet's fingerprint label, empty when get_public_keys fails
      or lists no key. */
  function WalletPublicKey(cc: Collector, w: Wallet): (fp: string)
    ensures var r := cc.client.respond(WalletRequest(cc, GetPublicKeys, w.id));
      && (fp == "" <==> !(r.Ok? && r.payload.PublicKeysPayload? && |r.payload.fingerprints| > 0))
      && (fp != "" ==> fp == Itoa(r.payload.fingerprints[0]))
  {
    Fingerprint(cc.client.respond(WalletRequest(cc, GetPublicKeys, w.id)))
  }

  /** The wallet as the loop body sees it after filling in its label values. */
  function ResolvedWallet(cc: Collector, w: Wallet): (rw: Wallet)
    ensures rw.id == w.id && rw.stringId == Itoa(w.id) && rw.publicKey == WalletPublicKey(cc, w)
  {
    w.(stringId := Itoa(w.id), publicKey := WalletPublicKey(cc, w))
  }

  /** The five balance gauges of one wallet, in the order of the reply's fields. */
  function BalanceSamples(name: string, w: Wallet, wb: WalletBalance): (samples: seq<Sample>)
    ensures |samples| == 5
    ensures forall k :: 0 <= k < 5 ==> samples[k].labels == [w.stringId, w.publicKey]
    ensures && samples[0].value == wb.confirmed && samples[1].value == wb.unconfirmed
            && samples[2].value == wb.spendable && samples[3].value == wb.maxSend
            && samples[4].value == wb.pendingChange
    ensures Prefixed(name, samples)
  {
    var labels := [w.stringId, w.publicKey];
    [ Sample(name + "_wallet_confirmed_balance_mojo", labels, wb.confirmed),
      Sample(name + "_wallet_unconfirmed_balance_mojo", labels, wb.unconfirmed),
      Sample(name + "_wallet_spendable_balance_mojo", labels, wb.spendable),
      Sample(name + "_wallet_max_send_mojo", labels, wb.maxSend),
      Sample(name + "_wallet_pending_change_mojo", labels, wb.pendingChange) ]
  }

  /** collectWalletBalance. */
  function BalanceTrace(cc: Collector, w: Wallet): (t: Trace)
    ensures t.requests == [WalletRequest(cc, GetWalletBalance, w.id)]
    ensures !t.panicked
    ensures |t.samples| == 0 || |t.samples| == 5
    ensures forall k :: 0 <= k < |t.samples| ==> t.samples[k].labels == [w.stringId, w.publicKey]
    ensures Prefixed(cc.name, t.samples)
  {
    var req := WalletRequest(cc, GetWalletBalance, w.id);
    match cc.client.respond(req)
    case Ok(WalletBalancePayload(wb)) => Trace([req], BalanceSamples(cc.name, w, wb), false)
    case _ => Trace([req], [], false)
  }

  /** collectWalletSync: the sync status is sent before the height is asked for, so a
      failed height query leaves the status sample in place. */
  function WalletSyncTrace(cc: Collector, w: Wallet): (t: Trace)
    ensures 1 <= |t.requests| <= 2
    ensures t.requests[0] == WalletRequest(cc, GetSyncStatus, w.id)
    ensures |t.requests| == 2 ==> t.requests[1] == WalletRequest(cc, GetHeightInfo, w.id)
    ensures !t.panicked
    ensures |t.samples| <= |t.requests|
    ensures forall k :: 0 <= k < |t.samples| ==> t.samples[k].labels == [w.stringId, w.publicKey]
    ensures Prefixed(cc.name, t.samples)
  {
    var labels := [w.stringId, w.publicKey];
    var statusReq := WalletRequest(cc, GetSyncStatus, w.id);
    match cc.client.respond(statusReq)
    case Ok(SyncStatusPayload(syncing, synced)) =>
      var status := Sample(cc.name + "_wallet_sync_status", labels, SyncStatus(syncing, synced));
      var heightReq := WalletRequest(cc, GetHeightInfo, w.id);
      (match cc.client.respond(heightReq)
       case Ok(HeightInfoPayload(h)) =>
         Trace([statusReq, heightReq], [status, Sample(cc.name + "_wallet_height", labels, h)], false)
       case _ => Trace([statusReq, heightReq], [status], false))
    case _ => Trace([statusReq], [], false)
  }

  /** The five farming gauges of one wallet, in the order of the reply's fields. */
  function FarmedSamples(name: string, w: Wallet, fa: FarmedAmount): (samples: seq<Sample>)
    ensures |samples| == 5
    ensures forall k :: 0 <= k < 5 ==> samples[k].labels == [w.stringId, w.publicKey]
    ensures && samples[0].value == fa.farmed && samples[1].value == fa.reward
            && samples[2].value == fa.fee && samples[3].value == fa.lastHeightFarmed
            && samples[4].value == fa.poolReward
    ensures Prefixed(name, samples)
  {
    var labels := [w.stringId, w.publicKey];
    [ Sample(name + "_wallet_farmed_amount", labels, fa.farmed),
      Sample(name + "_wallet_reward_amount", labels, fa.reward),
      Sample(name + "_wallet_fee_amount", labels, fa.fee),
      Sample(name + "_wallet_last_height_farmed", labels, fa.lastHeightFarmed),
      Sample(name + "_wallet_pool_reward_amount", labels, fa.poolReward) ]
  }

  /** collectFarmedAmount. */
  function FarmedTrace(cc: Collector, w: Wallet): (t: Trace)
    ensures t.requests == [WalletRequest(cc, GetFarmedAmount, w.id)]
    ensures !t.panicked
    ensures |t.samples| == 0 || |t.samples| == 5
    ensures forall k :: 0 <= k < |t.samples| ==> t.samples[k].labels == [w.stringId, w.publicKey]
    ensures Prefixed(cc.name, t.samples)
  {
    var req := WalletRequest(cc, GetFarmedAmount, w.id);
    match cc.client.respond(req)
    case Ok(FarmedAmountPayload(fa)) => Trace([req], FarmedSamples(cc.name, w, fa), false)
    case _ => Trace([req], [], false)
  }

  function Gated(on: bool, t: Trace): Trace {
    if on then t else Silent
  }

  /** The three runs of one wallet after its fingerprint is resolved: balance, sync and
      farmed amount, each under its own switch. */
  function WalletRuns(cc: Collector, rw: Wallet): (t: Trace)
    ensures !t.panicked
    ensures |t.samples| <= 12
    ensures forall k :: 0 <= k < |t.samples| ==> t.samples[k].labels == [rw.stringId, rw.publicKey]
    ensures Prefixed(cc.name, t.samples)
  {
    var sw := cc.pullSwitcher;
    var balance := Gated(Enabled(sw, IsWalletBalance), BalanceTrace(cc, rw));
    var sync := Gated(Enabled(sw, IsWalletSync), WalletSyncTrace(cc, rw));
    var farmed := Gated(Enabled(sw, IsFarmed), FarmedTrace(cc, rw));
    PrefixedAppend(cc.name, balance.samples, sync.samples);
    PrefixedAppend(cc.name, balance.samples + sync.samples, farmed.samples);
    Then(Then(balance, sync), farmed)
  }

  /** One iteration of the wallet loop: resolve the fingerprint, then the three runs. */
  function WalletTrace(cc: Collector, w: Wallet): (t: Trace)
    ensures |t.requests| >= 1 && t.requests[0] == WalletRequest(cc, GetPublicKeys, w.id)
    ensures !t.panicked
    ensures |t.samples| <= 12
    ensures forall k :: 0 <= k < |t.samples| ==> t.samples[k].labels == [Itoa(w.id), WalletPublicKey(cc, w)]
    ensures Prefixed(cc.name, t.samples)
  {
    Then(Trace([WalletRequest(cc, GetPublicKeys, w.id)], [], false), WalletRuns(cc, ResolvedWallet(cc, w)))
  }

  /** The wallet loop over `ws`, in order. */
  function WalletListTrace(cc: Collector, ws: seq<Wallet>): (t: Trace)
    ensures !t.panicked
    ensures Prefixed(cc.name, t.samples)
    decreases |ws|
  {
    if ws == [] then Silent
    else Then(WalletListTrace(cc, ws[..|ws| - 1]), WalletTrace(cc, ws[|ws| - 1]))
  }

  function WalletsRequest(cc: Collector): Request {
    PostRequest(cc.walletURL, GetWallets, "")
  }

  /** collectWallets. */
  function WalletsTrace(cc: Collector): (t: Trace)
    ensures !WalletGroupEnabled(cc.pullSwitcher) ==> t == Silent
    ensures WalletGroupEnabled(cc.pullSwitcher) ==> |t.requests| >= 1 && t.requests[0] == WalletsRequest(cc)
    ensures !t.panicked
    ensures Prefixed(cc.name, t.samples)
  {
    if !WalletGroupEnabled(cc.pullSwitcher) then Silent
    else
      var req := WalletsRequest(cc);
      match cc.client.respond(req)
      case Ok(WalletsPayload(ws)) => Then(Trace([req], [], false), WalletListTrace(cc, ws))
      case _ => Trace([req], [], false)
  }

  // ---------------------------------------------------------------- pool state

  /** The value of the j-th pool gauge of an entry: difficulty, points, then the number of
      acknowledged and of found records in the last 24h. */
  function PoolValue(p: PoolStateEntry, j: nat): int
    requires j < 4
  {
    if j == 0 then p.currentDifficulty
    else if j == 1 then p.currentPoints
    else if j == 2 then |p.pointsAcknowledged24h|
    else |p.pointsFound24h|
  }

  function PoolSuffix(j: nat): string
    requires j < 4
  {
    if j == 0 then "_pool_current_difficulty"
    else if j == 1 then "_pool_current_points"
    else if j == 2 then "_pool_points_acknowledged_24h"
    else "_pool_points_found_24h"
  }

  function PoolSample(name: string, p: PoolStateEntry, j: nat): (s: Sample)
    requires j < 4
    ensures s.labels == [p.launcherId, p.poolUrl]
    ensures name <= s.name
  {
    Sample(name + PoolSuffix(j), [p.launcherId, p.poolUrl], PoolValue(p, j))
  }

  /** The four samples of one pool entry. */
  function PoolEntrySamples(name: string, p: PoolStateEntry): (samples: seq<Sample>)
    ensures |samples| == 4
  {
    [PoolSample(name, p, 0), PoolSample(name, p, 1), PoolSample(name, p, 2), PoolSample(name, p, 3)]
  }

  /** The pool loop over `entries`, in order: four samples per entry. */
  function PoolSamples(name: string, entries: seq<PoolStateEntry>): (samples: seq<Sample>)
    ensures |samples| == 4 * |entries|
    decreases |entries|
  {
    if entries == [] then []
    else PoolSamples(name, entries[..|entries| - 1]) + PoolEntrySamples(name, entries[|entries| - 1])
  }

  lemma {:induction false} PoolSamplesPrefixed(name: string, entries: seq<PoolStateEntry>)
    ensures Prefixed(name, PoolSamples(name, entries))
    decreases |entries|
  {
    if entries != [] {
      PoolSamplesPrefixed(name, entries[..|entries| - 1]);
      PrefixedAppend(name, PoolSamples(name, entries[..|entries| - 1]), PoolEntrySamples(name, entries[|entries| - 1]));
    }
  }

  function PoolStateRequest(cc: Collector): Request {
    PostRequest(cc.farmerURL, GetPoolState, "")
  }

  /** collectPoolState. */
  function PoolTrace(cc: Collector): (t: Trace)
    ensures !Enabled(cc.pullSwitcher, IsPool) ==> t == Silent
    ensures Enabled(cc.pullSwitcher, IsPool) ==> t.requests == [PoolStateRequest(cc)]
    ensures !t.panicked
    ensures Prefixed(cc.name, t.samples)
  {
    if !Enabled(cc.pullSwitcher, IsPool) then Silent
    else
      var req := PoolStateRequest(cc);
      match cc.client.respond(req)
      case Ok(PoolStatePayload(entries)) =>
        PoolSamplesPrefixed(cc.name, entries);
        Trace([req], PoolSamples(cc.name, entries), false)
      case _ => Trace([req], [], false)
  }

  // ---------------------------------------------------------------- plots

  /** The three unlabelled plot counts. */
  function PlotSamples(name: string, files: PlotFiles): (samples: seq<Sample>)
    ensures |samples| == 3
    ensures Prefixed(name, samples)
  {
    [ Sample(name + "_plots_failed_to_open", [], |files.failedToOpen|),
      Sample(name + "_plots_not_found", [], |files.notFound|),
      Sample(name + "_plots", [], |files.plots|) ]
  }

  function PlotsRequest(cc: Collector): Request {
    PostRequest(cc.harvesterURL, GetPlots, "")
  }

  /** collectPlots. */
  function PlotsTrace(cc: Collector): (t: Trace)
    ensures !Enabled(cc.pullSwitcher, IsPlots) ==> t == Silent
    ensures Enabled(cc.pullSwitcher, IsPlots) ==> t.requests == [PlotsRequest(cc)]
    ensures !t.panicked
    ensures |t.samples| == 0 || |t.samples| == 3
    ensures forall k :: 0 <= k < |t.samples| ==> t.samples[k].labels == []
    ensures Prefixed(cc.name, t.samples)
  {
    if !Enabled(cc.pullSwitcher, IsPlots) then Silent
    else
      var req := PlotsRequest(cc);
      match cc.client.respond(req)
      case Ok(PlotsPayload(files)) => Trace([req], PlotSamples(cc.name, files), false)
      case _ => Trace([req], [], false)
  }

  // ---------------------------------------------------------------- one coin

  /** The requests of the five tasks of one coin, taken as a bag (the collectors run
      concurrently, so no order among them is promised). Every enabled task posts its first
      query. */
  function CoinRequests(cc: Collector): (q: multiset<Request>)
    ensures Enabled(cc.pullSwitcher, IsConn) ==> ConnectionsRequest(cc) in q
    ensures Enabled(cc.pullSwitcher, IsState) ==> BlockchainStateRequest(cc) in q
    ensures WalletGroupEnabled(cc.pullSwitcher) ==> WalletsRequest(cc) in q
    ensures Enabled(cc.pullSwitcher, IsPool) ==> PoolStateRequest(cc) in q
    ensures Enabled(cc.pullSwitcher, IsPlots) ==> PlotsRequest(cc) in q
  {
    multiset(ConnectionsTrace(cc).requests) + multiset(BlockchainStateTrace(cc).requests)
      + multiset(WalletsTrace(cc).requests) + multiset(PoolTrace(cc).requests)
      + multiset(PlotsTrace(cc).requests)
  }

  /** The samples of the five tasks of one coin, taken as a bag (the collectors run
      concurrently, so no order among them is promised). Every one of them belongs to a
      family of this coin. */
  function CoinSamples(cc: Collector): (c: multiset<Sample>)
    ensures forall s :: s in c ==> cc.name <= s.name
  {
    multiset(ConnectionsTrace(cc).samples) + multiset(BlockchainStateTrace(cc).samples)
      + multiset(WalletsTrace(cc).samples) + multiset(PoolTrace(cc).samples)
      + multiset(PlotsTrace(cc).samples)
  }
}
