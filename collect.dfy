/** The collectors as they run: each posts its queries through the coin's client and sends
    its samples on the shared channel, one step at a time. Each method is proved to post
    exactly the requests and send exactly the samples of its trace in module Translate. */
module Collect {
  import opened Decimal
  import opened Rpc
  import opened Metrics
  import opened Translate
  import opened SeqFacts

  /** The `peers` loop of collectConnections: one bucket per node type, incremented once per
      connection. `ok` is false where the Go slice index goes out of range (a panic). */
  method CountPeers(conns: seq<Connection>) returns (ok: bool, counts: seq<int>)
    ensures ok == TypesInRange(conns)
    ensures ok ==> counts == PeerCounts(conns)
  {
    var peers := new int[NumNodeTypes](_ => 0);
    assert peers[..] == PeerCounts([]);
    var i := 0;
    while i < |conns|
      invariant 0 <= i <= |conns|
      invariant TypesInRange(conns[..i])
      invariant peers[..] == PeerCounts(conns[..i])
    {
      var t := conns[i].nodeType;
      if !(1 <= t <= NumNodeTypes) {
        return false, [];
      }
      assert conns[..i + 1][..i] == conns[..i];
      peers[t - 1] := peers[t - 1] + 1;
      i := i + 1;
    }
    assert conns[..i] == conns;
    return true, peers[..];
  }

  /** collectConnections. */
  method CollectConnections(cc: Collector, ch: Sink) returns (panicked: bool)
    modifies cc.client, ch
    ensures cc.client.posted == old(cc.client.posted) + ConnectionsTrace(cc).requests
    ensures ch.emitted == old(ch.emitted) + ConnectionsTrace(cc).samples
    ensures panicked == ConnectionsTrace(cc).panicked
  {
    if !Enabled(cc.pullSwitcher, IsConn) {
      return false;
    }
    var r := QueryAPI(cc.client, cc.baseURL, GetConnections, "");
    if !(r.Ok? && r.payload.ConnectionsPayload?) {
      return false;
    }
    var ok, peers := CountPeers(r.payload.connections);
    if !ok {
      return true;
    }
    ghost var all := PeerSamples(cc.name, peers);
    var nt := 0;
    while nt < |peers|
      invariant 0 <= nt <= |peers|
      invariant ch.emitted == old(ch.emitted) + all[..nt]
      modifies ch
    {
      ch.Send(Sample(cc.name + "_peers_count", [Itoa(nt + 1)], peers[nt]));
      assert all[..nt + 1] == all[..nt] + [all[nt]];
      nt := nt + 1;
    }
    assert all[..nt] == all;
    return false;
  }

  /** collectBlockchainState. */
  method CollectBlockchainState(cc: Collector, ch: Sink)
    modifies cc.client, ch
    ensures cc.client.posted == old(cc.client.posted) + BlockchainStateTrace(cc).requests
    ensures ch.emitted == old(ch.emitted) + BlockchainStateTrace(cc).samples
  {
    if !Enabled(cc.pullSwitcher, IsState) {
      return;
    }
    var r := QueryAPI(cc.client, cc.baseURL, GetBlockchainState, "");
    if !(r.Ok? && r.payload.BlockchainStatePayload?) {
      return;
    }
    var bs := r.payload.state;
    var sync := 0;
    if bs.syncMode {
      sync := 1;
    } else if bs.synced {
      sync := 2;
    }
    ch.Send(Sample(cc.name + "_blockchain_sync_status", [], sync));
    ch.Send(Sample(cc.name + "_blockchain_height", [], bs.height));
    ch.Send(Sample(cc.name + "_blockchain_difficulty", [], bs.difficulty));
    ch.Send(Sample(cc.name + "_blockchain_space_bytes", [], bs.space));
    ch.Send(Sample(cc.name + "_blockchain_total_iters", [], bs.totalIters));
  }

  /** getWalletPublicKey. */
  method GetWalletPublicKey(cc: Collector, w: Wallet) returns (fp: string)
    modifies cc.client
    ensures cc.client.posted == old(cc.client.posted) + [WalletRequest(cc, GetPublicKeys, w.id)]
    ensures fp == WalletPublicKey(cc, w)
  {
    var r := QueryAPI(cc.client, cc.walletURL, GetPublicKeys, WalletQuery(w.id));
    if !(r.Ok? && r.payload.PublicKeysPayload?) {
      return "";
    }
    var fps := r.payload.fingerprints;
    if |fps| < 1 {
      return "";
    }
    // More than one key is only logged; the first one is used.
    return Itoa(fps[0]);
  }

  /** collectWalletBalance. */
  method CollectWalletBalance(cc: Collector, ch: Sink, w: Wallet)
    modifies cc.client, ch
    ensures cc.client.posted == old(cc.client.posted) + BalanceTrace(cc, w).requests
    ensures ch.emitted == old(ch.emitted) + BalanceTrace(cc, w).samples
  {
    var r := QueryAPI(cc.client, cc.walletURL, GetWalletBalance, WalletQuery(w.id));
    if !(r.Ok? && r.payload.WalletBalancePayload?) {
      return;
    }
    var wb := r.payload.balance;
    ch.Send(Sample(cc.name + "_wallet_confirmed_balance_mojo", [w.stringId, w.publicKey], wb.confirmed));
    ch.Send(Sample(cc.name + "_wallet_unconfirmed_balance_mojo", [w.stringId, w.publicKey], wb.unconfirmed));
    ch.Send(Sample(cc.name + "_wallet_spendable_balance_mojo", [w.stringId, w.publicKey], wb.spendable));
    ch.Send(Sample(cc.name + "_wallet_max_send_mojo", [w.stringId, w.publicKey], wb.maxSend));
    ch.Send(Sample(cc.name + "_wallet_pending_change_mojo", [w.stringId, w.publicKey], wb.pendingChange));
  }

  /** collectWalletSync. */
  method CollectWalletSync(cc: Collector, ch: Sink, w: Wallet)
    modifies cc.client, ch
    ensures cc.client.posted == old(cc.client.posted) + WalletSyncTrace(cc, w).requests
    ensures ch.emitted == old(ch.emitted) + WalletSyncTrace(cc, w).samples
  {
    var q := WalletQuery(w.id);
    var r := QueryAPI(cc.client, cc.walletURL, GetSyncStatus, q);
    if !(r.Ok? && r.payload.SyncStatusPayload?) {
      return;
    }
    var sync := 0;
    if r.payload.syncing {
      sync := 1;
    } else if r.payload.synced {
      sync := 2;
    }
    ch.Send(Sample(cc.name + "_wallet_sync_status", [w.stringId, w.publicKey], sync));

    var h := QueryAPI(cc.client, cc.walletURL, GetHeightInfo, q);
    if !(h.Ok? && h.payload.HeightInfoPayload?) {
      return;
    }
    ch.Send(Sample(cc.name + "_wallet_height", [w.stringId, w.publicKey], h.payload.height));
  }

  /** collectFarmedAmount. */
  method CollectFarmedAmount(cc: Collector, ch: Sink, w: Wallet)
    modifies cc.client, ch
    ensures cc.client.posted == old(cc.client.posted) + FarmedTrace(cc, w).requests
    ensures ch.emitted == old(ch.emitted) + FarmedTrace(cc, w).samples
  {
    var r := QueryAPI(cc.client, cc.walletURL, GetFarmedAmount, WalletQuery(w.id));
    if !(r.Ok? && r.payload.FarmedAmountPayload?) {
      return;
    }
    var fa := r.payload.amount;
    ch.Send(Sample(cc.name + "_wallet_farmed_amount", [w.stringId, w.publicKey], fa.farmed));
    ch.Send(Sample(cc.name + "_wallet_reward_amount", [w.stringId, w.publicKey], fa.reward));
    ch.Send(Sample(cc.name + "_wallet_fee_amount", [w.stringId, w.publicKey], fa.fee));
    ch.Send(Sample(cc.name + "_wallet_last_height_farmed", [w.stringId, w.publicKey], fa.lastHeightFarmed));
    ch.Send(Sample(cc.name + "_wallet_pool_reward_amount", [w.stringId, w.publicKey], fa.poolReward));
  }

  /** One pass of the wallet loop body. */
  method CollectWallet(cc: Collector, ch: Sink, w0: Wallet)
    modifies cc.client, ch
    ensures cc.client.posted == old(cc.client.posted) + WalletTrace(cc, w0).requests
    ensures ch.emitted == old(ch.emitted) + WalletTrace(cc, w0).samples
  {
    var w := w0;
    w := w.(stringId := Itoa(w.id));
    var fp := GetWalletPublicKey(cc, w);
    w := w.(publicKey := fp);
    assert w == ResolvedWallet(cc, w0);
    ghost var sw := cc.pullSwitcher;
    ghost var bal := Gated(Enabled(sw, IsWalletBalance), BalanceTrace(cc, w));
    ghost var syn := Gated(Enabled(sw, IsWalletSync), WalletSyncTrace(cc, w));
    ghost var far := Gated(Enabled(sw, IsFarmed), FarmedTrace(cc, w));
    ghost var pk := WalletRequest(cc, GetPublicKeys, w0.id);
    assert cc.client.posted == old(cc.client.posted) + [pk];
    if Enabled(cc.pullSwitcher, IsWalletBalance) {
      CollectWalletBalance(cc, ch, w);
    }
    assert cc.client.posted == old(cc.client.posted) + [pk] + bal.requests;
    assert ch.emitted == old(ch.emitted) + bal.samples;
    if Enabled(cc.pullSwitcher, IsWalletSync) {
      CollectWalletSync(cc, ch, w);
    }
    assert cc.client.posted == old(cc.client.posted) + [pk] + bal.requests + syn.requests;
    assert ch.emitted == old(ch.emitted) + bal.samples + syn.samples;
    if Enabled(cc.pullSwitcher, IsFarmed) {
      CollectFarmedAmount(cc, ch, w);
    }
    WalletRequestsParts(cc, w0, w, old(cc.client.posted), cc.client.posted);
    WalletSamplesParts(cc, w0, w, old(ch.emitted), ch.emitted);
  }

  /** The requests of WalletTrace: the public-key request, then the three gated runs. */
  lemma WalletRequestsParts(cc: Collector, w0: Wallet, w: Wallet, posted0: seq<Request>, posted: seq<Request>)
    requires w == ResolvedWallet(cc, w0)
    requires var sw := cc.pullSwitcher;
      posted == posted0 + [WalletRequest(cc, GetPublicKeys, w0.id)]
        + Gated(Enabled(sw, IsWalletBalance), BalanceTrace(cc, w)).requests
        + Gated(Enabled(sw, IsWalletSync), WalletSyncTrace(cc, w)).requests
        + Gated(Enabled(sw, IsFarmed), FarmedTrace(cc, w)).requests
    ensures posted == posted0 + WalletTrace(cc, w0).requests
  {
    var sw := cc.pullSwitcher;
    Regroup(posted0, posted, [WalletRequest(cc, GetPublicKeys, w0.id)],
      Gated(Enabled(sw, IsWalletBalance), BalanceTrace(cc, w)).requests,
      Gated(Enabled(sw, IsWalletSync), WalletSyncTrace(cc, w)).requests,
      Gated(Enabled(sw, IsFarmed), FarmedTrace(cc, w)).requests);
  }

  /** The samples of WalletTrace: those of the three gated runs. */
  lemma WalletSamplesParts(cc: Collector, w0: Wallet, w: Wallet, emitted0: seq<Sample>, emitted: seq<Sample>)
    requires w == ResolvedWallet(cc, w0)
    requires var sw := cc.pullSwitcher;
      emitted == emitted0
        + Gated(Enabled(sw, IsWalletBalance), BalanceTrace(cc, w)).samples
        + Gated(Enabled(sw, IsWalletSync), WalletSyncTrace(cc, w)).samples
        + Gated(Enabled(sw, IsFarmed), FarmedTrace(cc, w)).samples
    ensures emitted == emitted0 + WalletTrace(cc, w0).samples
  {
    var sw := cc.pullSwitcher;
    var bal := Gated(Enabled(sw, IsWalletBalance), BalanceTrace(cc, w)).samples;
    var syn := Gated(Enabled(sw, IsWalletSync), WalletSyncTrace(cc, w)).samples;
    var far := Gated(Enabled(sw, IsFarmed), FarmedTrace(cc, w)).samples;
    assert WalletTrace(cc, w0).samples == [] + ((bal + syn) + far);
    EmptyAppend((bal + syn) + far);
    AppendAssoc(emitted0, bal, syn);
    AppendAssoc(emitted0, bal + syn, far);
  }

  /** collectWallets. */
  method CollectWallets(cc: Collector, ch: Sink)
    modifies cc.client, ch
    ensures cc.client.posted == old(cc.client.posted) + WalletsTrace(cc).requests
    ensures ch.emitted == old(ch.emitted) + WalletsTrace(cc).samples
  {
    if !Enabled(cc.pullSwitcher, IsWalletBalance) && !Enabled(cc.pullSwitcher, IsWalletSync)
      && !Enabled(cc.pullSwitcher, IsFarmed) {
      return;
    }
    var r := QueryAPI(cc.client, cc.walletURL, GetWallets, "");
    if !(r.Ok? && r.payload.WalletsPayload?) {
      return;
    }
    var ws := r.payload.wallets;
    CollectWalletList(cc, ch, ws);
    WalletsRequestsParts(cc, ws, old(cc.client.posted), cc.client.posted);
    WalletsSamplesParts(cc, ws, old(ch.emitted), ch.emitted);
  }

  /** WalletsTrace once get_wallets has answered with `ws`: its request, then the loop. */
  lemma WalletsOnReply(cc: Collector, ws: seq<Wallet>)
    requires WalletGroupEnabled(cc.pullSwitcher)
    requires cc.client.respond(WalletsRequest(cc)) == Ok(WalletsPayload(ws))
    ensures WalletsTrace(cc) == Then(Trace([WalletsRequest(cc)], [], false), WalletListTrace(cc, ws))
  {
  }

  lemma WalletsRequestsParts(cc: Collector, ws: seq<Wallet>, posted0: seq<Request>, posted: seq<Request>)
    requires WalletGroupEnabled(cc.pullSwitcher)
    requires cc.client.respond(WalletsRequest(cc)) == Ok(WalletsPayload(ws))
    requires posted == posted0 + [WalletsRequest(cc)] + WalletListTrace(cc, ws).requests
    ensures posted == posted0 + WalletsTrace(cc).requests
  {
    WalletsOnReply(cc, ws);
    AppendAssoc(posted0, [WalletsRequest(cc)], WalletListTrace(cc, ws).requests);
  }

  lemma WalletsSamplesParts(cc: Collector, ws: seq<Wallet>, emitted0: seq<Sample>, emitted: seq<Sample>)
    requires WalletGroupEnabled(cc.pullSwitcher)
    requires cc.client.respond(WalletsRequest(cc)) == Ok(WalletsPayload(ws))
    requires emitted == emitted0 + WalletListTrace(cc, ws).samples
    ensures emitted == emitted0 + WalletsTrace(cc).samples
  {
    WalletsOnReply(cc, ws);
    EmptyAppend(WalletListTrace(cc, ws).samples);
  }

  /** The loop of collectWallets over the wallets get_wallets returned. */
  method CollectWalletList(cc: Collector, ch: Sink, ws: seq<Wallet>)
    modifies cc.client, ch
    ensures cc.client.posted == old(cc.client.posted) + WalletListTrace(cc, ws).requests
    ensures ch.emitted == old(ch.emitted) + WalletListTrace(cc, ws).samples
  {
    var i := 0;
    while i < |ws|
      invariant 0 <= i <= |ws|
      invariant cc.client.posted == old(cc.client.posted) + WalletListTrace(cc, ws[..i]).requests
      invariant ch.emitted == old(ch.emitted) + WalletListTrace(cc, ws[..i]).samples
    {
      CollectWallet(cc, ch, ws[i]);
      WalletListStepRequests(cc, ws, i, old(cc.client.posted), cc.client.posted);
      WalletListStepSamples(cc, ws, i, old(ch.emitted), ch.emitted);
      i := i + 1;
    }
    assert ws[..i] == ws;
  }

  lemma WalletListStepRequests(cc: Collector, ws: seq<Wallet>, i: nat, posted0: seq<Request>, posted: seq<Request>)
    requires i < |ws|
    requires posted == posted0 + WalletListTrace(cc, ws[..i]).requests + WalletTrace(cc, ws[i]).requests
    ensures posted == posted0 + WalletListTrace(cc, ws[..i + 1]).requests
  {
    WalletListStep(cc, ws, i);
    AppendAssoc(posted0, WalletListTrace(cc, ws[..i]).requests, WalletTrace(cc, ws[i]).requests);
  }

  lemma WalletListStepSamples(cc: Collector, ws: seq<Wallet>, i: nat, emitted0: seq<Sample>, emitted: seq<Sample>)
    requires i < |ws|
    requires emitted == emitted0 + WalletListTrace(cc, ws[..i]).samples + WalletTrace(cc, ws[i]).samples
    ensures emitted == emitted0 + WalletListTrace(cc, ws[..i + 1]).samples
  {
    WalletListStep(cc, ws, i);
    AppendAssoc(emitted0, WalletListTrace(cc, ws[..i]).samples, WalletTrace(cc, ws[i]).samples);
  }

  /** One more wallet of the loop. */
  lemma WalletListStep(cc: Collector, ws: seq<Wallet>, i: nat)
    requires i < |ws|
    ensures WalletListTrace(cc, ws[..i + 1]).requests
      == WalletListTrace(cc, ws[..i]).requests + WalletTrace(cc, ws[i]).requests
    ensures WalletListTrace(cc, ws[..i + 1]).samples
      == WalletListTrace(cc, ws[..i]).samples + WalletTrace(cc, ws[i]).samples
  {
    assert ws[..i + 1][..i] == ws[..i];
  }

  /** collectPoolState. */
  method CollectPoolState(cc: Collector, ch: Sink)
    modifies cc.client, ch
    ensures cc.client.posted == old(cc.client.posted) + PoolTrace(cc).requests
    ensures ch.emitted == old(ch.emitted) + PoolTrace(cc).samples
  {
    if !Enabled(cc.pullSwitcher, IsPool) {
      return;
    }
    var r := QueryAPI(cc.client, cc.farmerURL, GetPoolState, "");
    if !(r.Ok? && r.payload.PoolStatePayload?) {
      return;
    }
    var entries := r.payload.entries;
    var i := 0;
    while i < |entries|
      invariant 0 <= i <= |entries|
      invariant ch.emitted == old(ch.emitted) + PoolSamples(cc.name, entries[..i])
      modifies ch
    {
      SendPoolEntry(cc, ch, entries[i]);
      PoolSamplesStep(cc.name, entries, i);
      AppendAssoc(old(ch.emitted), PoolSamples(cc.name, entries[..i]), PoolEntrySamples(cc.name, entries[i]));
      i := i + 1;
    }
    assert entries[..i] == entries;
  }

  /** One pass of the pool loop: the four gauges of entry `p`, in order. */
  method SendPoolEntry(cc: Collector, ch: Sink, p: PoolStateEntry)
    modifies ch
    ensures ch.emitted == old(ch.emitted) + PoolEntrySamples(cc.name, p)
  {
    ch.Send(Sample(cc.name + "_pool_current_difficulty", [p.launcherId, p.poolUrl], p.currentDifficulty));
    ch.Send(Sample(cc.name + "_pool_current_points", [p.launcherId, p.poolUrl], p.currentPoints));
    ch.Send(Sample(cc.name + "_pool_points_acknowledged_24h", [p.launcherId, p.poolUrl], |p.pointsAcknowledged24h|));
    ch.Send(Sample(cc.name + "_pool_points_found_24h", [p.launcherId, p.poolUrl], |p.pointsFound24h|));
    SentInOrder(old(ch.emitted), ch.emitted, PoolSample(cc.name, p, 0), PoolSample(cc.name, p, 1),
                PoolSample(cc.name, p, 2), PoolSample(cc.name, p, 3));
  }

  /** One more entry of the pool loop. */
  lemma PoolSamplesStep(name: string, entries: seq<PoolStateEntry>, i: nat)
    requires i < |entries|
    ensures PoolSamples(name, entries[..i + 1]) == PoolSamples(name, entries[..i]) + PoolEntrySamples(name, entries[i])
  {
    assert entries[..i + 1][..i] == entries[..i];
  }

  /** collectPlots. */
  method CollectPlots(cc: Collector, ch: Sink)
    modifies cc.client, ch
    ensures cc.client.posted == old(cc.client.posted) + PlotsTrace(cc).requests
    ensures ch.emitted == old(ch.emitted) + PlotsTrace(cc).samples
  {
    if !Enabled(cc.pullSwitcher, IsPlots) {
      return;
    }
    var r := QueryAPI(cc.client, cc.harvesterURL, GetPlots, "");
    if !(r.Ok? && r.payload.PlotsPayload?) {
      return;
    }
    var files := r.payload.files;
    ch.Send(Sample(cc.name + "_plots_failed_to_open", [], |files.failedToOpen|));
    ch.Send(Sample(cc.name + "_plots_not_found", [], |files.notFound|));
    ch.Send(Sample(cc.name + "_plots", [], |files.plots|));
  }

  // ---------------------------------------------------------------- the scrape

  /** The five tasks of one coin, one after the other. A panic in collectConnections ends
      the process before the other tasks of the coin have run. */
  method CollectCoin(cc: Collector, ch: Sink) returns (panicked: bool)
    modifies cc.client, ch
    ensures panicked == ConnectionsTrace(cc).panicked
    ensures panicked ==> cc.client.posted == old(cc.client.posted) + ConnectionsTrace(cc).requests
    ensures !panicked ==> multiset(cc.client.posted) == multiset(old(cc.client.posted)) + CoinRequests(cc)
    ensures !panicked ==> multiset(ch.emitted) == multiset(old(ch.emitted)) + CoinSamples(cc)
  {
    ghost var e0, p0 := ch.emitted, cc.client.posted;
    panicked := CollectConnections(cc, ch);
    if panicked {
      return;
    }
    ghost var e1, p1 := ch.emitted, cc.client.posted;
    CollectBlockchainState(cc, ch);
    ghost var e2, p2 := ch.emitted, cc.client.posted;
    CollectWallets(cc, ch);
    ghost var e3, p3 := ch.emitted, cc.client.posted;
    CollectPoolState(cc, ch);
    ghost var e4, p4 := ch.emitted, cc.client.posted;
    CollectPlots(cc, ch);
    BagOfAppends(e0, e1, e2, e3, e4, ch.emitted,
      ConnectionsTrace(cc).samples, BlockchainStateTrace(cc).samples, WalletsTrace(cc).samples,
      PoolTrace(cc).samples, PlotsTrace(cc).samples);
    BagOfAppends(p0, p1, p2, p3, p4, cc.client.posted,
      ConnectionsTrace(cc).requests, BlockchainStateTrace(cc).requests, WalletsTrace(cc).requests,
      PoolTrace(cc).requests, PlotsTrace(cc).requests);
  }

  /** The bags of the coins, by coin name. */
  function CoinBags(coins: map<string, Collector>): map<string, multiset<Sample>> {
    map k | k in coins :: CoinSamples(coins[k])
  }

  /** The sum of the bags named in `keys`, taken in an arbitrary order. */
  ghost function BagSum<K, T>(bags: map<K, multiset<T>>, keys: set<K>): multiset<T>
    requires keys <= bags.Keys
    decreases keys
  {
    if keys == {} then multiset{}
    else
      var k :| k in keys;
      BagSum(bags, keys - {k}) + bags[k]
  }

  /** The sum does not depend on the order in which the bags are taken: any one of them
      can be taken last. */
  lemma {:induction false} BagSumRemove<K, T>(bags: map<K, multiset<T>>, keys: set<K>, k: K)
    requires keys <= bags.Keys && k in keys
    ensures BagSum(bags, keys) == BagSum(bags, keys - {k}) + bags[k]
    decreases keys
  {
    var j :| j in keys && BagSum(bags, keys) == BagSum(bags, keys - {j}) + bags[j];
    if j != k {
      BagSumRemove(bags, keys - {j}, k);
      BagSumRemove(bags, keys - {k}, j);
      assert keys - {j} - {k} == keys - {k} - {j};
    }
  }

  /** The sum over two disjoint groups is the sum of the two groups' sums. */
  lemma {:induction false} BagSumSplit<K, T>(bags: map<K, multiset<T>>, a: set<K>, b: set<K>)
    requires a <= bags.Keys && b <= bags.Keys && a !! b
    ensures BagSum(bags, a + b) == BagSum(bags, a) + BagSum(bags, b)
    decreases a
  {
    if a == {} {
      assert a + b == b;
    } else {
      var k :| k in a;
      BagSumRemove(bags, a + b, k);
      assert a + b - {k} == (a - {k}) + b;
      BagSumSplit(bags, a - {k}, b);
      BagSumRemove(bags, a, k);
    }
  }

  /** Whatever is in the sum is in one of the bags summed. */
  lemma {:induction false} BagSumMember<K, T>(bags: map<K, multiset<T>>, keys: set<K>, x: T)
    requires keys <= bags.Keys && x in BagSum(bags, keys)
    ensures exists k :: k in keys && x in bags[k]
    decreases keys
  {
    var j :| j in keys && BagSum(bags, keys) == BagSum(bags, keys - {j}) + bags[j];
    if x !in bags[j] {
      BagSumMember(bags, keys - {j}, x);
    }
  }

  /** The samples of a whole scrape, as a bag: every coin's five tasks. Nothing is sent
      when no coin is configured, and every sample belongs to a family of one of the
      coins. */
  ghost function ScrapeSamples(coins: map<string, Collector>): (bag: multiset<Sample>)
    ensures coins == map[] ==> bag == multiset{}
    ensures forall s :: s in bag ==> exists k :: k in coins && coins[k].name <= s.name
  {
    ScrapeFamilies(coins);
    BagSum(CoinBags(coins), coins.Keys)
  }

  lemma ScrapeFamilies(coins: map<string, Collector>)
    ensures forall s :: s in BagSum(CoinBags(coins), coins.Keys) ==> exists k :: k in coins && coins[k].name <= s.name
  {
    forall s | s in BagSum(CoinBags(coins), coins.Keys)
      ensures exists k :: k in coins && coins[k].name <= s.name
    {
      BagSumMember(CoinBags(coins), coins.Keys, s);
      var k :| k in coins.Keys && s in CoinBags(coins)[k];
      assert coins[k].name <= s.name;
    }
  }

  /** The scrape's samples split by coin: those of one coin plus those of all the others,
      so no coin's samples depend on the other coins. */
  lemma ScrapeSamplesByCoin(coins: map<string, Collector>, k: string)
    requires k in coins
    ensures ScrapeSamples(coins) == ScrapeSamples(coins - {k}) + CoinSamples(coins[k])
  {
    var bags := CoinBags(coins);
    BagSumRemove(bags, coins.Keys, k);
    KeysOfRemove(coins, k);
    BagSumSameBags(bags, CoinBags(coins - {k}), coins.Keys - {k});
  }

  /** Two families of bags that agree on `keys` have the same sum over `keys`. */
  lemma {:induction false} BagSumSameBags<K, T>(a: map<K, multiset<T>>, b: map<K, multiset<T>>, keys: set<K>)
    requires keys <= a.Keys && keys <= b.Keys
    requires forall k :: k in keys ==> a[k] == b[k]
    ensures BagSum(a, keys) == BagSum(b, keys)
    decreases keys
  {
    if keys != {} {
      var k :| k in keys && BagSum(a, keys) == BagSum(a, keys - {k}) + a[k];
      BagSumRemove(b, keys, k);
      BagSumSameBags(a, b, keys - {k});
    }
  }

  /** CoinsCollector.Collect: every coin's five tasks, their samples all sent on `ch`. The
      goroutines are run one after the other, coin by coin in an unspecified order; since Go
      promises no order, only the bag of samples is stated. A panic in any task ends the
      process, which is reported as `crashed`. What each coin posts on its client is stated
      by `CollectCoin`. */
  method Collect(coins: map<string, Collector>, ch: Sink) returns (crashed: bool)
    modifies ch, set k | k in coins :: coins[k].client
    ensures crashed <==> exists k :: k in coins && ConnectionsTrace(coins[k]).panicked
    ensures !crashed ==> multiset(ch.emitted) == multiset(old(ch.emitted)) + ScrapeSamples(coins)
  {
    ghost var bags := CoinBags(coins);
    var remaining := coins.Keys;
    while remaining != {}
      invariant remaining <= coins.Keys
      invariant forall k :: k in coins.Keys - remaining ==> !ConnectionsTrace(coins[k]).panicked
      invariant multiset(ch.emitted) == multiset(old(ch.emitted)) + BagSum(bags, coins.Keys - remaining)
      decreases remaining
    {
      var name :| name in remaining;
      var cc := coins[name];
      assert cc.client in set k | k in coins :: coins[k].client;
      ghost var before := multiset(ch.emitted);
      var panicked := CollectCoin(cc, ch);
      if panicked {
        return true;
      }
      assert bags[name] == CoinSamples(cc);
      BagSumStep(bags, coins.Keys, remaining, name, multiset(old(ch.emitted)), before, multiset(ch.emitted));
      remaining := remaining - {name};
    }
    assert coins.Keys - remaining == coins.Keys;
    return false;
  }

  /** One more bag taken into the running sum of the scrape. */
  lemma BagSumStep<K, T>(bags: map<K, multiset<T>>, all: set<K>, remaining: set<K>, x: K,
                         base: multiset<T>, before: multiset<T>, after: multiset<T>)
    requires all <= bags.Keys && remaining <= all && x in remaining
    requires before == base + BagSum(bags, all - remaining) && after == before + bags[x]
    ensures after == base + BagSum(bags, all - (remaining - {x}))
  {
    TakeOneMore(all, remaining, x);
    BagSumRemove(bags, all - (remaining - {x}), x);
    BagStep(base, BagSum(bags, all - remaining), bags[x], before, after);
  }
}
