# Chia-forks Prometheus exporter: scrape-time translation, in Dafny

The exporter serves Prometheus gauges for one or more Chia-family coins. On every scrape,
`CoinsCollector.Collect` runs five tasks for each configured coin:

- peer connections,
- blockchain state,
- wallets,
- pool state,
- plots.

Each task is gated by the coin's pull-switcher map. It posts JSON-RPC queries to the coin's
full node, wallet, farmer or harvester and turns the decoded replies into gauge samples. Each
sample has a family name (the coin name plus a suffix), label values and a value.

This project models that translation.

- **Decimal** (`decimal.dfy`). `strconv.Itoa` as a digit string. It proves the rendering reads
  back to its number, so distinct ids get distinct labels.
- **Rpc** (`rpc.dfy`). The decoded reply records, holding the fields the collectors read. The
  24h point records of a pool entry keep their two fields, but no collector reads them: only
  the lengths of the two lists are exported. Also `queryAPI`'s rule for the request it posts. A `Client` object stands for the coin's HTTP
  client and the services behind it. It answers every request with a fixed reply: an error, or
  a decoded payload. It also records every request posted to it.
- **Metrics** (`metrics.dfy`). A sample, and the channel `ch` as a `Sink` object whose sends
  append to a sequence.
- **Translate** (`translate.dfy`). For each task, a pure trace. It gives the requests posted,
  the samples sent and whether that collector panicked, as a function of the coin's switches and its
  client's replies.
- **Collect** (`collect.dfy`). The collectors as imperative methods. They post through the
  client and send on the sink step by step. Each is proved to post and send exactly its trace.
  This module also holds the peer-bucket loop over an array, the wallet loop, the pool loop
  and the scrape over all coins.
- **Properties** (`properties.dfy`). What the traces promise:
  - switch gating;
  - peer buckets that count every connection once;
  - the sync scalar;
  - fingerprint choice;
  - the per-wallet sample layout and its labels;
  - outputs cut short by failed queries;
  - four pool samples per entry;
  - plot counts;
  - that a full-node outage leaves the wallet, pool and plot outputs unchanged.

## Model

| member | source | states |
|---|---|---|
| Decimal.NatToDecimal | main.go:265 | The digits of a natural number are non-empty, all decimal digits, a single digit below ten and without a leading zero from ten on |
| Decimal.Itoa | main.go:265 | The rendering is never empty and starts with '-' exactly when the number is negative |
| Decimal.DecimalValueOfNat | main.go:265 | Reading the digits of a natural number back gives that number, so the rendering loses nothing |
| Decimal.ItoaInjective | main.go:344 | Two integers with the same decimal rendering are equal, so wallet-id and peer-type labels never collide |
| Rpc.PostRequest | main.go:164-169 | The request goes to `base + "/" + endpoint`. Its body is the query when the query is non-empty and `{"":""}` otherwise, so a posted body is never empty |
| Rpc.QueryAPI | main.go:164-181 | Posts exactly one request, the one PostRequest gives for its arguments, and returns the client's reply to that request |
| Rpc.Client.Post | main.go:169-179 | A POST followed by decoding: the reply is the client's fixed answer to the request, and the request is logged |
| Metrics.Sink.Send | main.go:260-267 | Sending on the channel appends the sample after everything sent before |
| Translate.Enabled | main.go:242 | A switch is on only if its key is present and mapped to true. An absent key reads as false |
| Translate.PeerSamples | main.go:256-267 | One sample per bucket, in bucket order. Sample i carries the count of bucket i and the label decimal of i + 1, so no two samples share a label. Every family name starts with the coin name |
| Translate.PeerCounts | main.go:251-254 | There are six buckets, and each holds between zero and the number of connections |
| Translate.ConnectionsTrace | main.go:241-268 | When the conn switch is off, no request and no sample. When it is on, exactly one get_connections request to the full node. A panic sends nothing, and otherwise there are zero or six samples |
| Translate.SyncStatus | main.go:280-285 | 1 exactly when syncing, whatever synced says. 2 exactly when not syncing and synced. 0 exactly when neither |
| Translate.BlockchainSamples | main.go:286-330 | Five unlabelled samples with the coin's prefix: sync scalar, height, difficulty, space and total iterations, in that order |
| Translate.BlockchainStateTrace | main.go:270-331 | When the state switch is off, silent. When it is on, one get_blockchain_state request, never a panic, and zero or five unlabelled samples |
| Translate.WalletQuery | main.go:362 | The per-wallet body is never empty, so it is posted as is |
| Translate.Fingerprint | main.go:360-375 | Empty exactly when get_public_keys fails or returns no keys. Otherwise it is the decimal of the first key, and later keys are ignored |
| Translate.WalletPublicKey | main.go:360-375 | The wallet's fingerprint is empty exactly when get_public_keys for its id fails or lists no key. Otherwise it is the decimal of the first key |
| Translate.ResolvedWallet | main.go:344-345 | The loop body keeps the wallet id, sets the id label to its decimal and sets the fingerprint label to the wallet's fingerprint |
| Translate.BalanceSamples | main.go:422-451 | Five samples labelled (id label, fingerprint) with the coin's prefix: confirmed, unconfirmed, spendable, max send and pending change, in that order |
| Translate.BalanceTrace | main.go:415-452 | One get_wallet_balance request. Zero or five samples, each labelled (id label, fingerprint) |
| Translate.WalletSyncTrace | main.go:471-502 | get_sync_status is always asked, and get_height_info only after it. There are never more samples than answered requests, each labelled (id label, fingerprint) |
| Translate.FarmedSamples | main.go:608-657 | Five samples labelled (id label, fingerprint) with the coin's prefix: farmed, reward, fee, last height farmed and pool reward, in that order |
| Translate.FarmedTrace | main.go:601-658 | One get_farmed_amount request. Zero or five samples, each labelled (id label, fingerprint) |
| Translate.WalletRuns | main.go:346-354 | The three gated runs of a wallet never panic, send at most twelve samples and carry the wallet's two labels |
| Translate.WalletTrace | main.go:343-355 | A wallet's first request is get_public_keys for its id. It sends at most twelve samples, all labelled (decimal of the id, fingerprint) |
| Translate.WalletListTrace | main.go:343-355 | The wallet loop never panics |
| Translate.WalletsTrace | main.go:333-356 | Silent only when all three wallet switches are off. Otherwise the first request is get_wallets. Never panics |
| Translate.PoolSample | main.go:515-558 | Every pool gauge is labelled (launcher id, pool URL) of its entry |
| Translate.PoolEntrySamples | main.go:515-558 | Four gauges per pool entry |
| Translate.PoolSamples | main.go:514-559 | The pool loop sends four samples per entry |
| Translate.PoolTrace | main.go:504-560 | When the pool switch is off, silent. When it is on, exactly one get_pool_state request to the farmer. Never panics |
| Translate.PlotSamples | main.go:572-598 | Three plot gauges |
| Translate.PlotsTrace | main.go:562-599 | When the plots switch is off, silent. When it is on, one get_plots request to the harvester. Zero or three unlabelled samples |
| Translate.CoinSamples | main.go:209-237 | Every sample of a coin's five tasks belongs to a family whose name starts with the coin's name |
| Translate.CoinRequests | main.go:209-237 | The bag of requests of a coin's five tasks holds the first query of every enabled task: get_connections, get_blockchain_state, get_wallets, get_pool_state and get_plots |
| Properties.PeerCountsSum | main.go:251-254 | The buckets add up to the number of connections: each connection is counted exactly once |
| Properties.PeerCountsAt | main.go:251-254 | Bucket i holds the number of connections of type i + 1 |
| Properties.ConnectionsOnSuccess | main.go:251-267 | With every type in 1..6 there are exactly six samples. Sample i is named `<coin>_peers_count`, is labelled with the decimal of i + 1 and counts the connections of that type. No two share a label, and the values sum to the number of connections |
| Properties.ConnectionsPanic | main.go:251-254 | A connection whose type is outside 1..6 makes collectConnections panic with nothing sent |
| Properties.BlockchainStateOnSuccess | main.go:280-330 | Five samples in order: sync scalar (1 whenever sync mode is on), height, difficulty, space, total iterations |
| Properties.BalanceRun | main.go:346-348 | A gated balance run yields the five balance families, or nothing when it is off or its query fails |
| Properties.SyncRun | main.go:349-351 | A gated sync run yields status then height, as far as the two queries answer |
| Properties.FarmedRun | main.go:352-354 | A gated farmed run yields the five farmed families, or nothing |
| Properties.WalletLayout | main.go:343-355 | A wallet's sample families in order: five balance (if on and answered), then up to two sync, then five farmed (if on and answered) |
| Properties.SyncStatusWithoutHeight | main.go:474-501 | When the status query answers and the height query fails, exactly one sample, the sync status, is sent |
| Properties.SyncStatusFailure | main.go:474-477 | When the status query fails, the height is never asked and nothing is sent |
| Properties.WalletsFailure | main.go:338-342 | A failed get_wallets leaves the group with that one request and no samples |
| Properties.WalletListLabels | main.go:343-355 | Over the loop there is at least one request per wallet and at most twelve samples per wallet. Every sample is labelled with the id and fingerprint of a listed wallet |
| Properties.WalletLabelsDistinct | main.go:344 | Wallets with different ids never share a label pair |
| Properties.PoolSamplesAt | main.go:514-559 | Four samples per entry, in entry order: sample k is gauge k mod 4 of entry k div 4 |
| Properties.PoolCountsIgnoreContents | main.go:537-558 | The two 24h gauges are the lengths of the acknowledged and found lists. Entries whose lists have equal lengths give equal samples |
| Properties.PlotsOnSuccess | main.go:572-598 | On success, exactly three unlabelled samples: failed-to-open, not-found and plot counts |
| Properties.AllSwitchesOffSilent | main.go:242-244 | A coin whose seven known switches are all off or absent posts no request and sends no sample, whatever other keys its switch map holds; the guards are this one and those at main.go:271, 334, 505 and 563 |
| Properties.NotFullNode | main.go:339 | No URL of a wallet, farmer or harvester method can be a full-node URL, whatever the configured addresses |
| Properties.WalletTraceIsolated | main.go:343-355 | A wallet's trace depends only on non-full-node replies |
| Properties.WalletListIsolated | main.go:343-355 | The wallet loop's trace depends only on non-full-node replies |
| Properties.FullNodeOutage | main.go:241-331 | With the full node down, the connection and blockchain groups send nothing. The wallet, pool and plot groups post and send exactly what they would with the node up |
| Collect.CountPeers | main.go:251-254 | The in-place bucket loop succeeds exactly when every type is in 1..6, and then yields PeerCounts |
| Collect.CollectConnections | main.go:241-268 | Posts and sends exactly ConnectionsTrace, and reports its panic |
| Collect.CollectBlockchainState | main.go:270-331 | Posts and sends exactly BlockchainStateTrace |
| Collect.GetWalletPublicKey | main.go:360-375 | Posts one get_public_keys request and returns the wallet's Fingerprint |
| Collect.CollectWalletBalance | main.go:415-452 | Posts and sends exactly BalanceTrace |
| Collect.CollectWalletSync | main.go:471-502 | Posts and sends exactly WalletSyncTrace |
| Collect.CollectFarmedAmount | main.go:601-658 | Posts and sends exactly FarmedTrace |
| Collect.CollectWallet | main.go:344-354 | One pass of the loop body posts and sends exactly WalletTrace |
| Collect.CollectWalletList | main.go:343-355 | The loop over the wallets posts and sends exactly WalletListTrace |
| Collect.CollectWallets | main.go:333-356 | Posts and sends exactly WalletsTrace |
| Collect.CollectPoolState | main.go:504-560 | Posts and sends exactly PoolTrace |
| Collect.SendPoolEntry | main.go:514-558 | One pass of the pool loop sends the entry's four gauges, in order |
| Collect.CollectPlots | main.go:562-599 | Posts and sends exactly PlotsTrace |
| Collect.CollectCoin | main.go:209-237 | A coin's five tasks report a panic exactly when its connections task panics. Then the client has posted exactly the connections task's requests. Otherwise the client has posted the coin's bag of requests and the sink has received its bag of samples |
| Collect.BagSumRemove | main.go:204-206 | The sum over coins does not depend on the order in which Go's map iteration takes them |
| Collect.BagSumSplit | main.go:204-206 | The sum over two disjoint groups of coins is the sum of the two groups' sums |
| Collect.ScrapeSamplesByCoin | main.go:203-239 | A scrape's bag is one coin's bag plus the bag of all the other coins |
| Collect.ScrapeSamples | main.go:203-239 | A scrape with no coin configured sends nothing. Every sample of a scrape belongs to a family named after one of the configured coins |
| Collect.Collect | main.go:203-239 | The scrape crashes exactly when some coin's connections task panics. Otherwise the samples sent, as a bag, are the union over coins of the five task outputs |

## Left out

- Process start-up is not modelled: the YAML config, the flag, building each coin's URLs from host and port, the `get_network_info` probe, registration and the HTTP handlers. These are I/O and lifecycle.
- `newClient` is not modelled: TLS key pairs, the transport and the 5-second timeout. These are foreign library calls. Their failures show up only as `QueryError` replies.
- The HTTP POST and the JSON decoding are not modelled. A client answers each request with a fixed reply that stays the same during a scrape. A payload of the wrong kind stands for a decode error. Go's decoder fills fields missing from a well-formed body with zero values, and that is not modelled.
- Collect.Collect: goroutines, the WaitGroup and the channel are not modelled. The five tasks of a coin run one after the other, and coins are taken in an arbitrary order. Go promises no order, so only the bag of samples is stated. Interleavings between tasks are not modelled.
- Collect.Collect: an unrecovered panic in a goroutine ends the whole process. The model stops at the first panic and reports `crashed`. The samples sent before the crash are not stated.
- Values are integers. The float64 conversions and their rounding of very large integers are not modelled. The float netspace value is passed through as an integer.
- Descriptors, help texts, label names, `Describe` and logging are not modelled. This includes the "more than one public key" message. A sample keeps only its family name, its label values and its value.
- `NumNodeTypes` is declared in a file that is not part of this model. It is taken to be 6, the six peer node types.
- Collect.Collect: coin names are assumed to make valid Prometheus metric names once a suffix is added. `prometheus.MustNewConstMetric` panics when its descriptor's name is invalid, for instance for a coin named `chia-fork` or `3chia` (main.go:261, 286, 422, 515, 572, 608). Such a coin would crash the process on its first send, where the model reports no crash. Which names are valid depends on the version of the Prometheus client library.
- Collect.Collect: the requests posted are stated per coin, by Collect.CollectCoin (each client receives the bag of its own coin's five tasks' requests). They are not lifted to the whole scrape, so the contract does not say that one coin's tasks never post on another coin's client.
- Collect.CollectCoin: the same assumption on the coin's name. An invalid name would make every task of the coin that sends a sample panic, and the model does not report that panic.
- `prometheus.MustNewConstMetric` also panics on a label-count mismatch. That is not modelled, because every call passes as many label values as its descriptor names.
