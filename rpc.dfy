/** The RPC query primitive (queryAPI, main.go:164-181) and the decoded payloads that the
    collectors read. The HTTP POST and the JSON decoding are not modelled: a `Client` answers
    each request with a fixed reply, either an error or a decoded payload, and logs what was
    posted to it. The records hold the fields the collectors read; the 24h point records of a
    pool entry keep their two fields, but no collector reads them, only the list lengths. */
module Rpc {

  /** Why a query produced no payload: the POST failed (dial, TLS, timeout) or the body did
      not decode into the expected shape. */
  datatype QueryError = ConnectError | TlsError | TimeoutError | DecodeError

  /** One peer from get_connections; `nodeType` is 1..6 when the node behaves. */
  datatype Connection = Connection(nodeType: int)

  /** The fields of get_blockchain_state that are exported. `space` is a float in the
      source and is passed through unchanged. */
  datatype BlockchainState = BlockchainState(
    syncMode: bool, synced: bool, height: int, difficulty: int, space: int, totalIters: int)

  /** A wallet from get_wallets. The collectors never read `stringId` and `publicKey` from
      the reply: the wallet loop overwrites both before using them. */
  datatype Wallet = Wallet(id: int, stringId: string, publicKey: string)

  datatype WalletBalance = WalletBalance(
    confirmed: int, unconfirmed: int, spendable: int, maxSend: int, pendingChange: int)

  datatype FarmedAmount = FarmedAmount(
    farmed: int, reward: int, fee: int, lastHeightFarmed: int, poolReward: int)

  /** One entry of a pool's 24h point lists. No collector reads its fields: only the list
      lengths are exported. */
  datatype PointRecord = PointRecord(timestamp: int, points: int)

  datatype PoolStateEntry = PoolStateEntry(
    launcherId: string, poolUrl: string, currentDifficulty: int, currentPoints: int,
    pointsAcknowledged24h: seq<PointRecord>, pointsFound24h: seq<PointRecord>)

  datatype PlotFiles = PlotFiles(failedToOpen: seq<string>, notFound: seq<string>, plots: seq<string>)

  /** A decoded reply, one variant per RPC method the collectors call. */
  datatype Payload =
    | ConnectionsPayload(connections: seq<Connection>)
    | BlockchainStatePayload(state: BlockchainState)
    | WalletsPayload(wallets: seq<Wallet>)
    | PublicKeysPayload(fingerprints: seq<int>)
    | WalletBalancePayload(balance: WalletBalance)
    | SyncStatusPayload(syncing: bool, synced: bool)
    | HeightInfoPayload(height: int)
    | FarmedAmountPayload(amount: FarmedAmount)
    | PoolStatePayload(entries: seq<PoolStateEntry>)
    | PlotsPayload(files: PlotFiles)

  datatype Reply = Ok(payload: Payload) | Failed(error: QueryError)

  /** An HTTPS POST: the full URL and the JSON body. */
  datatype Request = Request(url: string, body: string)

  /** The body sent when a method takes no parameters. */
  const EmptyBody: string := "{\"\":\"\"}"

  /** The request queryAPI posts for `endpoint` at `base` with body `query`. */
  function PostRequest(base: string, endpoint: string, query: string): (req: Request)
    ensures req.url == base + "/" + endpoint
    ensures req.body != ""
    ensures query != "" ==> req.body == query
    ensures query == "" ==> req.body == EmptyBody
  {
    Request(base + "/" + endpoint, if query == "" then EmptyBody else query)
  }

  /** The HTTP client of one coin: its connection pool and the upstream services behind it.
      `respond` fixes the reply to every request for the duration of a scrape; `posted`
      records the requests in the order they were sent. */
  class Client {
    const respond: Request -> Reply
    var posted: seq<Request>

    constructor (respond: Request -> Reply)
      ensures this.respond == respond
      ensures posted == []
    {
      this.respond := respond;
      posted := [];
    }

    /** client.Post followed by decoding the body. */
    method Post(req: Request) returns (r: Reply)
      modifies this
      ensures r == respond(req)
      ensures posted == old(posted) + [req]
    {
      r := respond(req);
      posted := posted + [req];
    }
  }

  /** queryAPI: substitutes the placeholder body for an empty query, then posts to
      `base + "/" + endpoint`. */
  method QueryAPI(client: Client, base: string, endpoint: string, query: string) returns (r: Reply)
    modifies client
    ensures client.posted == old(client.posted) + [PostRequest(base, endpoint, query)]
    ensures r == client.respond(PostRequest(base, endpoint, query))
  {
    var body := query;
    if body == "" {
      body := EmptyBody;
    }
    r := client.Post(Request(base + "/" + endpoint, body));
  }
}
