/** What `BitFactoryClient` promises about the requests it sends and the
    errors it throws, stated over the specification functions of `Client`. */
module ClientProperties {
  import opened Wrappers
  import opened JsValues
  import FormUrlEncoded
  import opened Client

  // ---------------------------------------------------------------------------
  // Parameter records

  /** Each operation's parameter record, built by `params.k = v` steps, has
      the documented layout: required properties first, then each optional
      argument that is not `undefined`, in argument order, and no key twice. */
  lemma ParamsOfLayout(op: Operation)
    ensures ParamsOf(op) == ParamsLayout(op)
    ensures DistinctKeys(ParamsOf(op))
  {
    match op
    case GetAccount(_, _, _, _) => GetAccountLayoutAgrees(op);
    case GetAccountBase(_, _) => GetAccountBaseLayoutAgrees(op);
    case GetAccountMetaData(_, _, _) => GetAccountMetaDataLayoutAgrees(op);
    case GetLedger(_, _, _, _) => GetLedgerLayoutAgrees(op);
    case GetTransactionHistory(_, _, _, _, _) => GetTransactionHistoryLayoutAgrees(op);
    case Query(_, _, _, _, _, _, _, _, _) => QueryLayoutAgrees(op);
    case GetTransactionCache(_, _, _, _, _) => GetTransactionCacheLayoutAgrees(op);
    case QueryDiscard(_, _, _) => QueryDiscardLayoutAgrees(op);
    case GetTxCacheSize =>
    case Apply(data) => SingletonDistinct(Entry("data", data));
    case SubmitTransaction(items) => SingletonDistinct(Entry("items", items));
    case CallContract(_, _, _, _, _, _, _, _) => CallContractLayoutAgrees(op);
    case CreateContract(_, _, _) => CreateContractLayoutAgrees(op);
    case AsyncCreateContract(_, _, _) => CreateContractLayoutAgrees(op);
    case QueryContractAddress(deployHash) => SingletonDistinct(Entry("hash", Str(deployHash)));
    case InvokeContract(operations) => SingletonDistinct(Entry("operations", operations));
    case AsyncInvokeContract(operations) => SingletonDistinct(Entry("operations", operations));
    case QueryByTxId(id) => SingletonDistinct(Entry("tx_id", Str(id)));
    case TestTransaction(items) => SingletonDistinct(Entry("items", items));
  }

  /** The property names each operation method sets are pairwise distinct. */
  lemma KeyNamesDistinct()
    ensures "domainid" !in {"address"}
    ensures "height" !in {"address"} + {"domainid"}
    ensures "key" !in {"address"} + {"domainid", "height"}
    ensures "key" !in {"address"} + {"domainid"}
    ensures "domainid" !in {"seq"}
    ensures "with_validator" !in {"seq", "domainid"}
    ensures "with_leader" !in {"seq", "domainid", "with_validator"}
    ensures "hash" !in {"domainid"}
    ensures "ledger_seq" !in {"domainid", "hash"}
    ensures "start" !in {"domainid", "hash", "ledger_seq"}
    ensures "limit" !in {"domainid", "hash", "ledger_seq", "start"}
    ensures "bid" !in {"page", "page_size"}
    ensures "hash" !in {"page", "page_size"} + {"bid"}
    ensures "tx_id" !in {"page", "page_size"} + {"bid", "hash"}
    ensures "start_time" !in {"page", "page_size"} + {"bid", "hash", "tx_id"}
    ensures "end_time" !in {"page", "page_size"} + {"bid", "hash", "tx_id", "start_time"}
    ensures "tx_type" !in {"page", "page_size"} + {"bid", "hash", "tx_id", "start_time", "end_time"}
    ensures "ledger_seq" !in
      {"page", "page_size"} + {"bid", "hash", "tx_id", "start_time", "end_time", "tx_type"}
    ensures "page" != "page_size"
    ensures "domainid" !in {"pool_type"}
    ensures "limit" !in {"pool_type"} + {"domainid"}
    ensures "hash" !in {"pool_type"} + {"domainid", "limit"}
    ensures "address" !in {"pool_type"} + {"domainid", "limit", "hash"}
    ensures "hash" !in {"page", "page_size"}
    ensures "domain_id" !in {"contract_address", "input"}
    ensures "contract_balance" !in {"contract_address", "input"} + {"domain_id"}
    ensures "fee_limit" !in {"contract_address", "input"} + {"domain_id", "contract_balance"}
    ensures "gas_price" !in {"contract_address", "input"} + {"domain_id", "contract_balance", "fee_limit"}
    ensures "source_address" !in
      {"contract_address", "input"} + {"domain_id", "contract_balance", "fee_limit", "gas_price"}
    ensures "code" !in
      {"contract_address", "input"} + {"domain_id", "contract_balance", "fee_limit", "gas_price", "source_address"}
    ensures "contract_address" != "input"
    ensures "init_input" !in {"contract_code", "type"}
    ensures "contract_code" != "type"
  {
  }

  lemma GetAccountLayoutAgrees(op: Operation)
    requires op.GetAccount?
    ensures ParamsOf(op) == ParamsLayout(op) && DistinctKeys(ParamsOf(op))
  {
    KeyNamesDistinct();
    SingletonDistinct(Entry("address", Str(op.address)));
    Chain3([Entry("address", Str(op.address))], {"address"}, "domainid", AsText(op.domainid),
      "height", AsNumber(op.height), "key", AsText(op.key));
  }

  lemma GetAccountBaseLayoutAgrees(op: Operation)
    requires op.GetAccountBase?
    ensures ParamsOf(op) == ParamsLayout(op) && DistinctKeys(ParamsOf(op))
  {
    KeyNamesDistinct();
    SingletonDistinct(Entry("address", Str(op.address)));
    Chain1([Entry("address", Str(op.address))], {"address"}, "domainid", AsText(op.domainid));
  }

  lemma GetAccountMetaDataLayoutAgrees(op: Operation)
    requires op.GetAccountMetaData?
    ensures ParamsOf(op) == ParamsLayout(op) && DistinctKeys(ParamsOf(op))
  {
    KeyNamesDistinct();
    SingletonDistinct(Entry("address", Str(op.address)));
    Chain2([Entry("address", Str(op.address))], {"address"},
           "domainid", AsText(op.domainid), "key", AsText(op.key));
  }

  lemma GetLedgerLayoutAgrees(op: Operation)
    requires op.GetLedger?
    ensures ParamsOf(op) == ParamsLayout(op) && DistinctKeys(ParamsOf(op))
  {
    KeyNamesDistinct();
    Chain4([], {}, "seq", AsNumber(op.sequence), "domainid", AsText(op.domainid),
      "with_validator", AsFlag(op.withValidator), "with_leader", AsFlag(op.withLeader));
    assert [] + Optional("seq", AsNumber(op.sequence)) == Optional("seq", AsNumber(op.sequence));
  }

  lemma GetTransactionHistoryLayoutAgrees(op: Operation)
    requires op.GetTransactionHistory?
    ensures ParamsOf(op) == ParamsLayout(op) && DistinctKeys(ParamsOf(op))
  {
    KeyNamesDistinct();
    Chain5([], {}, "domainid", AsText(op.domainid), "hash", AsText(op.hash), "ledger_seq", AsNumber(op.ledgerSeq),
      "start", AsNumber(op.start), "limit", AsNumber(op.limit));
    assert [] + Optional("domainid", AsText(op.domainid)) == Optional("domainid", AsText(op.domainid));
  }

  lemma QueryLayoutAgrees(op: Operation)
    requires op.Query?
    ensures ParamsOf(op) == ParamsLayout(op) && DistinctKeys(ParamsOf(op))
  {
    KeyNamesDistinct();
    KeysOfTwo(Entry("page", Num(op.page)), Entry("page_size", Num(op.pageSize)));
    Chain7([Entry("page", Num(op.page)), Entry("page_size", Num(op.pageSize))], {"page", "page_size"},
      "bid", AsText(op.bid), "hash", AsText(op.hash), "tx_id", AsText(op.txId), "start_time", AsText(op.startTime),
      "end_time", AsText(op.endTime), "tx_type", AsNumber(op.txType), "ledger_seq", AsNumber(op.ledgerSeq));
  }

  lemma GetTransactionCacheLayoutAgrees(op: Operation)
    requires op.GetTransactionCache?
    ensures ParamsOf(op) == ParamsLayout(op) && DistinctKeys(ParamsOf(op))
  {
    KeyNamesDistinct();
    SingletonDistinct(Entry("pool_type", Num(op.poolType)));
    Chain4([Entry("pool_type", Num(op.poolType))], {"pool_type"}, "domainid", AsText(op.domainid),
      "limit", AsNumber(op.limit), "hash", AsText(op.hash), "address", AsText(op.accountAddress));
  }

  lemma QueryDiscardLayoutAgrees(op: Operation)
    requires op.QueryDiscard?
    ensures ParamsOf(op) == ParamsLayout(op) && DistinctKeys(ParamsOf(op))
  {
    KeyNamesDistinct();
    KeysOfTwo(Entry("page", Num(op.page)), Entry("page_size", Num(op.pageSize)));
    Chain1([Entry("page", Num(op.page)), Entry("page_size", Num(op.pageSize))], {"page", "page_size"},
      "hash", AsText(op.hash));
  }

  lemma CallContractLayoutAgrees(op: Operation)
    requires op.CallContract?
    ensures ParamsOf(op) == ParamsLayout(op) && DistinctKeys(ParamsOf(op))
  {
    KeyNamesDistinct();
    KeysOfTwo(Entry("contract_address", Str(op.contractAddress)), Entry("input", Str(op.input)));
    Chain6([Entry("contract_address", Str(op.contractAddress)), Entry("input", Str(op.input))],
      {"contract_address", "input"}, "domain_id", AsText(op.domainId), "contract_balance", AsText(op.contractBalance),
      "fee_limit", AsText(op.feeLimit), "gas_price", AsText(op.gasPrice), "source_address", AsText(op.sourceAddress),
      "code", AsText(op.code));
  }

  lemma CreateContractLayoutAgrees(op: Operation)
    requires op.CreateContract? || op.AsyncCreateContract?
    ensures ParamsOf(op) == ParamsLayout(op) && DistinctKeys(ParamsOf(op))
  {
    KeyNamesDistinct();
    KeysOfTwo(Entry("contract_code", Str(op.contractCode)), Entry("type", Num(op.contractType)));
    Chain1([Entry("contract_code", Str(op.contractCode)), Entry("type", Num(op.contractType))],
      {"contract_code", "type"}, "init_input", AsText(op.initInput));
  }


  /** `n` successive `params.k = v` steps with keys new to the record append
      the defined ones in order and keep the keys distinct. */
  lemma Chain1(r0: Record, known: set<string>, k1: string, o1: Option<Value>)
    requires DistinctKeys(r0) && Keys(r0) <= known
    requires k1 !in known
    ensures var r := Put(r0, k1, o1);
      r == r0 + Optional(k1, o1) && DistinctKeys(r) && Keys(r) <= known + {k1}
  {
    PutFresh(r0, k1, o1);
  }

  lemma Chain2(r0: Record, known: set<string>, k1: string, o1: Option<Value>, k2: string, o2: Option<Value>)
    requires DistinctKeys(r0) && Keys(r0) <= known
    requires k1 !in known && k2 !in known + {k1}
    ensures var r := Put(Put(r0, k1, o1), k2, o2);
      r == r0 + Optional(k1, o1) + Optional(k2, o2) && DistinctKeys(r) && Keys(r) <= known + {k1, k2}
  {
    Chain1(r0, known, k1, o1);
    PutFresh(Put(r0, k1, o1), k2, o2);
  }

  lemma Chain3(r0: Record, known: set<string>, k1: string, o1: Option<Value>, k2: string, o2: Option<Value>,
               k3: string, o3: Option<Value>)
    requires DistinctKeys(r0) && Keys(r0) <= known
    requires k1 !in known && k2 !in known + {k1} && k3 !in known + {k1, k2}
    ensures var r := Put(Put(Put(r0, k1, o1), k2, o2), k3, o3);
      && r == r0 + Optional(k1, o1) + Optional(k2, o2) + Optional(k3, o3)
      && DistinctKeys(r)
      && Keys(r) <= known + {k1, k2, k3}
  {
    Chain2(r0, known, k1, o1, k2, o2);
    PutFresh(Put(Put(r0, k1, o1), k2, o2), k3, o3);
  }

  lemma Chain4(r0: Record, known: set<string>, k1: string, o1: Option<Value>, k2: string, o2: Option<Value>,
               k3: string, o3: Option<Value>, k4: string, o4: Option<Value>)
    requires DistinctKeys(r0) && Keys(r0) <= known
    requires k1 !in known && k2 !in known + {k1} && k3 !in known + {k1, k2} && k4 !in known + {k1, k2, k3}
    ensures var r := Put(Put(Put(Put(r0, k1, o1), k2, o2), k3, o3), k4, o4);
      && r == r0 + Optional(k1, o1) + Optional(k2, o2) + Optional(k3, o3) + Optional(k4, o4)
      && DistinctKeys(r)
      && Keys(r) <= known + {k1, k2, k3, k4}
  {
    Chain3(r0, known, k1, o1, k2, o2, k3, o3);
    PutFresh(Put(Put(Put(r0, k1, o1), k2, o2), k3, o3), k4, o4);
  }

  lemma Chain5(r0: Record, known: set<string>, k1: string, o1: Option<Value>, k2: string, o2: Option<Value>,
               k3: string, o3: Option<Value>, k4: string, o4: Option<Value>, k5: string, o5: Option<Value>)
    requires DistinctKeys(r0) && Keys(r0) <= known
    requires k1 !in known
    requires k2 !in known + {k1}
    requires k3 !in known + {k1, k2}
    requires k4 !in known + {k1, k2, k3}
    requires k5 !in known + {k1, k2, k3, k4}
    ensures var r := Put(Put(Put(Put(Put(r0, k1, o1), k2, o2), k3, o3), k4, o4), k5, o5);
      && r == r0 + Optional(k1, o1) + Optional(k2, o2) + Optional(k3, o3) + Optional(k4, o4)
              + Optional(k5, o5)
      && DistinctKeys(r)
      && Keys(r) <= known + {k1, k2, k3, k4, k5}
  {
    Chain4(r0, known, k1, o1, k2, o2, k3, o3, k4, o4);
    PutFresh(Put(Put(Put(Put(r0, k1, o1), k2, o2), k3, o3), k4, o4), k5, o5);
  }

  lemma Chain6(r0: Record, known: set<string>, k1: string, o1: Option<Value>, k2: string, o2: Option<Value>,
               k3: string, o3: Option<Value>, k4: string, o4: Option<Value>, k5: string, o5: Option<Value>,
               k6: string, o6: Option<Value>)
    requires DistinctKeys(r0) && Keys(r0) <= known
    requires k1 !in known
    requires k2 !in known + {k1}
    requires k3 !in known + {k1, k2}
    requires k4 !in known + {k1, k2, k3}
    requires k5 !in known + {k1, k2, k3, k4}
    requires k6 !in known + {k1, k2, k3, k4, k5}
    ensures var r := Put(Put(Put(Put(Put(Put(r0, k1, o1), k2, o2), k3, o3), k4, o4), k5, o5), k6, o6);
      && r == r0 + Optional(k1, o1) + Optional(k2, o2) + Optional(k3, o3) + Optional(k4, o4)
              + Optional(k5, o5) + Optional(k6, o6)
      && DistinctKeys(r)
      && Keys(r) <= known + {k1, k2, k3, k4, k5, k6}
  {
    Chain5(r0, known, k1, o1, k2, o2, k3, o3, k4, o4, k5, o5);
    PutFresh(Put(Put(Put(Put(Put(r0, k1, o1), k2, o2), k3, o3), k4, o4), k5, o5), k6, o6);
  }

  lemma Chain7(r0: Record, known: set<string>, k1: string, o1: Option<Value>, k2: string, o2: Option<Value>,
               k3: string, o3: Option<Value>, k4: string, o4: Option<Value>, k5: string, o5: Option<Value>,
               k6: string, o6: Option<Value>, k7: string, o7: Option<Value>)
    requires DistinctKeys(r0) && Keys(r0) <= known
    requires k1 !in known
    requires k2 !in known + {k1}
    requires k3 !in known + {k1, k2}
    requires k4 !in known + {k1, k2, k3}
    requires k5 !in known + {k1, k2, k3, k4}
    requires k6 !in known + {k1, k2, k3, k4, k5}
    requires k7 !in known + {k1, k2, k3, k4, k5, k6}
    ensures var r :=
        Put(Put(Put(Put(Put(Put(Put(r0, k1, o1), k2, o2), k3, o3), k4, o4), k5, o5), k6, o6), k7, o7);
      && r == r0 + Optional(k1, o1) + Optional(k2, o2) + Optional(k3, o3) + Optional(k4, o4)
              + Optional(k5, o5) + Optional(k6, o6) + Optional(k7, o7)
      && DistinctKeys(r)
      && Keys(r) <= known + {k1, k2, k3, k4, k5, k6, k7}
  {
    Chain6(r0, known, k1, o1, k2, o2, k3, o3, k4, o4, k5, o5, k6, o6);
    PutFresh(Put(Put(Put(Put(Put(Put(r0, k1, o1), k2, o2), k3, o3), k4, o4), k5, o5), k6, o6), k7, o7);
  }

  /** A one-property record. */
  lemma SingletonDistinct(e: Entry)
    ensures Keys([e]) == {e.key} && DistinctKeys([e])
  {
    assert [e][1..] == [];
  }

  /** A two-property record with different keys. */
  lemma KeysOfTwo(a: Entry, b: Entry)
    requires a.key != b.key
    ensures Keys([a, b]) == {a.key, b.key} && DistinctKeys([a, b])
  {
    SingletonDistinct(b);
    assert [a, b][1..] == [b];
  }

  // ---------------------------------------------------------------------------
  // URLs, headers and responses

  /** A GET's URL is the endpoint, then `?` and a query only when some
      parameter is defined; the query reads back, with the form-urlencoded
      parser, as exactly the defined parameters in insertion order. */
  lemma GetUrlShape(apiUrl: string, secret: string, path: string, params: Record)
    ensures var pairs := DefinedPairs(params);
      var url := Url(GetRequest(apiUrl, secret, path, params));
      && (pairs == [] ==> url == Endpoint(apiUrl, path))
      && (pairs != [] ==> url == Endpoint(apiUrl, path) + "?" + FormUrlEncoded.Serialize(pairs)
                          && FormUrlEncoded.Parse(FormUrlEncoded.Serialize(pairs)) == Some(pairs))
  {
    FormUrlEncoded.SerializeEmptyIff(DefinedPairs(params));
    FormUrlEncoded.QueryRoundTrip(DefinedPairs(params));
  }

  /** There is no query exactly when every parameter is `undefined`. */
  lemma NoQueryIff(params: Record)
    ensures DefinedPairs(params) == [] <==> forall i | 0 <= i < |params| :: params[i].value.Undefined?
  {
    DefinedPairsExact(params);
  }

  /** A POST's URL never carries a query. */
  lemma PostUrlShape(apiUrl: string, secret: string, path: string, payload: Record)
    ensures Url(PostRequest(apiUrl, secret, path, payload)) == Endpoint(apiUrl, path)
  {
    FormUrlEncoded.SerializeEmptyIff([]);
  }

  /** `accept` is always sent; `api-secret` exactly when the secret is not
      empty, carrying the trimmed secret; `Content-Type: application/json`
      exactly on a POST; and nothing else. */
  lemma HeadersShape(secret: string, json: bool)
    ensures var h := RequestHeaders(secret, json);
      && "accept" in h && h["accept"] == "*/*"
      && ("api-secret" in h <==> secret != "")
      && (secret != "" ==> h["api-secret"] == Trim(secret))
      && ("Content-Type" in h <==> json)
      && (json ==> h["Content-Type"] == "application/json")
      && h.Keys <= {"accept", "api-secret", "Content-Type"}
  {
  }

  /** Only an ok status succeeds, with the body text unchanged; every failure
      carries the "Query request failed: " prefix. */
  lemma ClassifyShape(outcome: FetchOutcome)
    ensures Classify(outcome).Ok? <==> outcome.Response? && IsOkStatus(outcome.status)
    ensures Classify(outcome).Ok? ==> Classify(outcome).value == outcome.text
    ensures Classify(outcome).Err? ==> QueryFailed <= Classify(outcome).error
  {
  }

  /** A rejected `fetch` fails with the prefix followed by the network
      error's own message, or by "Unknown error" when something other than
      an `Error` was thrown. */
  lemma ClassifyMessages(outcome: FetchOutcome)
    ensures outcome.NetworkError? ==> Classify(outcome) == Err(QueryFailed + outcome.message)
    ensures outcome.NonErrorThrown? ==> Classify(outcome) == Err(QueryFailed + "Unknown error")
  {
  }

  /** The failure message of a response that is not ok: after its fixed
      words comes the decimal status, which reads back as the status, then
      the status text and the literal response body. */
  lemma StatusReadBack(status: int, statusText: string, text: string)
    requires !IsOkStatus(status)
    ensures var e := Classify(Response(status, statusText, text)).error;
      var lead := QueryFailed + "Request failed with status ";
      var digits := IntToDecimal(status);
      && lead <= e
      && e[|lead|..|lead| + |digits|] == digits
      && StringToNumber(digits) == Int(status)
      && e[|lead| + |digits|..] == ": " + statusText + "\nResponse: " + text
  {
    var lead := QueryFailed + "Request failed with status ";
    var digits := IntToDecimal(status);
    var e := Classify(Response(status, statusText, text)).error;
    var rest := ": " + statusText + "\nResponse: " + text;
    assert e == lead + digits + rest;
    assert e[|lead|..|lead| + |digits|] == digits;
    assert e[|lead| + |digits|..] == rest;
    NumberOfStringRoundTrip(status);
  }

  // ---------------------------------------------------------------------------
  // Operations end to end

  /** An operation sends nothing exactly when it is an account query with an
      empty address; it then throws "Account address is required" under the
      account prefix. */
  lemma PerformSendsUnlessNoAddress(apiUrl: string, secret: string, op: Operation,
                                    fetch: HttpRequest -> FetchOutcome)
    ensures var (sent, result) := Perform(apiUrl, secret, op, fetch);
      && (sent.None? <==> op.IsAccountQuery() && op.address == "")
      && (sent.None? ==> result == Err(AccountFailed + "Account address is required"))
  {
  }

  /** The request an operation sends: its route's method and endpoint, the
      documented parameter layout as query (GET) or body (POST), and the
      secret in the headers except for `apply`. */
  lemma RequestShape(apiUrl: string, secret: string, op: Operation)
    ensures var req := RequestOf(apiUrl, secret, op);
      var (verb, path) := RouteOf(op);
      && req.verb == verb
      && req.endpoint == Endpoint(apiUrl, path)
      && req.headers == RequestHeaders(if op.Apply? then "" else secret, verb == POST)
      && (verb == GET ==> req.search == DefinedPairs(ParamsLayout(op)) && req.body == None)
      && (verb == POST ==> req.search == [] && req.body == Some(ParamsLayout(op)))
  {
    ParamsOfLayout(op);
  }

  /** Every operation but `apply` has a path of its own, so its endpoint
      lies under `apiUrl + "/"`; `apply` posts to `apiUrl` itself. */
  lemma EndpointUnderApiUrl(apiUrl: string, op: Operation)
    ensures !op.Apply? ==> apiUrl + "/" <= Endpoint(apiUrl, RouteOf(op).1)
    ensures op.Apply? ==> Endpoint(apiUrl, RouteOf(op).1) == apiUrl
  {
    EndpointUnder(apiUrl, RouteOf(op).1);
  }

  lemma EndpointUnder(apiUrl: string, path: string)
    ensures path != "" ==> apiUrl + "/" <= Endpoint(apiUrl, path)
  {
    if path != "" {
      assert Endpoint(apiUrl, path) == (apiUrl + "/") + path;
    }
  }

  /** `apply` posts `{data}` to the client's URL itself, without a secret,
      whatever secret it is given. */
  lemma ApplyRequest(apiUrl: string, secret: string, data: Value)
    ensures var req := RequestOf(apiUrl, secret, Operation.Apply(data));
      && req.verb == POST
      && Url(req) == apiUrl
      && "api-secret" !in req.headers
      && req.body == Some([Entry("data", data)])
  {
    PostUrlShape(apiUrl, "", "", [Entry("data", data)]);
    HeadersShape("", true);
  }

  /** Once sent, an operation succeeds exactly on an ok response, returning
      its text; otherwise its error is the client's failure under the
      operation's own prefix: "Call contract failed: " for the methods from
      `callContract` on, "Get chain account failed: " for the account,
      ledger and transaction-pool methods, `apply` and `submitTransaction`. */
  lemma PerformOutcome(apiUrl: string, secret: string, op: Operation, fetch: HttpRequest -> FetchOutcome)
    requires !(op.IsAccountQuery() && op.address == "")
    ensures var (sent, result) := Perform(apiUrl, secret, op, fetch);
      var outcome := fetch(RequestOf(apiUrl, secret, op));
      && sent == Some(RequestOf(apiUrl, secret, op))
      && (result.Ok? <==> outcome.Response? && IsOkStatus(outcome.status))
      && (result.Ok? ==> result.value == outcome.text)
      && (result.Err? ==> result.error == ErrorPrefix(op) + Classify(outcome).error
                          && ErrorPrefix(op) + QueryFailed <= result.error)
  {
    ClassifyShape(fetch(RequestOf(apiUrl, secret, op)));
  }
}
