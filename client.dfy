/** The transport client of `src/client.ts`: `BitFactoryClient` turns one
    operation into one HTTP request (method, URL, headers, body), hands it to
    `fetch`, and classifies the response. `fetch` itself is a parameter: a
    function from the request to what came back. */
module Client {
  import opened Wrappers
  import opened JsValues
  import FormUrlEncoded

  // ---------------------------------------------------------------------------
  // Parameter records

  /** One property of a plain JavaScript object built as a parameter record. */
  datatype Entry = Entry(key: string, value: Value)

  /** A parameter record, its properties in insertion order. */
  type Record = seq<Entry>

  function Keys(r: Record): set<string> {
    if r == [] then {} else {r[0].key} + Keys(r[1..])
  }

  /** No key occurs twice: each property's key is absent from the rest of
      the record. */
  predicate DistinctKeys(r: Record) {
    r == [] || (r[0].key !in Keys(r[1..]) && DistinctKeys(r[1..]))
  }

  lemma {:induction false} KeysMembership(r: Record, k: string)
    ensures k in Keys(r) <==> exists i | 0 <= i < |r| :: r[i].key == k
  {
    if r != [] {
      KeysMembership(r[1..], k);
      if k in Keys(r[1..]) {
        var i :| 0 <= i < |r[1..]| && r[1..][i].key == k;
        assert r[i + 1].key == k;
      }
      if exists i | 0 <= i < |r| :: r[i].key == k {
        var i :| 0 <= i < |r| && r[i].key == k;
        if i > 0 { assert r[1..][i - 1].key == k; }
      }
    }
  }

  /** `record[k] = v`: replaces the value of an existing property in place,
      or adds the property at the end. */
  function Assign(r: Record, k: string, v: Value): Record {
    if r == [] then [Entry(k, v)]
    else if r[0].key == k then [Entry(k, v)] + r[1..]
    else [r[0]] + Assign(r[1..], k, v)
  }

  /** Assignment adds `k` to the keys; a new key goes at the end, an existing
      one keeps its position and gets the new value, and every property
      under another key keeps its place and its value. */
  lemma {:induction false} AssignSemantics(r: Record, k: string, v: Value)
    ensures Keys(Assign(r, k, v)) == Keys(r) + {k}
    ensures k !in Keys(r) ==> Assign(r, k, v) == r + [Entry(k, v)]
    ensures k in Keys(r) ==>
      && |Assign(r, k, v)| == |r|
      && (forall i | 0 <= i < |r| :: Assign(r, k, v)[i].key == r[i].key)
      && (forall i | 0 <= i < |r| && r[i].key != k :: Assign(r, k, v)[i] == r[i])
      && Entry(k, v) in Assign(r, k, v)
  {
    if r != [] && r[0].key != k {
      AssignSemantics(r[1..], k, v);
      assert Assign(r, k, v) == [r[0]] + Assign(r[1..], k, v);
      if k !in Keys(r) {
        assert [r[0]] + (r[1..] + [Entry(k, v)]) == r + [Entry(k, v)];
      }
      if k in Keys(r) {
        forall i | 0 <= i < |r|
          ensures Assign(r, k, v)[i].key == r[i].key
          ensures r[i].key != k ==> Assign(r, k, v)[i] == r[i]
        {
          if i > 0 { assert Assign(r, k, v)[i] == Assign(r[1..], k, v)[i - 1]; }
        }
      }
    }
  }

  /** Distinct keys means that no two positions hold the same key. */
  lemma {:induction false} DistinctKeysIndices(r: Record)
    ensures DistinctKeys(r) <==> forall i, j | 0 <= i < j < |r| :: r[i].key != r[j].key
  {
    if r != [] {
      DistinctKeysIndices(r[1..]);
      KeysMembership(r[1..], r[0].key);
      if DistinctKeys(r) {
        forall i, j | 0 <= i < j < |r| ensures r[i].key != r[j].key {
          if i == 0 {
            assert r[j].key == r[1..][j - 1].key;
          } else {
            assert r[1..][i - 1].key != r[1..][j - 1].key;
          }
        }
      }
      if forall i, j | 0 <= i < j < |r| :: r[i].key != r[j].key {
        forall i, j | 0 <= i < j < |r[1..]| ensures r[1..][i].key != r[1..][j].key {
          assert r[1..][i] == r[i + 1] && r[1..][j] == r[j + 1];
        }
        forall j | 0 <= j < |r[1..]| ensures r[1..][j].key != r[0].key {
          assert r[1..][j] == r[j + 1];
        }
      }
    }
  }

  /** Appending a property with a new key keeps the keys distinct. */
  lemma {:induction false} AppendKeepsDistinct(r: Record, e: Entry)
    requires DistinctKeys(r) && e.key !in Keys(r)
    ensures DistinctKeys(r + [e]) && Keys(r + [e]) == Keys(r) + {e.key}
  {
    if r == [] {
      assert [] + [e] == [e] && [e][1..] == [];
    } else {
      assert (r + [e])[0] == r[0];
      assert (r + [e])[1..] == r[1..] + [e];
      AppendKeepsDistinct(r[1..], e);
    }
  }

  /** Assigning a new key to a record with distinct keys keeps them distinct. */
  lemma AssignKeepsDistinct(r: Record, k: string, v: Value)
    requires DistinctKeys(r) && k !in Keys(r)
    ensures DistinctKeys(Assign(r, k, v))
  {
    AssignSemantics(r, k, v);
    AppendKeepsDistinct(r, Entry(k, v));
  }

  /** The properties of a record whose value is not `undefined`, each value
      converted with `String(value)`, in insertion order: what the `forEach`
      loop of `sendGet` appends to its `URLSearchParams`. */
  function DefinedPairs(params: Record): seq<(string, string)> {
    if params == [] then []
    else
      (if params[0].value.Undefined? then [] else [(params[0].key, ToJsString(params[0].value))])
      + DefinedPairs(params[1..])
  }

  /** Filtering distributes over concatenation: the pairs keep the order of
      the properties they come from. */
  lemma {:induction false} DefinedPairsAppend(a: Record, b: Record)
    ensures DefinedPairs(a + b) == DefinedPairs(a) + DefinedPairs(b)
  {
    if a == [] {
      assert a + b == b;
    } else {
      assert (a + b)[0] == a[0];
      assert (a + b)[1..] == a[1..] + b;
      DefinedPairsAppend(a[1..], b);
    }
  }

  /** Exactly the defined properties reach the query: `0`, `false`, `null`
      and `""` are kept, `undefined` is dropped. */
  lemma {:induction false} DefinedPairsExact(params: Record)
    ensures |DefinedPairs(params)| <= |params|
    ensures |DefinedPairs(params)| == |params| <==>
      forall i | 0 <= i < |params| :: !params[i].value.Undefined?
    ensures forall p | p in DefinedPairs(params) ::
      exists i | 0 <= i < |params| ::
        !params[i].value.Undefined? && p == (params[i].key, ToJsString(params[i].value))
    ensures forall i | 0 <= i < |params| && !params[i].value.Undefined? ::
      (params[i].key, ToJsString(params[i].value)) in DefinedPairs(params)
  {
    if params != [] {
      DefinedPairsExact(params[1..]);
      var rest := DefinedPairs(params[1..]);
      forall i | 0 <= i < |params| && !params[i].value.Undefined?
        ensures (params[i].key, ToJsString(params[i].value)) in DefinedPairs(params)
      {
        if i > 0 {
          assert params[1..][i - 1] == params[i];
        }
      }
      forall p | p in DefinedPairs(params)
        ensures exists i | 0 <= i < |params| ::
          !params[i].value.Undefined? && p == (params[i].key, ToJsString(params[i].value))
      {
        if p in rest {
          var i :| 0 <= i < |params[1..]| && !params[1..][i].value.Undefined?
            && p == (params[1..][i].key, ToJsString(params[1..][i].value));
          assert params[i + 1] == params[1..][i];
        } else {
          assert !params[0].value.Undefined?;
        }
      }
      if forall i | 0 <= i < |params| :: !params[i].value.Undefined? {
        assert forall i | 0 <= i < |params[1..]| :: !params[1..][i].value.Undefined? by {
          forall i | 0 <= i < |params[1..]| ensures !params[1..][i].value.Undefined? {
            assert params[1..][i] == params[i + 1];
          }
        }
      } else {
        var i :| 0 <= i < |params| && params[i].value.Undefined?;
        if i > 0 { assert params[1..][i - 1].value.Undefined?; }
      }
    }
  }

  // ---------------------------------------------------------------------------
  // Requests and responses

  datatype HttpMethod = GET | POST

  /** What is handed to `fetch`: the method, the endpoint URL, the entries
      of the `URLSearchParams` built for a GET, the headers, and for a POST
      the parameter record given to `JSON.stringify` as the body. */
  datatype HttpRequest = HttpRequest(
    verb: HttpMethod,
    endpoint: string,
    search: seq<(string, string)>,
    headers: map<string, string>,
    body: Option<Record>)

  /** The URL string `fetch` is called with: the endpoint, then `?` and the
      serialized search entries when that serialization is not empty. */
  function Url(req: HttpRequest): string {
    var query := FormUrlEncoded.Serialize(req.search);
    req.endpoint + (if query == "" then "" else "?" + query)
  }

  /** What `fetch` and `response.text()` produced: a response, a rejection
      with an `Error` (network failure), or a rejection with something that
      is not an `Error`. */
  datatype FetchOutcome =
    | Response(status: int, statusText: string, text: string)
    | NetworkError(message: string)
    | NonErrorThrown

  const QueryFailed := "Query request failed: "
  const AccountFailed := "Get chain account failed: "
  const ContractFailed := "Call contract failed: "

  /** The Fetch Standard's ok status: 200 to 299. */
  predicate IsOkStatus(status: int) {
    200 <= status <= 299
  }

  /** The headers `sendGet` (`json` false) and `sendPost` (`json` true)
      build. */
  function RequestHeaders(secret: string, json: bool): map<string, string> {
    var h := map["accept" := "*/*"];
    var h := if json then h["Content-Type" := "application/json"] else h;
    if secret != "" then h["api-secret" := Trim(secret)] else h
  }

  /** `apiUrl`, then `/path` when the path is non-empty. */
  function Endpoint(apiUrl: string, path: string): string {
    apiUrl + (if path == "" then "" else "/" + path)
  }

  function GetRequest(apiUrl: string, secret: string, path: string, params: Record): HttpRequest {
    HttpRequest(GET, Endpoint(apiUrl, path), DefinedPairs(params), RequestHeaders(secret, false), None)
  }

  function PostRequest(apiUrl: string, secret: string, path: string, payload: Record): HttpRequest {
    HttpRequest(POST, Endpoint(apiUrl, path), [], RequestHeaders(secret, true), Some(payload))
  }

  /** How `sendGet` and `sendPost` classify what `fetch` gave back: the body
      text on an ok status, otherwise the thrown error's message under the
      "Query request failed: " prefix of their `catch`. */
  function Classify(outcome: FetchOutcome): Result<string, string> {
    match outcome
    case Response(status, statusText, text) =>
      if IsOkStatus(status) then Ok(text)
      else
        var message := "Request failed with status " + IntToDecimal(status) + ": " + statusText
          + "\nResponse: " + text;
        Err(QueryFailed + message)
    case NetworkError(message) => Err(QueryFailed + message)
    case NonErrorThrown => Err(QueryFailed + "Unknown error")
  }

  // ---------------------------------------------------------------------------
  // Operations

  /** One call of a `BitFactoryClient` operation method, with its arguments
      (`apiSecret` aside). */
  datatype Operation =
    | GetAccount(address: string, domainid: Option<string>, height: Option<JsNumber>, key: Option<string>)
    | GetAccountBase(address: string, domainid: Option<string>)
    | GetAccountMetaData(address: string, domainid: Option<string>, key: Option<string>)
    | GetLedger(sequence: Option<JsNumber>, domainid: Option<string>, withValidator: Option<bool>,
                withLeader: Option<bool>)
    | GetTransactionHistory(domainid: Option<string>, hash: Option<string>, ledgerSeq: Option<JsNumber>,
                            start: Option<JsNumber>, limit: Option<JsNumber>)
    | Query(bid: Option<string>, hash: Option<string>, txId: Option<string>, startTime: Option<string>,
            endTime: Option<string>, txType: Option<JsNumber>, page: JsNumber, pageSize: JsNumber,
            ledgerSeq: Option<JsNumber>)
    | GetTransactionCache(poolType: JsNumber, domainid: Option<string>, limit: Option<JsNumber>,
                          hash: Option<string>, accountAddress: Option<string>)
    | QueryDiscard(hash: Option<string>, page: JsNumber, pageSize: JsNumber)
    | GetTxCacheSize
    | Apply(data: Value)
    | SubmitTransaction(items: Value)
    | CallContract(contractAddress: string, domainId: Option<string>, input: string,
                   contractBalance: Option<string>, feeLimit: Option<string>, gasPrice: Option<string>,
                   sourceAddress: Option<string>, code: Option<string>)
    | CreateContract(contractCode: string, initInput: Option<string>, contractType: JsNumber)
    | AsyncCreateContract(contractCode: string, initInput: Option<string>, contractType: JsNumber)
    | QueryContractAddress(deployHash: string)
    | InvokeContract(operations: Value)
    | AsyncInvokeContract(operations: Value)
    | QueryByTxId(id: string)
    | TestTransaction(items: Value)
  {
    predicate IsAccountQuery() {
      GetAccount? || GetAccountBase? || GetAccountMetaData?
    }

    /** The methods whose `catch` says "Call contract failed". */
    predicate IsContractOperation() {
      || CallContract? || CreateContract? || AsyncCreateContract? || QueryContractAddress?
      || InvokeContract? || AsyncInvokeContract? || QueryByTxId? || TestTransaction?
    }
  }

  /** An optional string, number or boolean argument as a property value. */
  function AsText(o: Option<string>): Option<Value> {
    if o.Some? then Some(Str(o.value)) else None
  }

  function AsNumber(o: Option<JsNumber>): Option<Value> {
    if o.Some? then Some(Num(o.value)) else None
  }

  function AsFlag(o: Option<bool>): Option<Value> {
    if o.Some? then Some(Bool(o.value)) else None
  }

  /** The property an optional argument contributes: none when it is
      `undefined`. */
  function Optional(k: string, o: Option<Value>): Record {
    if o.Some? then [Entry(k, o.value)] else []
  }

  /** The layout of each operation's parameter record: its required
      properties first, then one property for each optional argument that is
      not `undefined`, in argument order. */
  function ParamsLayout(op: Operation): Record {
    match op
    case GetAccount(address, domainid, height, key) => GetAccountLayout(address, domainid, height, key)
    case GetAccountBase(address, domainid) => GetAccountBaseLayout(address, domainid)
    case GetAccountMetaData(address, domainid, key) => GetAccountMetaDataLayout(address, domainid, key)
    case GetLedger(sequence, domainid, withValidator, withLeader) =>
      GetLedgerLayout(sequence, domainid, withValidator, withLeader)
    case GetTransactionHistory(domainid, hash, ledgerSeq, start, limit) =>
      GetTransactionHistoryLayout(domainid, hash, ledgerSeq, start, limit)
    case Query(bid, hash, txId, startTime, endTime, txType, page, pageSize, ledgerSeq) =>
      QueryLayout(bid, hash, txId, startTime, endTime, txType, page, pageSize, ledgerSeq)
    case GetTransactionCache(poolType, domainid, limit, hash, accountAddress) =>
      GetTransactionCacheLayout(poolType, domainid, limit, hash, accountAddress)
    case QueryDiscard(hash, page, pageSize) => QueryDiscardLayout(hash, page, pageSize)
    case GetTxCacheSize => []
    case Apply(data) => [Entry("data", data)]
    case SubmitTransaction(items) => [Entry("items", items)]
    case CallContract(contractAddress, domainId, input, contractBalance, feeLimit, gasPrice, sourceAddress, code) =>
      CallContractLayout(contractAddress, domainId, input, contractBalance, feeLimit, gasPrice, sourceAddress, code)
    case CreateContract(contractCode, initInput, contractType) =>
      CreateContractLayout(contractCode, initInput, contractType)
    case AsyncCreateContract(contractCode, initInput, contractType) =>
      CreateContractLayout(contractCode, initInput, contractType)
    case QueryContractAddress(deployHash) => [Entry("hash", Str(deployHash))]
    case InvokeContract(operations) => [Entry("operations", operations)]
    case AsyncInvokeContract(operations) => [Entry("operations", operations)]
    case QueryByTxId(id) => [Entry("tx_id", Str(id))]
    case TestTransaction(items) => [Entry("items", items)]
  }

  function GetAccountLayout(address: string, domainid: Option<string>, height: Option<JsNumber>,
                            key: Option<string>): Record {
    [Entry("address", Str(address))] + Optional("domainid", AsText(domainid)) + Optional("height", AsNumber(height))
      + Optional("key", AsText(key))
  }

  function GetAccountBaseLayout(address: string, domainid: Option<string>): Record {
    [Entry("address", Str(address))] + Optional("domainid", AsText(domainid))
  }

  function GetAccountMetaDataLayout(address: string, domainid: Option<string>, key: Option<string>): Record {
    [Entry("address", Str(address))] + Optional("domainid", AsText(domainid)) + Optional("key", AsText(key))
  }

  function GetLedgerLayout(sequence: Option<JsNumber>, domainid: Option<string>, withValidator: Option<bool>,
                           withLeader: Option<bool>): Record {
    Optional("seq", AsNumber(sequence)) + Optional("domainid", AsText(domainid))
      + Optional("with_validator", AsFlag(withValidator)) + Optional("with_leader", AsFlag(withLeader))
  }

  function GetTransactionHistoryLayout(domainid: Option<string>, hash: Option<string>,
                                       ledgerSeq: Option<JsNumber>, start: Option<JsNumber>,
                                       limit: Option<JsNumber>): Record {
    Optional("domainid", AsText(domainid)) + Optional("hash", AsText(hash))
      + Optional("ledger_seq", AsNumber(ledgerSeq)) + Optional("start", AsNumber(start))
      + Optional("limit", AsNumber(limit))
  }

  function QueryLayout(bid: Option<string>, hash: Option<string>, txId: Option<string>,
                       startTime: Option<string>, endTime: Option<string>, txType: Option<JsNumber>,
                       page: JsNumber, pageSize: JsNumber, ledgerSeq: Option<JsNumber>): Record {
    [Entry("page", Num(page)), Entry("page_size", Num(pageSize))] + Optional("bid", AsText(bid))
      + Optional("hash", AsText(hash)) + Optional("tx_id", AsText(txId)) + Optional("start_time", AsText(startTime))
      + Optional("end_time", AsText(endTime)) + Optional("tx_type", AsNumber(txType))
      + Optional("ledger_seq", AsNumber(ledgerSeq))
  }

  function GetTransactionCacheLayout(poolType: JsNumber, domainid: Option<string>, limit: Option<JsNumber>,
                                     hash: Option<string>, accountAddress: Option<string>): Record {
    [Entry("pool_type", Num(poolType))] + Optional("domainid", AsText(domainid)) + Optional("limit", AsNumber(limit))
      + Optional("hash", AsText(hash)) + Optional("address", AsText(accountAddress))
  }

  function QueryDiscardLayout(hash: Option<string>, page: JsNumber, pageSize: JsNumber): Record {
    [Entry("page", Num(page)), Entry("page_size", Num(pageSize))] + Optional("hash", AsText(hash))
  }

  function CallContractLayout(contractAddress: string, domainId: Option<string>, input: string,
                              contractBalance: Option<string>, feeLimit: Option<string>,
                              gasPrice: Option<string>, sourceAddress: Option<string>, code: Option<string>): Record {
    [Entry("contract_address", Str(contractAddress)), Entry("input", Str(input))]
      + Optional("domain_id", AsText(domainId)) + Optional("contract_balance", AsText(contractBalance))
      + Optional("fee_limit", AsText(feeLimit)) + Optional("gas_price", AsText(gasPrice))
      + Optional("source_address", AsText(sourceAddress)) + Optional("code", AsText(code))
  }

  function CreateContractLayout(contractCode: string, initInput: Option<string>, contractType: JsNumber): Record {
    [Entry("contract_code", Str(contractCode)), Entry("type", Num(contractType))]
      + Optional("init_input", AsText(initInput))
  }


  /** `if (o !== undefined) params[k] = o`. */
  function Put(r: Record, k: string, o: Option<Value>): Record {
    if o.Some? then Assign(r, k, o.value) else r
  }

  /** Setting a key the record does not have yet appends it, if defined,
      and keeps the keys distinct. */
  lemma PutFresh(r: Record, k: string, o: Option<Value>)
    requires k !in Keys(r)
    ensures Put(r, k, o) == r + Optional(k, o)
    ensures Keys(Put(r, k, o)) == Keys(r) + (if o.Some? then {k} else {})
    ensures DistinctKeys(r) ==> DistinctKeys(Put(r, k, o))
  {
    if o.Some? {
      AssignSemantics(r, k, o.value);
      if DistinctKeys(r) {
        AssignKeepsDistinct(r, k, o.value);
      }
    } else {
      assert r + [] == r;
    }
  }

  /** The parameter record each operation method builds: the object literal
      with its required properties, then `params.k = v` for each optional
      argument that is not `undefined`, in the order of the source. */
  function ParamsOf(op: Operation): Record {
    match op
    case GetAccount(address, domainid, height, key) => GetAccountParams(address, domainid, height, key)
    case GetAccountBase(address, domainid) => GetAccountBaseParams(address, domainid)
    case GetAccountMetaData(address, domainid, key) => GetAccountMetaDataParams(address, domainid, key)
    case GetLedger(sequence, domainid, withValidator, withLeader) =>
      GetLedgerParams(sequence, domainid, withValidator, withLeader)
    case GetTransactionHistory(domainid, hash, ledgerSeq, start, limit) =>
      GetTransactionHistoryParams(domainid, hash, ledgerSeq, start, limit)
    case Query(bid, hash, txId, startTime, endTime, txType, page, pageSize, ledgerSeq) =>
      QueryParams(bid, hash, txId, startTime, endTime, txType, page, pageSize, ledgerSeq)
    case GetTransactionCache(poolType, domainid, limit, hash, accountAddress) =>
      GetTransactionCacheParams(poolType, domainid, limit, hash, accountAddress)
    case QueryDiscard(hash, page, pageSize) => QueryDiscardParams(hash, page, pageSize)
    case GetTxCacheSize => []
    case Apply(data) => [Entry("data", data)]
    case SubmitTransaction(items) => [Entry("items", items)]
    case CallContract(contractAddress, domainId, input, contractBalance, feeLimit, gasPrice, sourceAddress, code) =>
      CallContractParams(contractAddress, domainId, input, contractBalance, feeLimit, gasPrice, sourceAddress, code)
    case CreateContract(contractCode, initInput, contractType) =>
      CreateContractParams(contractCode, initInput, contractType)
    case AsyncCreateContract(contractCode, initInput, contractType) =>
      CreateContractParams(contractCode, initInput, contractType)
    case QueryContractAddress(deployHash) => [Entry("hash", Str(deployHash))]
    case InvokeContract(operations) => [Entry("operations", operations)]
    case AsyncInvokeContract(operations) => [Entry("operations", operations)]
    case QueryByTxId(id) => [Entry("tx_id", Str(id))]
    case TestTransaction(items) => [Entry("items", items)]
  }

  function GetAccountParams(address: string, domainid: Option<string>, height: Option<JsNumber>,
                            key: Option<string>): Record {
    var r := Put([Entry("address", Str(address))], "domainid", AsText(domainid));
      var r := Put(r, "height", AsNumber(height));
      Put(r, "key", AsText(key))
  }

  function GetAccountBaseParams(address: string, domainid: Option<string>): Record {
    Put([Entry("address", Str(address))], "domainid", AsText(domainid))
  }

  function GetAccountMetaDataParams(address: string, domainid: Option<string>, key: Option<string>): Record {
    var r := Put([Entry("address", Str(address))], "domainid", AsText(domainid));
      Put(r, "key", AsText(key))
  }

  function GetLedgerParams(sequence: Option<JsNumber>, domainid: Option<string>, withValidator: Option<bool>,
                           withLeader: Option<bool>): Record {
    var r := Put([], "seq", AsNumber(sequence));
      var r := Put(r, "domainid", AsText(domainid));
      var r := Put(r, "with_validator", AsFlag(withValidator));
      Put(r, "with_leader", AsFlag(withLeader))
  }

  function GetTransactionHistoryParams(domainid: Option<string>, hash: Option<string>,
                                       ledgerSeq: Option<JsNumber>, start: Option<JsNumber>,
                                       limit: Option<JsNumber>): Record {
    var r := Put([], "domainid", AsText(domainid));
      var r := Put(r, "hash", AsText(hash));
      var r := Put(r, "ledger_seq", AsNumber(ledgerSeq));
      var r := Put(r, "start", AsNumber(start));
      Put(r, "limit", AsNumber(limit))
  }

  function QueryParams(bid: Option<string>, hash: Option<string>, txId: Option<string>,
                       startTime: Option<string>, endTime: Option<string>, txType: Option<JsNumber>,
                       page: JsNumber, pageSize: JsNumber, ledgerSeq: Option<JsNumber>): Record {
    var r := [Entry("page", Num(page)), Entry("page_size", Num(pageSize))];
      var r := Put(r, "bid", AsText(bid));
      var r := Put(r, "hash", AsText(hash));
      var r := Put(r, "tx_id", AsText(txId));
      var r := Put(r, "start_time", AsText(startTime));
      var r := Put(r, "end_time", AsText(endTime));
      var r := Put(r, "tx_type", AsNumber(txType));
      Put(r, "ledger_seq", AsNumber(ledgerSeq))
  }

  function GetTransactionCacheParams(poolType: JsNumber, domainid: Option<string>, limit: Option<JsNumber>,
                                     hash: Option<string>, accountAddress: Option<string>): Record {
    var r := Put([Entry("pool_type", Num(poolType))], "domainid", AsText(domainid));
      var r := Put(r, "limit", AsNumber(limit));
      var r := Put(r, "hash", AsText(hash));
      Put(r, "address", AsText(accountAddress))
  }

  function QueryDiscardParams(hash: Option<string>, page: JsNumber, pageSize: JsNumber): Record {
    Put([Entry("page", Num(page)), Entry("page_size", Num(pageSize))], "hash", AsText(hash))
  }

  function CallContractParams(contractAddress: string, domainId: Option<string>, input: string,
                              contractBalance: Option<string>, feeLimit: Option<string>,
                              gasPrice: Option<string>, sourceAddress: Option<string>, code: Option<string>): Record {
    var r := [Entry("contract_address", Str(contractAddress)), Entry("input", Str(input))];
      var r := Put(r, "domain_id", AsText(domainId));
      var r := Put(r, "contract_balance", AsText(contractBalance));
      var r := Put(r, "fee_limit", AsText(feeLimit));
      var r := Put(r, "gas_price", AsText(gasPrice));
      var r := Put(r, "source_address", AsText(sourceAddress));
      Put(r, "code", AsText(code))
  }

  function CreateContractParams(contractCode: string, initInput: Option<string>, contractType: JsNumber): Record {
    Put([Entry("contract_code", Str(contractCode)), Entry("type", Num(contractType))], "init_input", AsText(initInput))
  }


  /** The HTTP method and path each operation method uses; only `apply`
      posts to the client's URL itself. */
  function RouteOf(op: Operation): (route: (HttpMethod, string))
    ensures route.1 == "" <==> op.Apply?
  {
    match op
    case GetAccount(_, _, _, _) => (GET, "getAccount")
    case GetAccountBase(_, _) => (GET, "getAccountBase")
    case GetAccountMetaData(_, _, _) => (GET, "getAccountMetaData")
    case GetLedger(_, _, _, _) => (GET, "getLedger")
    case GetTransactionHistory(_, _, _, _, _) => (GET, "getTransactionHistory")
    case Query(_, _, _, _, _, _, _, _, _) => (GET, "query")
    case GetTransactionCache(_, _, _, _, _) => (GET, "getTransactionCache")
    case QueryDiscard(_, _, _) => (GET, "query/discard")
    case GetTxCacheSize => (GET, "getTxCacheSize")
    case Apply(_) => (POST, "")
    case SubmitTransaction(_) => (POST, "submitTransaction?lang=zh-cn")
    case CallContract(_, _, _, _, _, _, _, _) => (POST, "callContract")
    case CreateContract(_, _, _) => (POST, "account/create/contract")
    case AsyncCreateContract(_, _, _) => (POST, "account/asyn/create/contract")
    case QueryContractAddress(_) => (GET, "tx/query/contractAddress")
    case InvokeContract(_) => (POST, "tx/invoke/contract")
    case AsyncInvokeContract(_) => (POST, "tx/invoke/contract")
    case QueryByTxId(_) => (GET, "tx/queryByTxId")
    case TestTransaction(_) => (POST, "testTransaction")
  }

  /** A `catch` block that re-throws `new Error(prefix + error.message)`. */
  function Rethrow(prefix: string, r: Result<string, string>): Result<string, string> {
    match r
    case Ok(_) => r
    case Err(message) => Err(prefix + message)
  }

  /** The prefix an operation method's `catch` puts before the message. */
  function ErrorPrefix(op: Operation): string {
    if op.IsContractOperation() then ContractFailed else AccountFailed
  }

  /** The request an operation sends; `apply` passes no secret. */
  function RequestOf(apiUrl: string, secret: string, op: Operation): HttpRequest {
    var (verb, path) := RouteOf(op);
    var secret := if op.Apply? then "" else secret;
    match verb
    case GET => GetRequest(apiUrl, secret, path, ParamsOf(op))
    case POST => PostRequest(apiUrl, secret, path, ParamsOf(op))
  }

  /** What an operation method does: the request it sends, if any, and what
      it returns or throws. The account queries refuse an empty address
      before sending anything. */
  function Perform(apiUrl: string, secret: string, op: Operation, fetch: HttpRequest -> FetchOutcome)
    : (Option<HttpRequest>, Result<string, string>)
  {
    if op.IsAccountQuery() && op.address == "" then
      (None, Err(AccountFailed + "Account address is required"))
    else
      var req := RequestOf(apiUrl, secret, op);
      (Some(req), Rethrow(ErrorPrefix(op), Classify(fetch(req))))
  }

  // ---------------------------------------------------------------------------
  // The client

  class BitFactoryClient {
    const apiUrl: string

    constructor(apiUrl: string)
      ensures this.apiUrl == apiUrl
    {
      this.apiUrl := apiUrl;
    }

    /** `sendGet`: builds the headers and the endpoint, appends each defined
        parameter to the search entries, sends the request and classifies
        the response. */
    method SendGet(secret: string, path: string, params: Record, fetch: HttpRequest -> FetchOutcome)
      returns (req: HttpRequest, result: Result<string, string>)
      ensures req == GetRequest(apiUrl, secret, path, params)
      ensures result == Classify(fetch(req))
    {
      var headers := map["accept" := "*/*"];
      if secret != "" {
        headers := headers["api-secret" := Trim(secret)];
      }
      var url := apiUrl;
      if path != "" {
        url := url + "/" + path;
      }
      var search := DefinedQuery(params);
      assert headers == RequestHeaders(secret, false);
      req := HttpRequest(GET, url, search, headers, None);
      result := Classify(fetch(req));
    }

    /** The `forEach` of `sendGet`: every property whose value is not
        `undefined` is appended to the query as `String(value)`. */
    static method DefinedQuery(params: Record) returns (query: seq<(string, string)>)
      ensures query == DefinedPairs(params)
    {
      query := [];
      var i := 0;
      while i < |params|
        invariant 0 <= i <= |params|
        invariant query == DefinedPairs(params[..i])
      {
        DefinedPairsAppend(params[..i], [params[i]]);
        assert params[..i + 1] == params[..i] + [params[i]];
        if !params[i].value.Undefined? {
          query := query + [(params[i].key, ToJsString(params[i].value))];
        }
        i := i + 1;
      }
      assert params[..i] == params;
    }

    /** `sendPost`: the same headers plus `Content-Type`, the URL without a
        query, and the given body unchanged. */
    method SendPost(secret: string, path: string, payload: Record, fetch: HttpRequest -> FetchOutcome)
      returns (req: HttpRequest, result: Result<string, string>)
      ensures req == PostRequest(apiUrl, secret, path, payload)
      ensures result == Classify(fetch(req))
    {
      var headers := map["accept" := "*/*", "Content-Type" := "application/json"];
      if secret != "" {
        headers := headers["api-secret" := Trim(secret)];
      }
      var url := apiUrl;
      if path != "" {
        url := url + "/" + path;
      }
      assert headers == RequestHeaders(secret, true);
      req := HttpRequest(POST, url, [], headers, Some(payload));
      result := Classify(fetch(req));
    }

    method GetAccount(secret: string, address: string, domainid: Option<string>, height: Option<JsNumber>,
                      key: Option<string>, fetch: HttpRequest -> FetchOutcome)
      returns (sent: Option<HttpRequest>, result: Result<string, string>)
      ensures (sent, result) == Perform(apiUrl, secret, Operation.GetAccount(address, domainid, height, key), fetch)
    {
      if address == "" {
        return None, Err(AccountFailed + "Account address is required");
      }
      var params := [Entry("address", Str(address))];
      params := Put(params, "domainid", AsText(domainid));
      params := Put(params, "height", AsNumber(height));
      params := Put(params, "key", AsText(key));
      var req, r := SendGet(secret, "getAccount", params, fetch);
      assert req == RequestOf(apiUrl, secret, Operation.GetAccount(address, domainid, height, key));
      sent, result := Some(req), Rethrow(AccountFailed, r);
    }

    method GetAccountBase(secret: string, address: string, domainid: Option<string>,
                          fetch: HttpRequest -> FetchOutcome)
      returns (sent: Option<HttpRequest>, result: Result<string, string>)
      ensures (sent, result) == Perform(apiUrl, secret, Operation.GetAccountBase(address, domainid), fetch)
    {
      if address == "" {
        return None, Err(AccountFailed + "Account address is required");
      }
      var params := [Entry("address", Str(address))];
      params := Put(params, "domainid", AsText(domainid));
      var req, r := SendGet(secret, "getAccountBase", params, fetch);
      assert req == RequestOf(apiUrl, secret, Operation.GetAccountBase(address, domainid));
      sent, result := Some(req), Rethrow(AccountFailed, r);
    }

    method GetAccountMetaData(secret: string, address: string, domainid: Option<string>, key: Option<string>,
                              fetch: HttpRequest -> FetchOutcome)
      returns (sent: Option<HttpRequest>, result: Result<string, string>)
      ensures (sent, result) == Perform(apiUrl, secret, Operation.GetAccountMetaData(address, domainid, key), fetch)
    {
      if address == "" {
        return None, Err(AccountFailed + "Account address is required");
      }
      var params := [Entry("address", Str(address))];
      params := Put(params, "domainid", AsText(domainid));
      params := Put(params, "key", AsText(key));
      var req, r := SendGet(secret, "getAccountMetaData", params, fetch);
      assert req == RequestOf(apiUrl, secret, Operation.GetAccountMetaData(address, domainid, key));
      sent, result := Some(req), Rethrow(AccountFailed, r);
    }

    method GetLedger(secret: string, sequence: Option<JsNumber>, domainid: Option<string>,
                     withValidator: Option<bool>, withLeader: Option<bool>, fetch: HttpRequest -> FetchOutcome)
      returns (sent: Option<HttpRequest>, result: Result<string, string>)
      ensures (sent, result)
           == Perform(apiUrl, secret, Operation.GetLedger(sequence, domainid, withValidator, withLeader), fetch)
    {
      var params: Record := [];
      params := Put(params, "seq", AsNumber(sequence));
      params := Put(params, "domainid", AsText(domainid));
      params := Put(params, "with_validator", AsFlag(withValidator));
      params := Put(params, "with_leader", AsFlag(withLeader));
      var req, r := SendGet(secret, "getLedger", params, fetch);
      assert req == RequestOf(apiUrl, secret, Operation.GetLedger(sequence, domainid, withValidator, withLeader));
      sent, result := Some(req), Rethrow(AccountFailed, r);
    }

    method GetTransactionHistory(secret: string, domainid: Option<string>, hash: Option<string>,
                                 ledgerSeq: Option<JsNumber>, start: Option<JsNumber>, limit: Option<JsNumber>,
                                 fetch: HttpRequest -> FetchOutcome)
      returns (sent: Option<HttpRequest>, result: Result<string, string>)
      ensures (sent, result)
           == Perform(apiUrl, secret, Operation.GetTransactionHistory(domainid, hash, ledgerSeq, start, limit), fetch)
    {
      var params: Record := [];
      params := Put(params, "domainid", AsText(domainid));
      params := Put(params, "hash", AsText(hash));
      params := Put(params, "ledger_seq", AsNumber(ledgerSeq));
      params := Put(params, "start", AsNumber(start));
      params := Put(params, "limit", AsNumber(limit));
      var req, r := SendGet(secret, "getTransactionHistory", params, fetch);
      assert req == RequestOf(apiUrl, secret, Operation.GetTransactionHistory(domainid, hash, ledgerSeq, start, limit));
      sent, result := Some(req), Rethrow(AccountFailed, r);
    }

    method Query(secret: string, bid: Option<string>, hash: Option<string>, txId: Option<string>,
                 startTime: Option<string>, endTime: Option<string>, txType: Option<JsNumber>,
                 page: JsNumber, pageSize: JsNumber, ledgerSeq: Option<JsNumber>,
                 fetch: HttpRequest -> FetchOutcome)
      returns (sent: Option<HttpRequest>, result: Result<string, string>)
      ensures (sent, result) == Perform(apiUrl, secret,
        Operation.Query(bid, hash, txId, startTime, endTime, txType, page, pageSize, ledgerSeq), fetch)
    {
      var params := [Entry("page", Num(page)), Entry("page_size", Num(pageSize))];
      params := Put(params, "bid", AsText(bid));
      params := Put(params, "hash", AsText(hash));
      params := Put(params, "tx_id", AsText(txId));
      params := Put(params, "start_time", AsText(startTime));
      params := Put(params, "end_time", AsText(endTime));
      params := Put(params, "tx_type", AsNumber(txType));
      params := Put(params, "ledger_seq", AsNumber(ledgerSeq));
      var req, r := SendGet(secret, "query", params, fetch);
      sent, result := Some(req), Rethrow(AccountFailed, r);
    }

    method GetTransactionCache(secret: string, poolType: JsNumber, domainid: Option<string>,
                               limit: Option<JsNumber>, hash: Option<string>, accountAddress: Option<string>,
                               fetch: HttpRequest -> FetchOutcome)
      returns (sent: Option<HttpRequest>, result: Result<string, string>)
      ensures (sent, result) == Perform(apiUrl, secret,
        Operation.GetTransactionCache(poolType, domainid, limit, hash, accountAddress), fetch)
    {
      var params := [Entry("pool_type", Num(poolType))];
      params := Put(params, "domainid", AsText(domainid));
      params := Put(params, "limit", AsNumber(limit));
      params := Put(params, "hash", AsText(hash));
      params := Put(params, "address", AsText(accountAddress));
      var req, r := SendGet(secret, "getTransactionCache", params, fetch);
      sent, result := Some(req), Rethrow(AccountFailed, r);
    }

    method QueryDiscard(secret: string, hash: Option<string>, page: JsNumber, pageSize: JsNumber,
                        fetch: HttpRequest -> FetchOutcome)
      returns (sent: Option<HttpRequest>, result: Result<string, string>)
      ensures (sent, result) == Perform(apiUrl, secret, Operation.QueryDiscard(hash, page, pageSize), fetch)
    {
      var params := [Entry("page", Num(page)), Entry("page_size", Num(pageSize))];
      params := Put(params, "hash", AsText(hash));
      var req, r := SendGet(secret, "query/discard", params, fetch);
      assert req == RequestOf(apiUrl, secret, Operation.QueryDiscard(hash, page, pageSize));
      sent, result := Some(req), Rethrow(AccountFailed, r);
    }

    method GetTxCacheSize(secret: string, fetch: HttpRequest -> FetchOutcome)
      returns (sent: Option<HttpRequest>, result: Result<string, string>)
      ensures (sent, result) == Perform(apiUrl, secret, Operation.GetTxCacheSize, fetch)
    {
      var req, r := SendGet(secret, "getTxCacheSize", [], fetch);
      assert req == RequestOf(apiUrl, secret, Operation.GetTxCacheSize);
      sent, result := Some(req), Rethrow(AccountFailed, r);
    }

    /** `apply` posts to the client's URL itself, without a secret. */
    method Apply(data: Value, fetch: HttpRequest -> FetchOutcome)
      returns (sent: Option<HttpRequest>, result: Result<string, string>)
      ensures forall secret :: (sent, result) == Perform(apiUrl, secret, Operation.Apply(data), fetch)
    {
      var req, r := SendPost("", "", [Entry("data", data)], fetch);
      assert req == RequestOf(apiUrl, "", Operation.Apply(data));
      sent, result := Some(req), Rethrow(AccountFailed, r);
    }

    method SubmitTransaction(secret: string, items: Value, fetch: HttpRequest -> FetchOutcome)
      returns (sent: Option<HttpRequest>, result: Result<string, string>)
      ensures (sent, result) == Perform(apiUrl, secret, Operation.SubmitTransaction(items), fetch)
    {
      var req, r := SendPost(secret, "submitTransaction?lang=zh-cn", [Entry("items", items)], fetch);
      assert req == RequestOf(apiUrl, secret, Operation.SubmitTransaction(items));
      sent, result := Some(req), Rethrow(AccountFailed, r);
    }

    method CallContract(secret: string, contractAddress: string, domainId: Option<string>, input: string,
                        contractBalance: Option<string>, feeLimit: Option<string>, gasPrice: Option<string>,
                        sourceAddress: Option<string>, code: Option<string>, fetch: HttpRequest -> FetchOutcome)
      returns (sent: Option<HttpRequest>, result: Result<string, string>)
      ensures (sent, result) == Perform(apiUrl, secret, Operation.CallContract(contractAddress, domainId, input,
        contractBalance, feeLimit, gasPrice, sourceAddress, code), fetch)
    {
      var params := [Entry("contract_address", Str(contractAddress)), Entry("input", Str(input))];
      params := Put(params, "domain_id", AsText(domainId));
      params := Put(params, "contract_balance", AsText(contractBalance));
      params := Put(params, "fee_limit", AsText(feeLimit));
      params := Put(params, "gas_price", AsText(gasPrice));
      params := Put(params, "source_address", AsText(sourceAddress));
      params := Put(params, "code", AsText(code));
      var req, r := SendPost(secret, "callContract", params, fetch);
      assert req == RequestOf(apiUrl, secret, Operation.CallContract(contractAddress, domainId, input, contractBalance,
                                                                     feeLimit, gasPrice, sourceAddress, code));
      sent, result := Some(req), Rethrow(ContractFailed, r);
    }

    method CreateContract(secret: string, contractCode: string, initInput: Option<string>,
                          contractType: JsNumber, fetch: HttpRequest -> FetchOutcome)
      returns (sent: Option<HttpRequest>, result: Result<string, string>)
      ensures (sent, result)
           == Perform(apiUrl, secret, Operation.CreateContract(contractCode, initInput, contractType), fetch)
    {
      var params := [Entry("contract_code", Str(contractCode)), Entry("type", Num(contractType))];
      params := Put(params, "init_input", AsText(initInput));
      var req, r := SendPost(secret, "account/create/contract", params, fetch);
      assert req == RequestOf(apiUrl, secret, Operation.CreateContract(contractCode, initInput, contractType));
      sent, result := Some(req), Rethrow(ContractFailed, r);
    }

    method AsyncCreateContract(secret: string, contractCode: string, initInput: Option<string>,
                               contractType: JsNumber, fetch: HttpRequest -> FetchOutcome)
      returns (sent: Option<HttpRequest>, result: Result<string, string>)
      ensures (sent, result)
           == Perform(apiUrl, secret, Operation.AsyncCreateContract(contractCode, initInput, contractType), fetch)
    {
      var params := [Entry("contract_code", Str(contractCode)), Entry("type", Num(contractType))];
      params := Put(params, "init_input", AsText(initInput));
      var req, r := SendPost(secret, "account/asyn/create/contract", params, fetch);
      assert req == RequestOf(apiUrl, secret, Operation.AsyncCreateContract(contractCode, initInput, contractType));
      sent, result := Some(req), Rethrow(ContractFailed, r);
    }

    method QueryContractAddress(secret: string, deployHash: string, fetch: HttpRequest -> FetchOutcome)
      returns (sent: Option<HttpRequest>, result: Result<string, string>)
      ensures (sent, result) == Perform(apiUrl, secret, Operation.QueryContractAddress(deployHash), fetch)
    {
      var req, r := SendGet(secret, "tx/query/contractAddress", [Entry("hash", Str(deployHash))], fetch);
      assert req == RequestOf(apiUrl, secret, Operation.QueryContractAddress(deployHash));
      sent, result := Some(req), Rethrow(ContractFailed, r);
    }

    method InvokeContract(secret: string, operations: Value, fetch: HttpRequest -> FetchOutcome)
      returns (sent: Option<HttpRequest>, result: Result<string, string>)
      ensures (sent, result) == Perform(apiUrl, secret, Operation.InvokeContract(operations), fetch)
    {
      var req, r := SendPost(secret, "tx/invoke/contract", [Entry("operations", operations)], fetch);
      assert req == RequestOf(apiUrl, secret, Operation.InvokeContract(operations));
      sent, result := Some(req), Rethrow(ContractFailed, r);
    }

    method AsyncInvokeContract(secret: string, operations: Value, fetch: HttpRequest -> FetchOutcome)
      returns (sent: Option<HttpRequest>, result: Result<string, string>)
      ensures (sent, result) == Perform(apiUrl, secret, Operation.AsyncInvokeContract(operations), fetch)
    {
      var req, r := SendPost(secret, "tx/invoke/contract", [Entry("operations", operations)], fetch);
      assert req == RequestOf(apiUrl, secret, Operation.AsyncInvokeContract(operations));
      sent, result := Some(req), Rethrow(ContractFailed, r);
    }

    method QueryByTxId(secret: string, id: string, fetch: HttpRequest -> FetchOutcome)
      returns (sent: Option<HttpRequest>, result: Result<string, string>)
      ensures (sent, result) == Perform(apiUrl, secret, Operation.QueryByTxId(id), fetch)
    {
      var req, r := SendGet(secret, "tx/queryByTxId", [Entry("tx_id", Str(id))], fetch);
      assert req == RequestOf(apiUrl, secret, Operation.QueryByTxId(id));
      sent, result := Some(req), Rethrow(ContractFailed, r);
    }

    method TestTransaction(secret: string, items: Value, fetch: HttpRequest -> FetchOutcome)
      returns (sent: Option<HttpRequest>, result: Result<string, string>)
      ensures (sent, result) == Perform(apiUrl, secret, Operation.TestTransaction(items), fetch)
    {
      var req, r := SendPost(secret, "testTransaction", [Entry("items", items)], fetch);
      assert req == RequestOf(apiUrl, secret, Operation.TestTransaction(items));
      sent, result := Some(req), Rethrow(ContractFailed, r);
    }
  }
}
