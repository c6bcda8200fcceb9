/**
 * The `CallToolRequestSchema` handler: find the tool by name, run its
 * `case`'s checks, build a `BitFactoryClient` on the tool's URL, call the
 * client method, pretty-print the JSON it returns, and put every failure of
 * the call under the "Get chain account failed: " prefix.
 */
module Server {
  import opened Wrappers
  import opened JsValues
  import opened Client
  import opened Tools
  import ClientProperties

  /** The text content a handled call returns, or the message of the
      `Error` it throws, together with the request it sent, if any.
      `reformat` is `JSON.stringify(JSON.parse(text), null, 2)`: the
      reformatted text, or the message of the `SyntaxError` it throws. */
  function Handle(name: string, args: Value, fetch: HttpRequest -> FetchOutcome,
                  reformat: string -> Result<string, string>): (Option<HttpRequest>, Result<string, string>)
  {
    match Lookup(name)
    case None => (None, Err(UnknownTool))
    case Some(tool) => RunCase(tool, args, fetch, reformat)
  }

  /** One `case` of the `switch`: its checks, then the client call and the
      reformatting inside its `try`, whose `catch` adds the prefix. */
  function RunCase(tool: Tool, args: Value, fetch: HttpRequest -> FetchOutcome,
                   reformat: string -> Result<string, string>): (Option<HttpRequest>, Result<string, string>)
  {
    match Validate(tool, args)
    case Err(message) => (None, Err(message))
    case Ok(call) =>
      var (sent, result) := Perform(call.apiUrl, call.secret, call.op, fetch);
      var shown := if result.Ok? then reformat(result.value) else result;
      (sent, Rethrow(AccountFailed, shown))
  }

  /** The client call a `case` makes, with the operation's arguments. */
  method Invoke(client: BitFactoryClient, secret: string, op: Operation, fetch: HttpRequest -> FetchOutcome)
    returns (sent: Option<HttpRequest>, result: Result<string, string>)
    ensures (sent, result) == Perform(client.apiUrl, secret, op, fetch)
  {
    match op
    case GetAccount(address, domainid, height, key) =>
      sent, result := client.GetAccount(secret, address, domainid, height, key, fetch);
    case GetAccountBase(address, domainid) =>
      sent, result := client.GetAccountBase(secret, address, domainid, fetch);
    case GetAccountMetaData(address, domainid, key) =>
      sent, result := client.GetAccountMetaData(secret, address, domainid, key, fetch);
    case GetLedger(sequence, domainid, withValidator, withLeader) =>
      sent, result := client.GetLedger(secret, sequence, domainid, withValidator, withLeader, fetch);
    case GetTransactionHistory(domainid, hash, ledgerSeq, start, limit) =>
      sent, result := client.GetTransactionHistory(secret, domainid, hash, ledgerSeq, start, limit, fetch);
    case Query(bid, hash, txId, startTime, endTime, txType, page, pageSize, ledgerSeq) =>
      sent, result := client.Query(secret, bid, hash, txId, startTime, endTime, txType, page, pageSize,
                                   ledgerSeq, fetch);
    case GetTransactionCache(poolType, domainid, limit, hash, accountAddress) =>
      sent, result := client.GetTransactionCache(secret, poolType, domainid, limit, hash, accountAddress, fetch);
    case QueryDiscard(hash, page, pageSize) =>
      sent, result := client.QueryDiscard(secret, hash, page, pageSize, fetch);
    case GetTxCacheSize =>
      sent, result := client.GetTxCacheSize(secret, fetch);
    case Apply(data) =>
      sent, result := client.Apply(data, fetch);
    case SubmitTransaction(items) =>
      sent, result := client.SubmitTransaction(secret, items, fetch);
    case CallContract(contractAddress, domainId, input, contractBalance, feeLimit, gasPrice, sourceAddress, code) =>
      sent, result := client.CallContract(secret, contractAddress, domainId, input, contractBalance, feeLimit,
                                          gasPrice, sourceAddress, code, fetch);
    case CreateContract(contractCode, initInput, contractType) =>
      sent, result := client.CreateContract(secret, contractCode, initInput, contractType, fetch);
    case AsyncCreateContract(contractCode, initInput, contractType) =>
      sent, result := client.AsyncCreateContract(secret, contractCode, initInput, contractType, fetch);
    case QueryContractAddress(deployHash) =>
      sent, result := client.QueryContractAddress(secret, deployHash, fetch);
    case InvokeContract(operations) =>
      sent, result := client.InvokeContract(secret, operations, fetch);
    case AsyncInvokeContract(operations) =>
      sent, result := client.AsyncInvokeContract(secret, operations, fetch);
    case QueryByTxId(id) =>
      sent, result := client.QueryByTxId(secret, id, fetch);
    case TestTransaction(items) =>
      sent, result := client.TestTransaction(secret, items, fetch);
  }

  /** The handler itself: the `switch` on the tool name, the `case`'s
      checks, a fresh client on the tool's URL, and the `try`/`catch`
      around the call and the reformatting. */
  method CallTool(name: string, args: Value, fetch: HttpRequest -> FetchOutcome,
                  reformat: string -> Result<string, string>)
    returns (sent: Option<HttpRequest>, result: Result<string, string>)
    ensures (sent, result) == Handle(name, args, fetch, reformat)
  {
    var tool := Lookup(name);
    if tool.None? {
      return None, Err(UnknownTool);
    }
    var call := Validate(tool.value, args);
    if call.Err? {
      return None, Err(call.error);
    }
    var client := new BitFactoryClient(call.value.apiUrl);
    var r;
    sent, r := Invoke(client, call.value.secret, call.value.op, fetch);
    if r.Ok? {
      r := reformat(r.value);
    }
    result := Rethrow(AccountFailed, r);
  }

  /** "Unknown tool" is thrown exactly for a name outside the catalogue, and
      then nothing is sent. */
  lemma UnknownToolIff(name: string, args: Value, fetch: HttpRequest -> FetchOutcome,
                       reformat: string -> Result<string, string>)
    ensures var (sent, result) := Handle(name, args, fetch, reformat);
      && (result == Err(UnknownTool) <==> name !in Names(Catalogue))
      && (name !in Names(Catalogue) ==> sent.None?)
  {
    LookupIff(name);
    var tool := Lookup(name);
    if tool.Some? {
      ValidateNeverUnknown(tool.value, args);
    }
  }

  /** The argument checks run before the `try`: a rejected call sends
      nothing and throws the check's own message, without the handler's
      "Get chain account failed: " prefix. */
  lemma RejectedUnprefixed(name: string, args: Value, fetch: HttpRequest -> FetchOutcome,
                           reformat: string -> Result<string, string>)
    requires Lookup(name).Some? && Validate(Lookup(name).value, args).Err?
    ensures Handle(name, args, fetch, reformat) == (None, Err(Validate(Lookup(name).value, args).error))
  {
  }

  /** A request goes out exactly when the tool is known and its arguments
      pass the `case`'s checks: a validated account query always has an
      address, so the client's own address check never fires. */
  lemma SentIff(name: string, args: Value, fetch: HttpRequest -> FetchOutcome,
                reformat: string -> Result<string, string>)
    ensures var sent := Handle(name, args, fetch, reformat).0;
      sent.Some? <==> Lookup(name).Some? && Validate(Lookup(name).value, args).Ok?
  {
    if Lookup(name).Some? {
      CaseSends(Lookup(name).value, args, fetch, reformat);
    }
  }

  lemma CaseSends(tool: Tool, args: Value, fetch: HttpRequest -> FetchOutcome,
                  reformat: string -> Result<string, string>)
    ensures RunCase(tool, args, fetch, reformat).0.Some? <==> Validate(tool, args).Ok?
  {
    if Validate(tool, args).Ok? {
      var call := Validate(tool, args).value;
      ValidatedCall(tool, args);
      ClientProperties.PerformSendsUnlessNoAddress(call.apiUrl, call.secret, call.op, fetch);
    }
  }

  /** What a validated call sends: the route's endpoint under the tool's
      own URL (the `/enhance/` or `/base/` URL with the trimmed `apiKey`, or
      the apply URL as it is), and the trimmed `apiSecret` in the
      `api-secret` header exactly when it is not empty; `apply` sends no
      secret. */
  lemma SentRequest(tool: Tool, args: Value, fetch: HttpRequest -> FetchOutcome,
                    reformat: string -> Result<string, string>)
    requires Validate(tool, args).Ok?
    ensures var call := Validate(tool, args).value;
      var req := RequestOf(call.apiUrl, call.secret, call.op);
      var apiKey := TextArg(args, "apiKey");
      var secret := TextArg(args, "apiSecret");
      && RunCase(tool, args, fetch, reformat).0 == Some(req)
      && (tool.ApplyTool? ==> Url(req) == ApplyUrl && "api-secret" !in req.headers)
      && (!tool.ApplyTool? ==>
            && (if UsesEnhance(tool) then EnhanceUrl(apiKey) else BaseUrl(apiKey)) + "/" <= req.endpoint
            && ("api-secret" in req.headers <==> secret != "")
            && (secret != "" ==> req.headers["api-secret"] == secret))
  {
    var call := Validate(tool, args).value;
    ValidatedCall(tool, args);
    ClientProperties.PerformOutcome(call.apiUrl, call.secret, call.op, fetch);
    ClientProperties.RequestShape(call.apiUrl, call.secret, call.op);
    if tool.ApplyTool? {
      ClientProperties.ApplyRequest(call.apiUrl, call.secret, call.op.data);
    } else {
      ClientProperties.EndpointUnderApiUrl(call.apiUrl, call.op);
      ClientProperties.HeadersShape(call.secret, RouteOf(call.op).0 == POST);
    }
  }

  /** How a validated call ends: it succeeds exactly when the response is
      ok and its text parses as JSON, and returns the reformatted text; a
      failed request carries both the handler's and the client method's
      prefix before the client's "Query request failed: " message; a body
      that does not parse carries the handler's prefix alone. */
  lemma CallOutcome(tool: Tool, args: Value, fetch: HttpRequest -> FetchOutcome,
                    reformat: string -> Result<string, string>)
    requires Validate(tool, args).Ok?
    ensures var call := Validate(tool, args).value;
      var outcome := fetch(RequestOf(call.apiUrl, call.secret, call.op));
      var fetched := outcome.Response? && IsOkStatus(outcome.status);
      var result := RunCase(tool, args, fetch, reformat).1;
      && (result.Ok? <==> fetched && reformat(outcome.text).Ok?)
      && (result.Ok? ==> result.value == reformat(outcome.text).value)
      && (!fetched ==>
            && result.error == AccountFailed + (ErrorPrefix(call.op) + Classify(outcome).error)
            && QueryFailed <= Classify(outcome).error)
      && (fetched && reformat(outcome.text).Err? ==>
            result.error == AccountFailed + reformat(outcome.text).error)
  {
    var call := Validate(tool, args).value;
    ValidatedCall(tool, args);
    ClientProperties.PerformOutcome(call.apiUrl, call.secret, call.op, fetch);
    ClientProperties.ClassifyShape(fetch(RequestOf(call.apiUrl, call.secret, call.op)));
  }
}
