/** The tool catalogue of `src/index.ts` and the checks its `CallToolRequestSchema`
    handler makes before calling the client: from a tool and an argument bag
    to the client URL, secret and operation the handler calls, or to the
    error it throws before calling anything. */
module Tools {
  import opened Wrappers
  import opened JsValues
  import opened Client

  // ---------------------------------------------------------------------------
  // The catalogue

  /** The tools the server lists and dispatches on. */
  datatype Tool =
    | GetAccountTool | GetAccountBaseTool | GetAccountMetaDataTool | GetLedgerTool
    | GetTransactionHistoryTool | QueryTool | GetTransactionCacheTool | QueryDiscardTool
    | GetTxCacheSizeTool | ApplyTool | SubmitTransactionTool | CallContractTool
    | CreateContractTool | AsyncCreateContractTool | QueryContractAddressTool
    | InvokeContractTool | AsyncInvokeContractTool | QueryByTxIdTool | TestTransactionTool

  /** The name a tool is listed and called under. */
  function Name(t: Tool): string {
    match t
    case GetAccountTool => "getAccount"
    case GetAccountBaseTool => "getAccountBase"
    case GetAccountMetaDataTool => "getAccountMetaData"
    case GetLedgerTool => "getLedger"
    case GetTransactionHistoryTool => "getTransactionHistory"
    case QueryTool => "query"
    case GetTransactionCacheTool => "getTransactionCache"
    case QueryDiscardTool => "queryDiscard"
    case GetTxCacheSizeTool => "getTxCacheSize"
    case ApplyTool => "apply"
    case SubmitTransactionTool => "submitTransaction"
    case CallContractTool => "callContract"
    case CreateContractTool => "createContract"
    case AsyncCreateContractTool => "asyncCreateContract"
    case QueryContractAddressTool => "queryContractAddress"
    case InvokeContractTool => "invokeContract"
    case AsyncInvokeContractTool => "asyncInvokeContract"
    case QueryByTxIdTool => "queryByTxId"
    case TestTransactionTool => "testTransaction"
  }

  /** The tool the `ListToolsRequestSchema` handler lists at position `i`. */
  function Listed(i: nat): Tool
    requires i < 19
  {
    match i
    case 0 => GetAccountTool
    case 1 => GetAccountBaseTool
    case 2 => GetAccountMetaDataTool
    case 3 => GetLedgerTool
    case 4 => GetTransactionHistoryTool
    case 5 => QueryTool
    case 6 => GetTransactionCacheTool
    case 7 => QueryDiscardTool
    case 8 => GetTxCacheSizeTool
    case 9 => ApplyTool
    case 10 => SubmitTransactionTool
    case 11 => CallContractTool
    case 12 => CreateContractTool
    case 13 => AsyncCreateContractTool
    case 14 => QueryContractAddressTool
    case 15 => InvokeContractTool
    case 16 => AsyncInvokeContractTool
    case 17 => QueryByTxIdTool
    case _ => TestTransactionTool
  }

  /** The catalogue: the tools in the order they are listed. */
  const Catalogue: seq<Tool> := seq(19, i requires 0 <= i < 19 => Listed(i))

  /** Where the catalogue lists `t`. */
  function Position(t: Tool): (i: nat)
    ensures i < 19 && Listed(i) == t
  {
    match t
    case GetAccountTool => 0
    case GetAccountBaseTool => 1
    case GetAccountMetaDataTool => 2
    case GetLedgerTool => 3
    case GetTransactionHistoryTool => 4
    case QueryTool => 5
    case GetTransactionCacheTool => 6
    case QueryDiscardTool => 7
    case GetTxCacheSizeTool => 8
    case ApplyTool => 9
    case SubmitTransactionTool => 10
    case CallContractTool => 11
    case CreateContractTool => 12
    case AsyncCreateContractTool => 13
    case QueryContractAddressTool => 14
    case InvokeContractTool => 15
    case AsyncInvokeContractTool => 16
    case QueryByTxIdTool => 17
    case TestTransactionTool => 18
  }

  /** The names of `tools`, in order. */
  function Names(tools: seq<Tool>): (names: seq<string>)
    ensures |names| == |tools|
    ensures forall i | 0 <= i < |tools| :: names[i] == Name(tools[i])
  {
    if tools == [] then [] else [Name(tools[0])] + Names(tools[1..])
  }

  /** The `switch (request.params.name)` of the call handler: the tool whose
      `case` a name selects, or none for the `default` branch. */
  function Lookup(name: string): (t: Option<Tool>)
    ensures t.Some? ==> Name(t.value) == name
  {
    if name == "getAccount" then Some(GetAccountTool)
    else if name == "getAccountBase" then Some(GetAccountBaseTool)
    else if name == "getAccountMetaData" then Some(GetAccountMetaDataTool)
    else if name == "getLedger" then Some(GetLedgerTool)
    else if name == "getTransactionHistory" then Some(GetTransactionHistoryTool)
    else if name == "query" then Some(QueryTool)
    else if name == "getTransactionCache" then Some(GetTransactionCacheTool)
    else if name == "queryDiscard" then Some(QueryDiscardTool)
    else if name == "getTxCacheSize" then Some(GetTxCacheSizeTool)
    else if name == "apply" then Some(ApplyTool)
    else if name == "submitTransaction" then Some(SubmitTransactionTool)
    else if name == "callContract" then Some(CallContractTool)
    else if name == "createContract" then Some(CreateContractTool)
    else if name == "asyncCreateContract" then Some(AsyncCreateContractTool)
    else if name == "queryContractAddress" then Some(QueryContractAddressTool)
    else if name == "invokeContract" then Some(InvokeContractTool)
    else if name == "asyncInvokeContract" then Some(AsyncInvokeContractTool)
    else if name == "queryByTxId" then Some(QueryByTxIdTool)
    else if name == "testTransaction" then Some(TestTransactionTool)
    else None
  }

  /** No two tools share a name. */
  lemma NameInjective(a: Tool, b: Tool)
    requires Name(a) == Name(b)
    ensures a == b
  {
  }

  /** No two positions of the catalogue hold the same tool. */
  lemma ListedInjective(i: nat, j: nat)
    requires i < 19 && j < 19 && Listed(i) == Listed(j)
    ensures i == j
  {
  }

  /** Every tool's `case` is reached by its own name. */
  lemma LookupName(t: Tool)
    ensures Lookup(Name(t)) == Some(t)
  {
    var r := Lookup(Name(t));
    assert r.Some?;
    NameInjective(r.value, t);
  }

  /** The catalogue lists every tool, each exactly once, and the listed
      names are pairwise distinct. */
  lemma CatalogueDistinct()
    ensures forall t :: t in Catalogue
    ensures forall i, j | 0 <= i < j < |Catalogue| :: Catalogue[i] != Catalogue[j]
    ensures forall i, j | 0 <= i < j < |Catalogue| :: Names(Catalogue)[i] != Names(Catalogue)[j]
  {
    forall t ensures t in Catalogue {
      assert Catalogue[Position(t)] == t;
    }
    forall i, j | 0 <= i < j < |Catalogue| ensures Names(Catalogue)[i] != Names(Catalogue)[j] {
      if Name(Catalogue[i]) == Name(Catalogue[j]) {
        NameInjective(Catalogue[i], Catalogue[j]);
        ListedInjective(i, j);
      }
    }
  }

  /** A name selects a `case` exactly when the catalogue lists it; every
      other name reaches the `default` branch. */
  lemma LookupIff(name: string)
    ensures Lookup(name).Some? <==> name in Names(Catalogue)
  {
    if Lookup(name).Some? {
      var t := Lookup(name).value;
      assert Names(Catalogue)[Position(t)] == name;
    } else if name in Names(Catalogue) {
      var i :| 0 <= i < |Catalogue| && Names(Catalogue)[i] == name;
      LookupName(Catalogue[i]);
    }
  }

  // ---------------------------------------------------------------------------
  // The argument bag

  /** `typeof v`. */
  function TypeOf(v: Value): string {
    match v
    case Undefined => "undefined"
    case Null => "object"
    case Bool(_) => "boolean"
    case Num(_) => "number"
    case Str(_) => "string"
    case Arr(_) => "object"
    case Obj(_) => "object"
  }

  /** What gets past `!args || typeof args !== 'object'`. */
  predicate ArgsAccepted(args: Value) {
    Truthy(args) && TypeOf(args) == "object"
  }

  /** Exactly objects and arrays get past the guard; `null` does not. */
  lemma ArgsAcceptedIff(args: Value)
    ensures ArgsAccepted(args) <==> args.Obj? || args.Arr?
  {
  }

  /** `args.k`: `undefined` when the property is absent. An array has none of
      the property names the handler reads. */
  function Field(args: Value, k: string): Value {
    if args.Obj? && k in args.fields then args.fields[k] else Undefined
  }

  /** `String(args.k || "").trim()`. */
  function TextArg(args: Value, k: string): string {
    var v := Field(args, k);
    Trim(ToJsString(if Truthy(v) then v else Str("")))
  }

  /** `args.k !== undefined ? String(args.k) : undefined`. */
  function OptTextArg(args: Value, k: string): Option<string> {
    var v := Field(args, k);
    if v.Undefined? then None else Some(ToJsString(v))
  }

  /** `args.k !== undefined ? Number(args.k) : undefined`. */
  function OptNumberArg(args: Value, k: string): Option<JsNumber> {
    var v := Field(args, k);
    if v.Undefined? then None else Some(ToNumber(v))
  }

  /** `args.k !== undefined ? Number(args.k) : fallback`. */
  function NumberArg(args: Value, k: string, fallback: int): JsNumber {
    var v := Field(args, k);
    if v.Undefined? then Int(fallback) else ToNumber(v)
  }

  /** `args.k !== undefined ? Boolean(args.k) : false`. */
  function FlagArg(args: Value, k: string): bool {
    var v := Field(args, k);
    if v.Undefined? then false else Truthy(v)
  }

  /** A required text argument is missing exactly when the property is falsy
      or its string form is all whitespace; what is kept has no surrounding
      whitespace, so trimming it again changes nothing. */
  lemma TextArgEmptyIff(args: Value, k: string)
    ensures var v := Field(args, k);
      TextArg(args, k) == "" <==> !Truthy(v) || AllWhitespace(ToJsString(v))
    ensures Trim(TextArg(args, k)) == TextArg(args, k)
  {
    var v := Field(args, k);
    TrimEmptyIff(ToJsString(if Truthy(v) then v else Str("")));
    TrimIdempotent(ToJsString(if Truthy(v) then v else Str("")));
  }

  /** A supplied number is passed through unchanged, and so is a number
      supplied as its decimal string; only an absent one takes the default. */
  lemma NumberArgDefault(args: Value, k: string, fallback: int)
    ensures Field(args, k).Undefined? ==> NumberArg(args, k, fallback) == Int(fallback)
    ensures Field(args, k).Num? ==> NumberArg(args, k, fallback) == Field(args, k).n
    ensures forall n: JsNumber :: Field(args, k) == Str(ToJsString(Num(n))) ==> NumberArg(args, k, fallback) == n
  {
    forall n: JsNumber | Field(args, k) == Str(ToJsString(Num(n))) ensures NumberArg(args, k, fallback) == n {
      NumberStringRoundTrip(n);
    }
  }

  /** `!x` for a coerced optional number or string: `undefined`, `0`, `NaN`
      and `""` are missing. */
  predicate NumberSet(o: Option<JsNumber>) {
    o.Some? && NumberTruthy(o.value)
  }

  predicate TextSet(o: Option<string>) {
    o.Some? && o.value != ""
  }

  // ---------------------------------------------------------------------------
  // Validation

  const InvalidArguments := "Invalid arguments provided"
  const UnknownTool := "Unknown tool"

  /** The message a missing required argument throws. */
  function Required(field: string): string {
    field + " is required"
  }

  const Host := "https://bif-testnet.bitfactory.cn"

  function BaseUrl(apiKey: string): string {
    Host + "/base/" + apiKey
  }

  function EnhanceUrl(apiKey: string): string {
    Host + "/enhance/" + apiKey
  }

  const ApplyUrl := Host + "/permit/data/apply"

  /** The tools whose client is built on the `/enhance/` URL. */
  predicate UsesEnhance(t: Tool) {
    || t.CreateContractTool? || t.AsyncCreateContractTool? || t.QueryContractAddressTool?
    || t.InvokeContractTool? || t.AsyncInvokeContractTool? || t.QueryByTxIdTool?
  }

  /** What a `case` calls once its checks pass: a client on `apiUrl`, the
      secret, and the operation with its normalised arguments. */
  datatype Call = Call(apiUrl: string, secret: string, op: Operation)

  /** `op` is a call of the client method `tool`'s `case` calls. */
  predicate Invokes(tool: Tool, op: Operation) {
    match tool
    case GetAccountTool => op.GetAccount?
    case GetAccountBaseTool => op.GetAccountBase?
    case GetAccountMetaDataTool => op.GetAccountMetaData?
    case GetLedgerTool => op.GetLedger?
    case GetTransactionHistoryTool => op.GetTransactionHistory?
    case QueryTool => op.Query?
    case GetTransactionCacheTool => op.GetTransactionCache?
    case QueryDiscardTool => op.QueryDiscard?
    case GetTxCacheSizeTool => op.GetTxCacheSize?
    case ApplyTool => op.Apply?
    case SubmitTransactionTool => op.SubmitTransaction?
    case CallContractTool => op.CallContract?
    case CreateContractTool => op.CreateContract?
    case AsyncCreateContractTool => op.AsyncCreateContract?
    case QueryContractAddressTool => op.QueryContractAddress?
    case InvokeContractTool => op.InvokeContract?
    case AsyncInvokeContractTool => op.AsyncInvokeContract?
    case QueryByTxIdTool => op.QueryByTxId?
    case TestTransactionTool => op.TestTransaction?
  }

  /** A `case` from its argument guard to its client call. Every keyed tool
      checks `apiKey` before its own arguments; `apply` reads no key and
      passes no secret. */
  function Validate(tool: Tool, args: Value): Result<Call, string> {
    if !ArgsAccepted(args) then Err(InvalidArguments)
    else if tool.ApplyTool? then
      var data := Field(args, "data");
      if !Truthy(data) then Err(Required("data")) else Ok(Call(ApplyUrl, "", Operation.Apply(data)))
    else
      var apiKey := TextArg(args, "apiKey");
      if apiKey == "" then Err(Required("apiKey"))
      else
        match OperationOf(tool, args)
        case Err(field) => Err(Required(field))
        case Ok(op) =>
          var apiUrl := if UsesEnhance(tool) then EnhanceUrl(apiKey) else BaseUrl(apiKey);
          Ok(Call(apiUrl, TextArg(args, "apiSecret"), op))
  }

  /** The checks and normalisation a keyed tool's `case` makes after the
      `apiKey` check: the operation to call, or the name of the first missing
      argument. The operation is the tool's own, and an account query never
      goes out with an empty address. */
  function OperationOf(tool: Tool, args: Value): (r: Result<Operation, string>)
    requires !tool.ApplyTool?
    ensures r.Ok? ==> Invokes(tool, r.value)
    ensures r.Ok? && r.value.IsAccountQuery() ==> r.value.address != ""
    ensures r.Err? ==> r.error != "apiKey"
  {
    match tool
    case GetAccountTool => GetAccountCall(args)
    case GetAccountBaseTool => GetAccountBaseCall(args)
    case GetAccountMetaDataTool => GetAccountMetaDataCall(args)
    case GetLedgerTool => Ok(GetLedgerCall(args))
    case GetTransactionHistoryTool => Ok(GetTransactionHistoryCall(args))
    case QueryTool => QueryCall(args)
    case GetTransactionCacheTool => GetTransactionCacheCall(args)
    case QueryDiscardTool => Ok(QueryDiscardCall(args))
    case GetTxCacheSizeTool => Ok(Operation.GetTxCacheSize)
    case SubmitTransactionTool => ItemsCall(args, false)
    case CallContractTool => CallContractCall(args)
    case CreateContractTool => CreateContractCall(args, false)
    case AsyncCreateContractTool => CreateContractCall(args, true)
    case QueryContractAddressTool => QueryContractAddressCall(args)
    case InvokeContractTool => InvokeCall(args, false)
    case AsyncInvokeContractTool => InvokeCall(args, true)
    case QueryByTxIdTool => QueryByTxIdCall(args)
    case TestTransactionTool => ItemsCall(args, true)
  }

  function GetAccountCall(args: Value): (r: Result<Operation, string>)
    ensures r.Ok? ==> r.value.GetAccount? && r.value.address != ""
    ensures r.Err? ==> r.error == "address"
  {
    var address := TextArg(args, "address");
    if address == "" then Err("address")
    else Ok(Operation.GetAccount(address, OptTextArg(args, "domainid"), OptNumberArg(args, "height"),
                                 OptTextArg(args, "key")))
  }

  function GetAccountBaseCall(args: Value): (r: Result<Operation, string>)
    ensures r.Ok? ==> r.value.GetAccountBase? && r.value.address != ""
    ensures r.Err? ==> r.error == "address"
  {
    var address := TextArg(args, "address");
    if address == "" then Err("address")
    else Ok(Operation.GetAccountBase(address, OptTextArg(args, "domainid")))
  }

  function GetAccountMetaDataCall(args: Value): (r: Result<Operation, string>)
    ensures r.Ok? ==> r.value.GetAccountMetaData? && r.value.address != ""
    ensures r.Err? ==> r.error == "address"
  {
    var address := TextArg(args, "address");
    if address == "" then Err("address")
    else Ok(Operation.GetAccountMetaData(address, OptTextArg(args, "domainid"), OptTextArg(args, "key")))
  }

  function GetLedgerCall(args: Value): (op: Operation)
    ensures op.GetLedger?
  {
    Operation.GetLedger(OptNumberArg(args, "seq"), OptTextArg(args, "domainid"),
                        Some(FlagArg(args, "with_validator")), Some(FlagArg(args, "with_leader")))
  }

  function GetTransactionHistoryCall(args: Value): (op: Operation)
    ensures op.GetTransactionHistory?
  {
    Operation.GetTransactionHistory(OptTextArg(args, "domainid"), OptTextArg(args, "hash"),
                                    OptNumberArg(args, "ledger_seq"), Some(NumberArg(args, "start", 0)),
                                    Some(NumberArg(args, "limit", 10)))
  }

  function QueryCall(args: Value): (r: Result<Operation, string>)
    ensures r.Ok? ==> r.value.Query?
    ensures r.Err? ==> r.error in {"page", "page_size", "tx_type"}
  {
    var bid := OptTextArg(args, "bid");
    var txId := OptTextArg(args, "tx_id");
    var txType := OptNumberArg(args, "tx_type");
    var page := OptNumberArg(args, "page");
    var pageSize := OptNumberArg(args, "page_size");
    if !NumberSet(page) then Err("page")
    else if !NumberSet(pageSize) then Err("page_size")
    else if (TextSet(bid) || TextSet(txId)) && !NumberSet(txType) then Err("tx_type")
    else Ok(Operation.Query(bid, OptTextArg(args, "hash"), txId, OptTextArg(args, "start_time"),
                            OptTextArg(args, "end_time"), txType, page.value, pageSize.value,
                            OptNumberArg(args, "ledger_seq")))
  }

  function GetTransactionCacheCall(args: Value): (r: Result<Operation, string>)
    ensures r.Ok? ==> r.value.GetTransactionCache?
    ensures r.Err? ==> r.error == "pool_type"
  {
    var poolType := OptNumberArg(args, "pool_type");
    if poolType.None? then Err("pool_type")
    else Ok(Operation.GetTransactionCache(poolType.value, OptTextArg(args, "domainid"),
                                          Some(NumberArg(args, "limit", 100)), OptTextArg(args, "hash"),
                                          OptTextArg(args, "address")))
  }

  function QueryDiscardCall(args: Value): (op: Operation)
    ensures op.QueryDiscard?
  {
    Operation.QueryDiscard(OptTextArg(args, "hash"), NumberArg(args, "page", 1), NumberArg(args, "page_size", 10))
  }

  /** `submitTransaction` and `testTransaction`: `items` is passed as given. */
  function ItemsCall(args: Value, test: bool): (r: Result<Operation, string>)
    ensures r.Ok? ==> if test then r.value.TestTransaction? else r.value.SubmitTransaction?
    ensures r.Err? ==> r.error == "items"
  {
    var items := Field(args, "items");
    if !Truthy(items) then Err("items")
    else if test then Ok(Operation.TestTransaction(items))
    else Ok(Operation.SubmitTransaction(items))
  }

  /** Every string argument of `callContract` is trimmed, so the optional
      ones are always defined, `""` when absent. */
  function CallContractCall(args: Value): (r: Result<Operation, string>)
    ensures r.Ok? ==> r.value.CallContract?
    ensures r.Err? ==> r.error in {"contract_address", "input"}
  {
    var contractAddress := TextArg(args, "contract_address");
    var input := TextArg(args, "input");
    if contractAddress == "" then Err("contract_address")
    else if input == "" then Err("input")
    else Ok(Operation.CallContract(contractAddress, Some(TextArg(args, "domain_id")), input,
                                   Some(TextArg(args, "contract_balance")), Some(TextArg(args, "fee_limit")),
                                   Some(TextArg(args, "gas_price")), Some(TextArg(args, "source_address")),
                                   Some(TextArg(args, "code"))))
  }

  /** `createContract` and `asyncCreateContract`. */
  function CreateContractCall(args: Value, async: bool): (r: Result<Operation, string>)
    ensures r.Ok? ==> if async then r.value.AsyncCreateContract? else r.value.CreateContract?
    ensures r.Err? ==> r.error in {"contract_code", "type"}
  {
    var contractCode := TextArg(args, "contract_code");
    var initInput := Some(TextArg(args, "init_input"));
    var contractType := OptNumberArg(args, "type");
    if contractCode == "" then Err("contract_code")
    else if contractType.None? then Err("type")
    else if async then Ok(Operation.AsyncCreateContract(contractCode, initInput, contractType.value))
    else Ok(Operation.CreateContract(contractCode, initInput, contractType.value))
  }

  function QueryContractAddressCall(args: Value): (r: Result<Operation, string>)
    ensures r.Ok? ==> r.value.QueryContractAddress?
    ensures r.Err? ==> r.error == "hash"
  {
    var hash := TextArg(args, "hash");
    if hash == "" then Err("hash") else Ok(Operation.QueryContractAddress(hash))
  }

  /** `invokeContract` and `asyncInvokeContract`: `operations` is passed as
      given. */
  function InvokeCall(args: Value, async: bool): (r: Result<Operation, string>)
    ensures r.Ok? ==> if async then r.value.AsyncInvokeContract? else r.value.InvokeContract?
    ensures r.Err? ==> r.error == "operations"
  {
    var operations := Field(args, "operations");
    if !Truthy(operations) then Err("operations")
    else if async then Ok(Operation.AsyncInvokeContract(operations))
    else Ok(Operation.InvokeContract(operations))
  }

  function QueryByTxIdCall(args: Value): (r: Result<Operation, string>)
    ensures r.Ok? ==> r.value.QueryByTxId?
    ensures r.Err? ==> r.error == "tx_id"
  {
    var txId := TextArg(args, "tx_id");
    if txId == "" then Err("tx_id") else Ok(Operation.QueryByTxId(txId))
  }

  // ---------------------------------------------------------------------------
  // What validation promises

  /** Anything but an object or an array fails with "Invalid arguments
      provided"; past that guard, a keyed tool fails with "apiKey is
      required" exactly when `apiKey` is absent, falsy or only whitespace. */
  lemma GuardsFirst(tool: Tool, args: Value)
    ensures !(args.Obj? || args.Arr?) ==> Validate(tool, args) == Err(InvalidArguments)
    ensures (args.Obj? || args.Arr?) && !tool.ApplyTool? ==>
      var apiKey := Field(args, "apiKey");
      (Validate(tool, args) == Err(Required("apiKey")) <==> !Truthy(apiKey) || AllWhitespace(ToJsString(apiKey)))
  {
    ArgsAcceptedIff(args);
    TextArgEmptyIff(args, "apiKey");
    if (args.Obj? || args.Arr?) && !tool.ApplyTool? && TextArg(args, "apiKey") != "" {
      var r := OperationOf(tool, args);
      if r.Err? && Required(r.error) == Required("apiKey") {
        RequiredInjective(r.error, "apiKey");
      }
    }
  }

  /** Different missing arguments give different messages. */
  lemma RequiredInjective(f: string, g: string)
    ensures Required(f) == Required(g) <==> f == g
  {
    if Required(f) == Required(g) {
      assert f == Required(f)[..|f|] && g == Required(g)[..|g|];
    }
  }

  /** A call that passes validation goes to the client method of its own
      tool, on the tool's URL, with the trimmed secret (none for `apply`),
      and an account query always carries a non-empty address. */
  lemma ValidatedCall(tool: Tool, args: Value)
    requires Validate(tool, args).Ok?
    ensures var call := Validate(tool, args).value;
      var apiKey := TextArg(args, "apiKey");
      && Invokes(tool, call.op)
      && (tool.ApplyTool? ==> call.apiUrl == ApplyUrl && call.secret == "")
      && (!tool.ApplyTool? ==>
           && apiKey != "" && Trim(apiKey) == apiKey
           && call.apiUrl == (if UsesEnhance(tool) then EnhanceUrl(apiKey) else BaseUrl(apiKey))
           && call.secret == TextArg(args, "apiSecret") && Trim(call.secret) == call.secret)
      && (call.op.IsAccountQuery() ==> call.op.address != "")
  {
    TextArgEmptyIff(args, "apiKey");
    TextArgEmptyIff(args, "apiSecret");
  }

  /** `query` needs a truthy `page` and `page_size` (so `0` and `NaN` are
      refused), and a truthy `tx_type` when `bid` or `tx_id` is a non-empty
      string; with neither, an absent `tx_type` passes. */
  lemma QueryRules(args: Value)
    requires ArgsAccepted(args) && TextArg(args, "apiKey") != ""
    ensures var v := Validate(QueryTool, args);
      var page := OptNumberArg(args, "page");
      var pageSize := OptNumberArg(args, "page_size");
      var keyed := TextSet(OptTextArg(args, "bid")) || TextSet(OptTextArg(args, "tx_id"));
      var txType := OptNumberArg(args, "tx_type");
      && (v == Err(Required("page")) <==> !NumberSet(page))
      && (v == Err(Required("page_size")) <==> NumberSet(page) && !NumberSet(pageSize))
      && (v == Err(Required("tx_type")) <==> NumberSet(page) && NumberSet(pageSize) && keyed && !NumberSet(txType))
      && (v.Ok? <==> NumberSet(page) && NumberSet(pageSize) && (keyed ==> NumberSet(txType)))
      && (v.Ok? ==> NumberTruthy(v.value.op.page) && NumberTruthy(v.value.op.pageSize))
    ensures Field(args, "page") == Num(Int(0)) ==> Validate(QueryTool, args) == Err(Required("page"))
  {
    KeyedOutcome(QueryTool, args);
    Dispatch(QueryTool, args);
    RequiredInjective("page", "page_size");
    RequiredInjective("page", "tx_type");
    RequiredInjective("page_size", "tx_type");
  }

  /** `getTransactionCache` refuses only an absent `pool_type`: any supplied
      value, `0` and `NaN` included, goes through as `Number(pool_type)`;
      `limit` is 100 when absent. */
  lemma TransactionCacheRules(args: Value)
    requires ArgsAccepted(args) && TextArg(args, "apiKey") != ""
    ensures var v := Validate(GetTransactionCacheTool, args);
      && (v == Err(Required("pool_type")) <==> Field(args, "pool_type").Undefined?)
      && (v.Ok? <==> !Field(args, "pool_type").Undefined?)
      && (v.Ok? ==> v.value.op.poolType == ToNumber(Field(args, "pool_type")))
      && (v.Ok? && Field(args, "limit").Undefined? ==> v.value.op.limit == Some(Int(100)))
      && (v.Ok? && Field(args, "limit").Num? ==> v.value.op.limit == Some(Field(args, "limit").n))
  {
    KeyedOutcome(GetTransactionCacheTool, args);
    Dispatch(GetTransactionCacheTool, args);
  }

  /** `getLedger` always sends both flags, `false` when absent. */
  lemma LedgerDefaults(args: Value)
    requires ArgsAccepted(args) && TextArg(args, "apiKey") != ""
    ensures var v := Validate(GetLedgerTool, args);
      && v.Ok?
      && (Field(args, "with_validator").Undefined? ==> v.value.op.withValidator == Some(false))
      && (Field(args, "with_leader").Undefined? ==> v.value.op.withLeader == Some(false))
      && v.value.op.withValidator == Some(Truthy(Field(args, "with_validator")))
      && v.value.op.withLeader == Some(Truthy(Field(args, "with_leader")))
  {
    KeyedOutcome(GetLedgerTool, args);
    Dispatch(GetLedgerTool, args);
  }

  /** `getTransactionHistory` sends `start` 0 and `limit` 10 when they are
      absent, and a supplied number unchanged. */
  lemma HistoryDefaults(args: Value)
    requires ArgsAccepted(args) && TextArg(args, "apiKey") != ""
    ensures var v := Validate(GetTransactionHistoryTool, args);
      var start := Field(args, "start");
      var limit := Field(args, "limit");
      && v.Ok?
      && (start.Undefined? ==> v.value.op.start == Some(Int(0)))
      && (limit.Undefined? ==> v.value.op.limit == Some(Int(10)))
      && (start.Num? ==> v.value.op.start == Some(start.n))
      && (limit.Num? ==> v.value.op.limit == Some(limit.n))
  {
    KeyedOutcome(GetTransactionHistoryTool, args);
    Dispatch(GetTransactionHistoryTool, args);
  }

  /** `queryDiscard` sends `page` 1 and `page_size` 10 when they are absent,
      and a supplied number unchanged. */
  lemma DiscardDefaults(args: Value)
    requires ArgsAccepted(args) && TextArg(args, "apiKey") != ""
    ensures var v := Validate(QueryDiscardTool, args);
      var page := Field(args, "page");
      var pageSize := Field(args, "page_size");
      && v.Ok?
      && (page.Undefined? ==> v.value.op.page == Int(1))
      && (pageSize.Undefined? ==> v.value.op.pageSize == Int(10))
      && (page.Num? ==> v.value.op.page == page.n)
      && (pageSize.Num? ==> v.value.op.pageSize == pageSize.n)
  {
    KeyedOutcome(QueryDiscardTool, args);
    Dispatch(QueryDiscardTool, args);
  }

  /** No "... is required" message reads "Unknown tool". */
  lemma RequiredNotUnknown(field: string)
    ensures Required(field) != UnknownTool
  {
    if |field| == 0 {
      assert Required(field)[0] == ' ';
    }
  }

  /** No argument check throws "Unknown tool": that message is left to the
      `default` branch. */
  lemma ValidateNeverUnknown(tool: Tool, args: Value)
    ensures Validate(tool, args) != Err(UnknownTool)
  {
    if !ArgsAccepted(args) {
    } else if tool.ApplyTool? {
      RequiredNotUnknown("data");
    } else if TextArg(args, "apiKey") == "" {
      RequiredNotUnknown("apiKey");
    } else if OperationOf(tool, args).Err? {
      RequiredNotUnknown(OperationOf(tool, args).error);
    }
  }

  /** Past the argument and `apiKey` guards, a keyed tool's outcome is its
      operation's: the same operation on success, the missing argument's
      message on failure. */
  lemma KeyedOutcome(tool: Tool, args: Value)
    requires !tool.ApplyTool? && ArgsAccepted(args) && TextArg(args, "apiKey") != ""
    ensures var v := Validate(tool, args);
      var r := OperationOf(tool, args);
      && (v.Ok? <==> r.Ok?)
      && (v.Ok? ==> v.value.op == r.value)
      && (v.Err? ==> v.error == Required(r.error))
  {
  }

  /** Which per-tool check a keyed tool runs. */
  lemma Dispatch(tool: Tool, args: Value)
    requires !tool.ApplyTool?
    ensures tool.GetLedgerTool? ==> OperationOf(tool, args) == Ok(GetLedgerCall(args))
    ensures tool.GetTransactionHistoryTool? ==> OperationOf(tool, args) == Ok(GetTransactionHistoryCall(args))
    ensures tool.QueryTool? ==> OperationOf(tool, args) == QueryCall(args)
    ensures tool.GetTransactionCacheTool? ==> OperationOf(tool, args) == GetTransactionCacheCall(args)
    ensures tool.QueryDiscardTool? ==> OperationOf(tool, args) == Ok(QueryDiscardCall(args))
    ensures tool.CallContractTool? ==> OperationOf(tool, args) == CallContractCall(args)
    ensures tool.CreateContractTool? ==> OperationOf(tool, args) == CreateContractCall(args, false)
    ensures tool.AsyncCreateContractTool? ==> OperationOf(tool, args) == CreateContractCall(args, true)
  {
  }

  /** `callContract` needs a non-empty trimmed `contract_address`, then a
      non-empty trimmed `input`; its optional strings are always defined,
      `""` when absent. */
  lemma CallContractRules(args: Value)
    requires ArgsAccepted(args) && TextArg(args, "apiKey") != ""
    ensures var v := Validate(CallContractTool, args);
      var contractAddress := TextArg(args, "contract_address");
      var input := TextArg(args, "input");
      && (v == Err(Required("contract_address")) <==> contractAddress == "")
      && (v == Err(Required("input")) <==> contractAddress != "" && input == "")
      && (v.Ok? <==> contractAddress != "" && input != "")
      && (v.Ok? ==>
            && v.value.op.contractAddress == contractAddress && v.value.op.input == input
            && v.value.op.domainId == Some(TextArg(args, "domain_id"))
            && v.value.op.contractBalance == Some(TextArg(args, "contract_balance"))
            && v.value.op.feeLimit == Some(TextArg(args, "fee_limit"))
            && v.value.op.gasPrice == Some(TextArg(args, "gas_price"))
            && v.value.op.sourceAddress == Some(TextArg(args, "source_address"))
            && v.value.op.code == Some(TextArg(args, "code")))
    ensures Validate(CallContractTool, args).Ok? && Field(args, "domain_id").Undefined? ==>
      Validate(CallContractTool, args).value.op.domainId == Some("")
  {
    KeyedOutcome(CallContractTool, args);
    Dispatch(CallContractTool, args);
    CallContractChecks(args);
    RequiredInjective("input", "contract_address");
    var v := Validate(CallContractTool, args);
    if TextArg(args, "contract_address") == "" {
      assert v == Err(Required("contract_address"));
    } else if TextArg(args, "input") == "" {
      assert v == Err(Required("input"));
    } else {
      assert v.Ok? && v.value.op == CallContractCall(args).value;
    }
  }

  /** `callContract`'s own checks, in order, and what it sends once they
      pass. */
  lemma CallContractChecks(args: Value)
    ensures var r := CallContractCall(args);
      var contractAddress := TextArg(args, "contract_address");
      var input := TextArg(args, "input");
      && (r.Ok? <==> contractAddress != "" && input != "")
      && (r.Err? ==> r.error == if contractAddress == "" then "contract_address" else "input")
      && (r.Ok? ==>
            && r.value.contractAddress == contractAddress && r.value.input == input
            && r.value.domainId == Some(TextArg(args, "domain_id"))
            && r.value.contractBalance == Some(TextArg(args, "contract_balance"))
            && r.value.feeLimit == Some(TextArg(args, "fee_limit"))
            && r.value.gasPrice == Some(TextArg(args, "gas_price"))
            && r.value.sourceAddress == Some(TextArg(args, "source_address"))
            && r.value.code == Some(TextArg(args, "code")))
  {
  }

  /** `createContract` and `asyncCreateContract` need a non-empty trimmed
      `contract_code` and a supplied `type`; `init_input` is always defined. */
  lemma CreateContractRules(tool: Tool, args: Value)
    requires tool.CreateContractTool? || tool.AsyncCreateContractTool?
    requires ArgsAccepted(args) && TextArg(args, "apiKey") != ""
    ensures var v := Validate(tool, args);
      var contractCode := TextArg(args, "contract_code");
      && (v == Err(Required("contract_code")) <==> contractCode == "")
      && (v == Err(Required("type")) <==> contractCode != "" && Field(args, "type").Undefined?)
      && (v.Ok? <==> contractCode != "" && !Field(args, "type").Undefined?)
      && (v.Ok? ==>
            && v.value.op.contractCode == contractCode
            && v.value.op.initInput == Some(TextArg(args, "init_input"))
            && v.value.op.contractType == ToNumber(Field(args, "type")))
  {
    KeyedOutcome(tool, args);
    Dispatch(tool, args);
    RequiredInjective("contract_code", "type");
  }

  /** The tools with one required string refuse exactly an empty trimmed
      value and send the trimmed value. */
  lemma RequiredTextRules(tool: Tool, args: Value)
    requires ArgsAccepted(args) && TextArg(args, "apiKey") != ""
    ensures tool.GetAccountTool? || tool.GetAccountBaseTool? || tool.GetAccountMetaDataTool? ==>
      var v := Validate(tool, args);
      && (v.Ok? <==> TextArg(args, "address") != "")
      && (v.Err? ==> v.error == Required("address"))
      && (v.Ok? ==> v.value.op.address == TextArg(args, "address"))
    ensures tool.QueryContractAddressTool? ==>
      var v := Validate(tool, args);
      && (v.Ok? <==> TextArg(args, "hash") != "")
      && (v.Err? ==> v.error == Required("hash"))
      && (v.Ok? ==> v.value.op.deployHash == TextArg(args, "hash"))
    ensures tool.QueryByTxIdTool? ==>
      var v := Validate(tool, args);
      && (v.Ok? <==> TextArg(args, "tx_id") != "")
      && (v.Err? ==> v.error == Required("tx_id"))
      && (v.Ok? ==> v.value.op.id == TextArg(args, "tx_id"))
  {
  }

  /** The tools that forward a payload (`data`, `items`, `operations`) refuse
      a falsy one and otherwise pass it on as given; `apply` reads no
      `apiKey` at all. */
  lemma PayloadRules(tool: Tool, args: Value)
    requires ArgsAccepted(args)
    ensures tool.ApplyTool? ==>
      var data := Field(args, "data");
      Validate(tool, args) == if Truthy(data) then Ok(Call(ApplyUrl, "", Operation.Apply(data)))
                              else Err(Required("data"))
    ensures tool.SubmitTransactionTool? || tool.TestTransactionTool? ==>
      var v := Validate(tool, args);
      TextArg(args, "apiKey") != "" ==>
        && (v.Ok? <==> Truthy(Field(args, "items")))
        && (v.Err? ==> v.error == Required("items"))
        && (v.Ok? ==> v.value.op.items == Field(args, "items"))
    ensures tool.InvokeContractTool? || tool.AsyncInvokeContractTool? ==>
      var v := Validate(tool, args);
      TextArg(args, "apiKey") != "" ==>
        && (v.Ok? <==> Truthy(Field(args, "operations")))
        && (v.Err? ==> v.error == Required("operations"))
        && (v.Ok? ==> v.value.op.operations == Field(args, "operations"))
  {
  }
}
