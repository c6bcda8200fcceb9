# bitfactory-mcp request translation, in Dafny

This project models the core of the bitfactory-mcp server. The server is an
MCP server that exposes the BitFactory testnet HTTP API as tools. A tool call
goes through three layers, and the model follows the same layers:

- **The handler (`src/index.ts`).**
  - The `CallToolRequestSchema` handler looks up the tool by name.
  - It checks the argument bag: the `!args || typeof args !== 'object'` guard,
    then `apiKey`, then the tool's own required and conditional arguments.
  - It normalises the arguments: trimming, `Number(...)` and
    `Boolean(...)` conversions, and defaults.
  - It builds a `BitFactoryClient` on the tool's URL: `/base/<apiKey>`,
    `/enhance/<apiKey>`, or the fixed apply URL.
  - It calls one client method and pretty-prints the JSON it returns.
  - Every failure inside its `try` is re-thrown under
    "Get chain account failed: ".
- **The client (`src/client.ts`).**
  - Each operation method builds a parameter record. The required
    properties come first, then each optional argument that is not
    `undefined`.
  - It sends the record through `sendGet` (as an
    `application/x-www-form-urlencoded` query) or `sendPost` (as the JSON
    body), with the `accept`, `Content-Type` and `api-secret` headers.
  - It classifies the response: only a 2xx status succeeds. Failures are
    re-thrown under "Query request failed: " and then under the method's own
    prefix.
- **The standards and JavaScript semantics this relies on.**
  - ToBoolean truthiness, `String(v)`, `Number(v)` and
    `String.prototype.trim`.
  - The form-urlencoded serializer of the WHATWG URL Standard (section 5.2),
    with the section 5.1 parser as its inverse.

Modules:

| file | module | what it holds |
|---|---|---|
| `wrappers.dfy` | `Wrappers` | `Option` and `Result`. |
| `js_values.dfy` | `JsValues` | JavaScript values, truthiness, `trim`, decimal notation, `String(v)` and `Number(v)`. |
| `form_urlencoded.dfy` | `FormUrlEncoded` | UTF-8, the percent-encode set, the serializer and the parser. |
| `client.dfy` | `Client` | Parameter records, requests, responses, and the operations as a datatype with one specification function `Perform`. The `BitFactoryClient` class has one method per client method, each proved equal to `Perform`. |
| `client_properties.dfy` | `ClientProperties` | What every request looks like and how every call ends. |
| `tools.dfy` | `Tools` | The tool catalogue, the `switch`, the argument checks and the defaults (`Validate`). |
| `server.dfy` | `Server` | The handler as a specification function (`Handle`, `RunCase`), the handler as a method (`CallTool`, which creates the client and calls it), and the end-to-end properties. |

`fetch` is a parameter of type `HttpRequest -> FetchOutcome`. A
`FetchOutcome` is a response (status, status text and body text), a
rejection with an `Error`, or a rejection with something else. Similarly,
`JSON.parse` followed by `JSON.stringify(…, null, 2)` is a parameter
`reformat: string -> Result<string, string>`.

## Model

| member | source | states |
|---|---|---|
| JsValues.Truthy | src/index.ts:795-797 | defines ToBoolean: `undefined`, `null`, `false`, `0`, `NaN`, `""` are falsy and everything else, objects and arrays included, is truthy; what the checks make of it is stated by TextArgEmptyIff, QueryRules and PayloadRules |
| JsValues.Trim | src/index.ts:795-797 | defines `String.prototype.trim` over the ECMAScript whitespace and line-terminator set; characterised by TrimShape, TrimEmptyIff and TrimIdempotent |
| JsValues.ToJsString | src/index.ts:798 | defines `String(v)`: numbers in decimal, `NaN` as "NaN", booleans, "null", "undefined", arrays joined with commas, objects as "[object Object]" (an object with an own `toString` key, which makes the source throw, is under "## Left out"); NumberStringRoundTrip and TextArgEmptyIff state its use |
| JsValues.StringToNumber | src/index.ts:799 | defines `Number(s)` on strings: the trimmed decimal integer, 0 for an all-whitespace string, `NaN` otherwise; NumberOfStringRoundTrip inverts `String(i)` with it |
| JsValues.ToNumber | src/index.ts:799 | defines `Number(v)` on every argument value; NumberStringRoundTrip and NumberArgDefault state what reaches the client |
| JsValues.SkipLeadingShape | src/index.ts:795 | the characters `trim` skips at the start are whitespace, and it stops at the first non-whitespace character |
| JsValues.SkipTrailingShape | src/index.ts:795 | the characters `trim` drops at the end are whitespace, and it stops after the last non-whitespace character |
| JsValues.TrimShape | src/index.ts:795-797 | `trim` returns the infix left after dropping the leading and trailing whitespace runs, and that infix neither starts nor ends with whitespace |
| JsValues.TrimEmptyIff | src/index.ts:802-807 | a trimmed string is empty exactly when the original is all whitespace |
| JsValues.NoWhitespaceTrimmed | src/client.ts:29 | a string without whitespace is its own trim |
| JsValues.TrimIdempotent | src/client.ts:29 | trimming a secret the handler already trimmed changes nothing |
| JsValues.NatToDecimal | src/client.ts:57 | the decimal notation of a status code is digits only, without a leading zero |
| JsValues.DecimalRoundTrip | src/client.ts:57 | reading back the decimal notation of a natural number gives the number |
| JsValues.IntToDecimalShape | src/client.ts:57 | `String(i)` starts with `-` exactly for negative `i` and continues with the digits of `abs(i)` |
| JsValues.NumberOfStringRoundTrip | src/index.ts:799 | `Number(String(i)) === i` for every integral number |
| JsValues.NumberStringRoundTrip | src/index.ts:799 | a number passed as its string is converted back to the same number, `NaN` included |
| FormUrlEncoded.Utf8RoundTrip | src/client.ts:37-43 | strict UTF-8 decoding inverts the UTF-8 encoding that `URLSearchParams` percent-encodes |
| FormUrlEncoded.ComponentRoundTrip | src/client.ts:40 | a serialized name or value decodes back to the original string |
| FormUrlEncoded.SerializeEmptyIff | src/client.ts:43-46 | the query string is empty exactly when there are no pairs, so `?` is appended exactly when a parameter is defined |
| FormUrlEncoded.QueryRoundTrip | src/client.ts:36-46 | parsing the serialized query gives back exactly the appended pairs, in order |
| FormUrlEncoded.Serialize | src/client.ts:36-46 | defines the form-urlencoded serializer `URLSearchParams.toString()` applies: UTF-8, bytes outside the safe set as `%XX`, space as `+`, pairs as `name=value` joined by `&`; QueryRoundTrip and SerializeEmptyIff state its properties |
| FormUrlEncoded.Parse | src/client.ts:36-46 | defines the form-urlencoded parser, the independent reading of the query the server receives; QueryRoundTrip proves it recovers the serialized pairs |
| Client.KeysMembership | src/client.ts:153-165 | a key belongs to a record exactly when some property has it |
| Client.AssignSemantics | src/client.ts:157-165 | `params.k = v` adds `k`; a new key is appended at the end, and an existing one keeps its place and gets the value, while every other property keeps its place and its value |
| Client.DistinctKeysIndices | src/client.ts:153-165 | a record has distinct keys exactly when no two positions share a key |
| Client.AppendKeepsDistinct | src/client.ts:157-165 | appending a new key keeps the keys distinct and adds exactly that key |
| Client.AssignKeepsDistinct | src/client.ts:157-165 | assigning a new key keeps the keys distinct |
| Client.PutFresh | src/client.ts:157-165 | `if (o !== undefined) params.k = o` on a new key appends the property exactly when `o` is defined |
| Client.DefinedPairsAppend | src/client.ts:38-42 | the pairs appended to the query keep the order of the properties they come from |
| Client.DefinedPairs | src/client.ts:38-42 | defines the `forEach` filter: the properties whose value is not `undefined`, as `(key, String(value))`, in order; DefinedPairsExact and DefinedQuery state it |
| Client.DefinedPairsExact | src/client.ts:38-42 | every pair in the query comes from a defined property, and every defined property (`0`, `false`, `null` and `""` included) is in it as `(key, String(value))`; nothing is dropped exactly when no property is `undefined` |
| Client.RouteOf | src/client.ts:146-747 | defines the route table, the HTTP method and path of each method's `sendGet` or `sendPost` call; its contract states that only `apply` (src/client.ts:511-527) posts to the client URL without a path |
| Client.Classify | src/client.ts:54-67 | defines the `response.ok` test and the `catch` of `sendGet` and `sendPost` (also src/client.ts:100-113); ClassifyShape and StatusReadBack state every outcome |
| Client.ParamsOf | src/client.ts:146-747 | defines each method's record as its sequence of `params.k = v` steps; ParamsOfLayout proves it equal to ParamsLayout |
| Client.ParamsLayout | src/client.ts:146-747 | the independent statement of each record's layout: required properties, then each defined optional one, in argument order |
| Client.RequestOf | src/client.ts:146-747 | defines the request each method sends; RequestShape, EndpointUnderApiUrl and ApplyRequest state its shape |
| Client.Perform | src/client.ts:146-747 | defines what each method sends and returns, the specification each `BitFactoryClient` method is proved equal to; PerformSendsUnlessNoAddress and PerformOutcome state its outcomes |
| Client.BitFactoryClient.constructor | src/client.ts:13-15 | the client keeps the URL it is built with |
| Client.BitFactoryClient.SendGet | src/client.ts:22-68 | the request is a GET to `apiUrl[/path]` with the defined parameters as its query and the `accept` and optional `api-secret` headers; the result is the classification of the response |
| Client.BitFactoryClient.DefinedQuery | src/client.ts:36-42 | the `forEach` loop appends exactly the defined parameters, in order, as `String(value)` |
| Client.BitFactoryClient.SendPost | src/client.ts:78-114 | the request is a POST to `apiUrl[/path]` without a query, adds `Content-Type: application/json`, and carries the record unchanged as its body |
| Client.BitFactoryClient.GetAccount | src/client.ts:146-180 | refuses an empty address before sending; otherwise GETs `getAccount` with `address`, then `domainid`, `height` and `key` when defined; failures under "Get chain account failed: " |
| Client.BitFactoryClient.GetAccountBase | src/client.ts:189-217 | the same for `getAccountBase` with `address` and `domainid` |
| Client.BitFactoryClient.GetAccountMetaData | src/client.ts:227-258 | the same for `getAccountMetaData` with `address`, `domainid` and `key` |
| Client.BitFactoryClient.GetLedger | src/client.ts:268-299 | GETs `getLedger` with `seq`, `domainid`, `with_validator` and `with_leader` when defined |
| Client.BitFactoryClient.GetTransactionHistory | src/client.ts:310-344 | GETs `getTransactionHistory` with `domainid`, `hash`, `ledger_seq`, `start` and `limit` when defined |
| Client.BitFactoryClient.Query | src/client.ts:360-402 | GETs `query` with `page` and `page_size`, then each defined optional filter |
| Client.BitFactoryClient.GetTransactionCache | src/client.ts:415-448 | GETs `getTransactionCache` with `pool_type`, then `domainid`, `limit`, `hash` and `address` when defined |
| Client.BitFactoryClient.QueryDiscard | src/client.ts:458-483 | GETs `query/discard` with `page` and `page_size`, and `hash` when defined |
| Client.BitFactoryClient.GetTxCacheSize | src/client.ts:490-504 | GETs `getTxCacheSize` without parameters |
| Client.BitFactoryClient.Apply | src/client.ts:511-527 | POSTs `{data}` to the client URL itself, without a secret |
| Client.BitFactoryClient.SubmitTransaction | src/client.ts:529-547 | POSTs `{items}` to `submitTransaction?lang=zh-cn`; failures under "Get chain account failed: ", like `apply`, not under the contract prefix |
| Client.BitFactoryClient.CallContract | src/client.ts:549-587 | POSTs `contract_address` and `input`, then each defined optional field, to `callContract` |
| Client.BitFactoryClient.CreateContract | src/client.ts:589-612 | POSTs `contract_code` and `type`, and `init_input` when defined, to `account/create/contract` |
| Client.BitFactoryClient.AsyncCreateContract | src/client.ts:614-637 | the same body to `account/asyn/create/contract` |
| Client.BitFactoryClient.QueryContractAddress | src/client.ts:639-659 | GETs `tx/query/contractAddress` with `hash` |
| Client.BitFactoryClient.InvokeContract | src/client.ts:661-681 | POSTs `{operations}` to `tx/invoke/contract` |
| Client.BitFactoryClient.AsyncInvokeContract | src/client.ts:683-703 | POSTs `{operations}` to the same path as `invokeContract` |
| Client.BitFactoryClient.QueryByTxId | src/client.ts:705-725 | GETs `tx/queryByTxId` with `tx_id` |
| Client.BitFactoryClient.TestTransaction | src/client.ts:727-747 | POSTs `{items}` to `testTransaction` |
| ClientProperties.ParamsOfLayout | src/client.ts:146-747 | every method's record is its documented layout (required properties, then each defined optional one, in argument order) and has distinct keys |
| ClientProperties.KeyNamesDistinct | src/client.ts:360-402 | the property names each method uses are pairwise distinct |
| ClientProperties.GetAccountLayoutAgrees | src/client.ts:153-165 | `getAccount`'s record is its layout, with distinct keys |
| ClientProperties.GetAccountBaseLayoutAgrees | src/client.ts:189-217 | the same for `getAccountBase` |
| ClientProperties.GetAccountMetaDataLayoutAgrees | src/client.ts:227-258 | the same for `getAccountMetaData` |
| ClientProperties.GetLedgerLayoutAgrees | src/client.ts:268-299 | the same for `getLedger` |
| ClientProperties.GetTransactionHistoryLayoutAgrees | src/client.ts:310-344 | the same for `getTransactionHistory` |
| ClientProperties.QueryLayoutAgrees | src/client.ts:360-402 | the same for `query` |
| ClientProperties.GetTransactionCacheLayoutAgrees | src/client.ts:415-448 | the same for `getTransactionCache` |
| ClientProperties.QueryDiscardLayoutAgrees | src/client.ts:458-483 | the same for `queryDiscard` |
| ClientProperties.CallContractLayoutAgrees | src/client.ts:549-587 | the same for `callContract` |
| ClientProperties.CreateContractLayoutAgrees | src/client.ts:589-637 | the same for `createContract` and `asyncCreateContract` |
| ClientProperties.GetUrlShape | src/client.ts:32-47 | a GET URL is `apiUrl[/path]` alone when no parameter is defined, and otherwise is followed by `?` and a query that parses back to exactly the defined pairs |
| ClientProperties.NoQueryIff | src/client.ts:38-46 | there is no query exactly when every parameter is `undefined` |
| ClientProperties.PostUrlShape | src/client.ts:89-92 | a POST URL never has a query |
| ClientProperties.HeadersShape | src/client.ts:24-30 | `accept` is always sent; `api-secret` is sent exactly when the secret is non-empty, trimmed; `Content-Type` is sent exactly on a POST; nothing else |
| ClientProperties.ClassifyShape | src/client.ts:54-67 | a call succeeds exactly on a 2xx response and returns its text unchanged; every failure starts with "Query request failed: " |
| ClientProperties.ClassifyMessages | src/client.ts:62-66 | a network error fails with "Query request failed: " and its own message; a thrown non-`Error` fails with "Query request failed: Unknown error" |
| ClientProperties.StatusReadBack | src/client.ts:56-58 | the failure message of a response that is not ok: after its fixed words comes the status in decimal, which reads back as the status, then `": "` and the status text, then `"\nResponse: "` and the literal body |
| ClientProperties.PerformSendsUnlessNoAddress | src/client.ts:149-151 | a method sends nothing exactly when it is an account query with an empty address, and then fails with "Account address is required" |
| ClientProperties.RequestShape | src/client.ts:167-171 | every request uses its route's method and path, the secret (none for `apply`), and the record as query (GET) or body (POST) |
| ClientProperties.EndpointUnderApiUrl | src/client.ts:32-35 | every endpoint except `apply`'s lies under `apiUrl/`; `apply`'s is `apiUrl` itself |
| ClientProperties.ApplyRequest | src/client.ts:511-527 | `apply` POSTs `{data}` to `apiUrl` without `api-secret`, whatever secret it is given |
| ClientProperties.PerformOutcome | src/client.ts:174-179 | once sent, a method succeeds exactly on an ok response; otherwise its error is the client failure under the method's prefix |
| Tools.Position | src/index.ts:43-748 | every tool is listed in the catalogue |
| Tools.Names | src/index.ts:43-748 | the listed names, one per tool, in order |
| Tools.Lookup | src/index.ts:755-1532 | a name selects only the tool listed under that name |
| Tools.NameInjective | src/index.ts:789-1494 | no two `case`s share a name |
| Tools.LookupName | src/index.ts:789-1494 | each tool's `case` is reached by its own name |
| Tools.CatalogueDistinct | src/index.ts:43-748 | the catalogue lists every tool exactly once, under pairwise distinct names |
| Tools.LookupIff | src/index.ts:1531-1532 | a name reaches a `case` exactly when the catalogue lists it |
| Tools.ArgsAcceptedIff | src/index.ts:791-793 | exactly objects and arrays get past the argument guard; `null` does not |
| Tools.TextArgEmptyIff | src/index.ts:795-797 | `String(args.k \|\| "").trim()` is empty exactly when the property is falsy or all whitespace, and the result is already trimmed |
| Tools.NumberArgDefault | src/index.ts:953-954 | an absent number takes the default; a supplied number, or its string, passes through unchanged |
| Tools.TextArg | src/index.ts:795-797 | defines `String(args.k \|\| "").trim()`; TextArgEmptyIff states when it is empty |
| Tools.OptTextArg | src/index.ts:798 | defines `args.k !== undefined ? String(args.k) : undefined` |
| Tools.OptNumberArg | src/index.ts:799 | defines `args.k !== undefined ? Number(args.k) : undefined` |
| Tools.NumberArg | src/index.ts:953-954 | defines a number argument with a default; NumberArgDefault states it |
| Tools.FlagArg | src/index.ts:915-916 | defines `args.k !== undefined ? Boolean(args.k) : false`; LedgerDefaults states it |
| Tools.Validate | src/index.ts:789-1529 | defines each `case` up to the client call: the argument guard, `apiKey`, the tool's own checks and the client URL and secret; GuardsFirst, ValidatedCall and the rules lemmas state it |
| Tools.GetAccountCall | src/index.ts:797-807 | refuses an empty trimmed `address` and otherwise passes it |
| Tools.GetAccountBaseCall | src/index.ts:829-866 | the same checks for `getAccountBase` |
| Tools.GetAccountMetaDataCall | src/index.ts:867-904 | the same checks for `getAccountMetaData` |
| Tools.GetLedgerCall | src/index.ts:905-941 | `getLedger`'s arguments, with both flags defaulted; LedgerDefaults states them |
| Tools.GetTransactionHistoryCall | src/index.ts:942-979 | `getTransactionHistory`'s arguments; HistoryDefaults states them |
| Tools.QueryCall | src/index.ts:980-1034 | `query`'s checks and arguments; QueryRules states them |
| Tools.GetTransactionCacheCall | src/index.ts:1035-1075 | `getTransactionCache`'s checks and arguments; TransactionCacheRules states them |
| Tools.QueryDiscardCall | src/index.ts:1076-1111 | `queryDiscard`'s arguments; DiscardDefaults states them |
| Tools.ItemsCall | src/index.ts:1176-1213 | `submitTransaction` and `testTransaction` refuse falsy `items`; PayloadRules states it |
| Tools.CallContractCall | src/index.ts:1214-1261 | `callContract`'s checks and arguments; CallContractRules states them |
| Tools.CreateContractCall | src/index.ts:1262-1345 | the checks and arguments of both create tools; CreateContractRules states them |
| Tools.QueryContractAddressCall | src/index.ts:1346-1382 | refuses an empty trimmed `hash`; RequiredTextRules states it |
| Tools.InvokeCall | src/index.ts:1383-1456 | both invoke tools refuse falsy `operations`; PayloadRules states it |
| Tools.QueryByTxIdCall | src/index.ts:1457-1493 | refuses an empty trimmed `tx_id`; RequiredTextRules states it |
| Tools.OperationOf | src/index.ts:789-1529 | a passing tool calls its own client method, and an account query never goes out with an empty address |
| Tools.GuardsFirst | src/index.ts:791-804 | a non-object is refused with "Invalid arguments provided" before anything else; for an accepted bag, "apiKey is required" is thrown exactly when `apiKey` is falsy or all whitespace |
| Tools.RequiredInjective | src/index.ts:803-806 | the "… is required" messages name exactly one argument each |
| Tools.ValidatedCall | src/index.ts:795-809 | a passing call runs the tool's method on the enhance or base URL for the trimmed non-empty `apiKey` with the trimmed `apiSecret`; `apply` uses the fixed URL and no secret |
| Tools.QueryRules | src/index.ts:994-1012 | `query` needs truthy `page` and `page_size` (so `0` and `NaN` fail), and a truthy `tx_type` exactly when `bid` or `tx_id` is non-empty |
| Tools.TransactionCacheRules | src/index.ts:1042-1054 | `getTransactionCache` refuses only an absent `pool_type`, forwards `Number(pool_type)`, and defaults `limit` to 100 |
| Tools.LedgerDefaults | src/index.ts:915-916 | `getLedger` always sends both flags, as `Boolean(...)`, and `false` when absent |
| Tools.HistoryDefaults | src/index.ts:953-954 | `getTransactionHistory` defaults `start` to 0 and `limit` to 10, and passes supplied numbers through |
| Tools.DiscardDefaults | src/index.ts:1085-1086 | `queryDiscard` defaults `page` to 1 and `page_size` to 10, and passes supplied numbers through |
| Tools.ValidateNeverUnknown | src/index.ts:1531-1532 | no argument check throws "Unknown tool" |
| Tools.CallContractRules | src/index.ts:1220-1239 | `callContract` needs a non-empty trimmed `contract_address`, then `input`; each optional string (`domain_id`, `contract_balance`, `fee_limit`, `gas_price`, `source_address`, `code`) is always sent as its trimmed text, which is `""` when absent |
| Tools.CreateContractRules | src/index.ts:1268-1282 | both create tools need a non-empty `contract_code` and a supplied `type`, and always send `init_input` |
| Tools.RequiredTextRules | src/index.ts:797-807 | the account tools, `queryContractAddress` and `queryByTxId` refuse exactly an empty trimmed `address`, `hash` or `tx_id`, and send the trimmed value |
| Tools.PayloadRules | src/index.ts:1151-1156 | `apply`, the transaction tools and the invoke tools refuse a falsy payload and forward it as given; `apply` reads no `apiKey` |
| Server.Handle | src/index.ts:754-1534 | defines the handler: the `switch` on the name, then the `case`; CallTool computes it, and UnknownToolIff, RejectedUnprefixed, SentIff, SentRequest and CallOutcome state it |
| Server.RunCase | src/index.ts:789-828 | defines one `case` (each follows this shape): its checks, then the client call and `JSON.parse` inside the `try` whose `catch` adds "Get chain account failed: " |
| Server.Invoke | src/index.ts:812 | each `case` calls the client method of its operation with its arguments, as `Perform` specifies |
| Server.CallTool | src/index.ts:754-1534 | the handler (switch, checks, new client, call, reformatting, catch) computes `Handle` |
| Server.UnknownToolIff | src/index.ts:1531-1532 | "Unknown tool" is thrown exactly for a name outside the catalogue, and then nothing is sent |
| Server.RejectedUnprefixed | src/index.ts:791-807 | a call whose checks fail sends nothing and throws the check's own message, without the handler's prefix, because the checks run before the `try` |
| Server.SentIff | src/index.ts:789-812 | a request goes out exactly when the tool is known and its checks pass |
| Server.CaseSends | src/index.ts:789-812 | within one `case`, a request goes out exactly when its checks pass |
| Server.SentRequest | src/index.ts:809-812 | a validated call goes to its endpoint under the base or enhance URL for its `apiKey`, with `api-secret` exactly when the trimmed `apiSecret` is non-empty; `apply` goes to the fixed URL without a secret |
| Server.CallOutcome | src/index.ts:811-826 | a validated call succeeds exactly when the response is ok and parses as JSON; a failed request carries both prefixes before the client's message; an unparsable body carries the handler's prefix alone |

## Left out

- The network, `fetch` and `response.text()` are a parameter of the model.
  So are timing and `async`: every call is modelled as completing in order.
- The MCP transport, the server object, `main` and stdio are not modelled.
  Neither are the tool descriptions and JSON input schemas of the
  `ListToolsRequestSchema` handler; only the tool names and their order are.
- `JSON.parse` and `JSON.stringify` are not modelled:
  - the handler's reformatting is the parameter `reformat`;
  - the POST body is the record handed to `JSON.stringify`, not its string.
- Numbers are integers or `NaN`. `Number(s)` accepts only trimmed decimal
  integers, with `""` giving 0 and anything else `NaN`. Fractions,
  exponents, hexadecimal and `Infinity` are not modelled.
- Numbers are exact and unbounded, while JavaScript numbers are IEEE 754
  doubles. From 2^53 on, `Number(s)` rounds: `Number("9007199254740993")` is
  9007199254740992. From 10^21 on, `String(n)` uses exponent notation
  (`"1e+21"`). The model keeps the exact value and plain digits, so a
  `height`, `seq`, `limit` or other number argument that large goes out
  differently from the source.
- Strings are sequences of Unicode scalar values. A JavaScript string may
  hold a lone UTF-16 surrogate, which `URLSearchParams` sends as U+FFFD.
  The model has no such strings.
- JsValues.ToJsString, JsValues.ToNumber: an object argument converts as a
  plain object: `String(v)` gives `"[object Object]"` and `Number(v)` gives
  `NaN`. This holds only when the object has no own `toString` key. A JSON
  object with such a key (`{"toString": "x"}`) cannot be converted to a
  primitive. `String(v)` and `Number(v)` then throw a `TypeError`, and so
  does joining an array that holds such an object. Every `String(args.x)`
  and `Number(args.x)` of the handler runs before its checks and outside its
  `try`. In the source, such an argument therefore makes the call throw
  that unprefixed `TypeError` before any request is sent. The model instead
  converts it and goes on; for `apiKey` it sends to
  `…/base/[object Object]/…`.
- An array argument bag has none of the properties the handler reads. Array
  own-properties such as `length` are not modelled.
- `Object.entries` lists integer-like keys first. The model keeps insertion
  order, which is the same for every key the client uses.
- The client's `hello` method (src/client.ts:121-135) and the handler's
  `hello` case (src/index.ts:756-787) are not modelled; the case is
  commented out in the source.
- The handler's `'Get chain account failed: Unknown error'` branch
  (src/index.ts:1525-1526 and the like) is not modelled. Every client method
  throws an `Error`, and so does `JSON.parse`, so that branch cannot be
  reached in the modelled calls.
- Client.BitFactoryClient.Apply: states the request for every secret,
  because `apply` never passes one.

Where the source and its written description differ, the model follows the
source:

- `sendGet` and `sendPost` add `api-secret` when the untrimmed secret is
  non-empty. A secret of spaces is therefore sent as an empty header
  (`HeadersShape`). The handler trims `apiSecret` first, so end to end
  (`SentRequest`) the header is present exactly when the trimmed secret is
  non-empty.
- `callContract` and `testTransaction` use the `/base/` URL, not
  `/enhance/`. The `/enhance/` tools are `createContract`,
  `asyncCreateContract`, `queryContractAddress`, `invokeContract`,
  `asyncInvokeContract` and `queryByTxId`.
- A failure inside a `case` is re-thrown under "Get chain account failed: "
  for every tool, on top of the client method's own prefix.
