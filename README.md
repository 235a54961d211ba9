# Arweave NFT uploader — a Dafny model

This project models the core of an uploader that stores NFT images and their
JSON metadata on the Arweave network, and an estimator of what such storage
costs.

- **URI formatting and the upload step** (`ArweaveUtils`): a transaction id
  becomes a URI by prefixing the production gateway URL or the local ArLocal
  URL. A payload is uploaded by creating a transaction, tagging it with its
  `Content-Type`, signing it, and sending chunks until the uploader reports
  completion. The price request URL, and the 1000 AR minted to a fresh test
  key, are modelled as well.
- **The NFT upload orchestrator** (`NftUploader`): for one (image, metadata)
  pair, it uploads the image, writes the image's URI into the metadata's
  `image` field, uploads the rewritten metadata and returns the metadata's
  URI. For a directory, it first checks that there are as many images as
  metadata records. It then processes the pairs strictly in index order and
  returns the metadata URIs in that order.
- **The cost pipeline** (`CostEstimator`): a price in winstons (the smallest
  unit) is divided by 10^12 to give AR. AR times the dollar rate gives
  dollars. The path variants first resolve the path's size, then ask the
  price oracle for exactly that many bytes.

The network client is reduced to state objects:
- `Client` holds the ids the network will assign and the API requests sent.
- `Uploader` holds a transaction's chunks and what has been sent.
- `Collaborators` holds the orchestrator's upload services, as their tests
  set them up. Each service has a queue of ids handed out one per call. It
  also records every call in order: image upload, metadata rewrite, metadata
  upload.

The cost oracles are plain data: a size per path, a quote per byte count and
one rate response. The quote and the rate response may each be a network
failure; the size resolver is total. Every estimate
records its oracle calls in order. Failures are `Result` values:
`CardinalityError`, `ParseError` or `NetworkError`. They are passed on
unchanged and never turned into a partial success.

The implementations of the orchestrator and the estimator
(`src/utils/arweaveNftUploader.ts`, `src/utils/costEstimator.ts`) and their
helpers (`src/utils/dataUploader.ts`, `src/utils/fileUtils.ts`) are not part
of this model. Their behaviour is taken from their tests,
`src/__tests__/arweaveNftUploader.spec.ts` and
`src/__tests__/costEstimator.spec.ts`.

`src/constants.ts` is not part of this model either. `WinstonsPerAr` is
10^12, as the estimator's test states. The base URLs are taken to be
`https://arweave.net/` and `http://localhost:1984/`. Only
`TxnUriTargetsDistinct` depends on those two strings.

The price endpoint's body is converted with unary `+`, which gives NaN for
non-numeric text. The model follows that code (`JsNumber.NaN`) rather than
treating such a body as a network error.

Files: `results.dfy` (errors and results), `constants.dfy`, `numbers.dfy`
(decimal text of numbers and its reading back), `arweave_utils.dfy`,
`nft_uploader.dfy`, `cost_estimator.dfy`.

## Model

| member | source | states |
|---|---|---|
| `ArweaveUtils.TxnUri` | src/utils/arweaveUtils.ts:76-82 | on mainnet the URI is `ARWEAVE_BASE_URL + txn`, otherwise `ARLOCAL_BASE_URL + txn`; the network's base URL is a prefix and `txn` is the rest |
| `ArweaveUtils.TxnUriRoundTrip` | src/utils/arweaveUtils.ts:76-82 | reading a formatted URI back gives the id, and a URI that reads back to an id is that id's formatted URI |
| `ArweaveUtils.TxnUriInjective` | src/utils/arweaveUtils.ts:76-82 | for a fixed network flag, distinct ids give distinct URIs |
| `ArweaveUtils.TxnUriTargetsDistinct` | src/utils/arweaveUtils.ts:77-80 | a production URI never equals a local-network URI |
| `ArweaveUtils.PriceUrl` | src/utils/arweaveUtils.ts:8 | the request URL is `ARWEAVE_BASE_URL + 'price/'` followed by exactly the canonical decimal text of the byte count, `String(bytes)`, which reads back as the byte count |
| `ArweaveUtils.PriceUrlInjective` | src/utils/arweaveUtils.ts:8 | distinct byte counts are requested under distinct URLs |
| `ArweaveUtils.GetArweavePriceForBytesInWinstons` | src/utils/arweaveUtils.ts:7-10 | a failed request is passed on unchanged; otherwise the body goes through unary `+`. What that yields for a real price is stated by `PriceBodyReturnedUnchanged` |
| `ArweaveUtils.PriceBodyReturnedUnchanged` | src/utils/arweaveUtils.ts:7-10 | when the endpoint answers with a price's decimal text, that price is returned unchanged |
| `Numbers.Decimal` | src/utils/arweaveUtils.ts:8 | a number's decimal text is non-empty, all digits, and starts with `0` only for 0 itself |
| `Numbers.DigitsValueOfDecimal` | src/utils/arweaveUtils.ts:8-9 | reading back a number's decimal text gives the number |
| `Numbers.DecimalInjective` | src/utils/arweaveUtils.ts:8 | distinct numbers have distinct decimal texts |
| `Numbers.ToNumber` | src/utils/arweaveUtils.ts:9 | unary `+` gives a number exactly for digit strings (the empty string gives 0) and NaN otherwise |
| `Numbers.ToNumberOfDecimal` | src/utils/arweaveUtils.ts:8-9 | converting a number's decimal text gives the number back |
| `ArweaveUtils.Client.CreateTransaction` | src/utils/arweaveUtils.ts:61 | a fresh, untagged, unsigned transaction for the data and key, with the next id the network assigns; fails when no id is assigned |
| `ArweaveUtils.Transaction.AddTag` | src/utils/arweaveUtils.ts:63 | appends exactly one tag and leaves the signature alone |
| `ArweaveUtils.Client.Sign` | src/utils/arweaveUtils.ts:65 | the signature is made with the key and covers the tags present at signing |
| `ArweaveUtils.Client.GetUploader` | src/utils/arweaveUtils.ts:67 | a fresh uploader for the transaction's id, signature and chunks, with nothing sent |
| `ArweaveUtils.Uploader.constructor` | src/utils/arweaveUtils.ts:67 | a new uploader has sent nothing and is not complete |
| `ArweaveUtils.Uploader.IsComplete` | src/utils/arweaveUtils.ts:69 | the loop guard `uploader.isComplete`: it holds exactly when every chunk has been sent |
| `ArweaveUtils.Uploader.UploadChunk` | src/utils/arweaveUtils.ts:69-71 | on an unfinished upload, sends the next chunk in order, so the remaining count drops by one |
| `ArweaveUtils.Chunks` | src/utils/arweaveUtils.ts:67-71 | a payload is sent as at least one chunk; every chunk but the last is full size and none is larger |
| `ArweaveUtils.FlattenChunks` | src/utils/arweaveUtils.ts:67-71 | the chunks put back together are exactly the payload |
| `ArweaveUtils.UploadDataToArweave` | src/utils/arweaveUtils.ts:55-74 | returns the id of the transaction it created. That transaction carries exactly the `Content-Type` tag with the given value, and is signed with the key after tagging. Its uploader ran to completion, sending every chunk exactly once, in order. Fails, consuming nothing, when no id is assigned |
| `ArweaveUtils.MintPath` | src/utils/arweaveUtils.ts:86 | the mint request path is `'mint/' + address + '/'` followed by exactly the canonical decimal text of the amount, which reads back as the amount |
| `ArweaveUtils.Client.Get` | src/utils/arweaveUtils.ts:86 | an `arweave.api.get` request: the path is appended to the client's requests, and the assigned ids do not change |
| `ArweaveUtils.MintTestWinstonsToKey` | src/utils/arweaveUtils.ts:84-88 | sends exactly one API request, the mint path for the key's address and the amount |
| `ArweaveUtils.GenerateTestKey` | src/utils/arweaveUtils.ts:49-53 | returns the generated key after one mint request, at line 51, for `1000 * WINSTONS_PER_AR` winstons to its address |
| `NftUploader.WithImageUri` | src/__tests__/arweaveNftUploader.spec.ts:50 | the rewritten record's image field holds the URI; its fields are the old ones plus the image field, and every other field is unchanged |
| `NftUploader.Pop` | src/__tests__/arweaveNftUploader.spec.ts:42-43 | a call takes the first queued response and leaves the rest; an exhausted queue fails the call. `PairStepOk` and `RunPairsAllOk` carry what this means for the uploads |
| `NftUploader.Collaborators.constructor` | src/__tests__/arweaveNftUploader.spec.ts:79-104 | the services start with the queued image and metadata ids and no calls recorded |
| `NftUploader.Collaborators.UploadImageFromPath` | src/__tests__/arweaveNftUploader.spec.ts:42 | answers with the next queued image id, records the call, and leaves the metadata queue alone |
| `NftUploader.Collaborators.UploadSingleMetadata` | src/__tests__/arweaveNftUploader.spec.ts:43 | answers with the next queued metadata id, records the call, and leaves the image queue alone |
| `NftUploader.Collaborators.UpdateMetadataWithImageURI` | src/__tests__/arweaveNftUploader.spec.ts:37 | returns the rewritten record, records the call with its arguments, and consumes no id |
| `NftUploader.PairStep` | src/__tests__/arweaveNftUploader.spec.ts:45-51 | one pair only appends to the call record and never removes earlier calls |
| `NftUploader.PairStepOk` | src/__tests__/arweaveNftUploader.spec.ts:37-51 | with ids queued, a pair returns the metadata's formatted URI and takes one id from each queue. Its calls are, in order: the image upload, the rewrite with the image's formatted URI, and the upload of the rewritten record |
| `NftUploader.PairStepMetadataFails` | src/__tests__/arweaveNftUploader.spec.ts:45-51 | when the image upload succeeds and the metadata upload fails (or no metadata id is left), the pair ends with that error. All three calls have been made, and one id is consumed from each queue |
| `NftUploader.PairStepImageFails` | src/__tests__/arweaveNftUploader.spec.ts:45-48 | a failed image upload ends the pair with that error, with no rewrite and no metadata upload |
| `NftUploader.RunPairs` | src/__tests__/arweaveNftUploader.spec.ts:106-112 | after the first k pairs without failure there are exactly k URIs; the call record only grows |
| `NftUploader.RunPairsFailureSticks` | src/__tests__/arweaveNftUploader.spec.ts:106 | after a pair fails, no later pair is attempted, and the calls already made stay recorded |
| `NftUploader.UploadDir` | src/__tests__/arweaveNftUploader.spec.ts:26-32 | with unequal counts it fails with "The count of images does not equal the count of metadata objects.", with no call made and no id consumed; a success has one URI per pair |
| `NftUploader.Uris` | src/__tests__/arweaveNftUploader.spec.ts:112 | the reference list of formatted URIs, position by position. `DirectoryUploadReturnsUrisInOrder` proves the directory upload returns it |
| `NftUploader.DirCalls` | src/__tests__/arweaveNftUploader.spec.ts:108-111 | k successful pairs make exactly 3k calls |
| `NftUploader.RunPairsAllOk` | src/__tests__/arweaveNftUploader.spec.ts:69-112 | with k ids queued for each kind of upload, the first k pairs return the metadata URIs in order, consume exactly k ids from each queue, and make each pair's calls in index order |
| `NftUploader.RewritesAppend` | src/__tests__/arweaveNftUploader.spec.ts:108-111 | the rewrites of two call sequences, joined, are the rewrites of the joined sequence |
| `NftUploader.Rewrites` | src/__tests__/arweaveNftUploader.spec.ts:108-111 | the rewrite calls the spy saw, in call order, which is what `nthCalledWith` indexes: only rewrites, each one a recorded call, and no more of them than calls |
| `NftUploader.RewritesOfPair` | src/__tests__/arweaveNftUploader.spec.ts:50 | a successful pair makes exactly one rewrite, of its record with its image's URI |
| `NftUploader.RewritesOfDirCalls` | src/__tests__/arweaveNftUploader.spec.ts:108-111 | k successful pairs make exactly k rewrites; the i-th rewrites record i with image URI i |
| `NftUploader.DirectoryUploadReturnsUrisInOrder` | src/__tests__/arweaveNftUploader.spec.ts:112 | n matched pairs with n ids queued return exactly the n metadata URIs, in input order, and consume exactly n ids from each queue |
| `NftUploader.DirectoryUploadNthRewrite` | src/__tests__/arweaveNftUploader.spec.ts:108-111 | in the same run the directory upload makes exactly n rewrites; the i-th receives record i and the i-th image's formatted URI |
| `NftUploader.DirectoryUploadCalls` | src/__tests__/arweaveNftUploader.spec.ts:106-111 | an all-successful directory upload makes each pair's three calls, in index order, after the earlier ones |
| `NftUploader.RewritesAfter` | src/__tests__/arweaveNftUploader.spec.ts:108-111 | after any earlier calls, k successful pairs add exactly k rewrites, the i-th of record i with image URI i |
| `NftUploader.ArweaveNftUploader.constructor` | src/__tests__/arweaveNftUploader.spec.ts:17-24 | stores the client, the key and the mainnet flag unchanged |
| `NftUploader.ArweaveNftUploader.UploadSingleImagePathAndMetadataObject` | src/__tests__/arweaveNftUploader.spec.ts:35-52 | the outcome and the services' new state are those of `PairStep` on the old state |
| `NftUploader.ArweaveNftUploader.UploadSingleImagePathAndMetadataPath` | src/__tests__/arweaveNftUploader.spec.ts:54-67 | an unreadable record fails with a parse error and no call; otherwise it delegates with the same image path and the parsed record, and returns the delegate's outcome unchanged |
| `NftUploader.ArweaveNftUploader.UploadImageDirAndFullMetadataFile` | src/__tests__/arweaveNftUploader.spec.ts:69-113 | the outcome and the services' new state are those of `UploadDir` on the old state: pairs processed in index order, URIs gathered in that order |
| `CostEstimator.WinstonsToAr` | src/__tests__/costEstimator.spec.ts:27-34 | the AR amount is winstons / 10^12; equivalently, 10^12 times it gives the winstons back |
| `CostEstimator.ArToWinstons` | src/__tests__/costEstimator.spec.ts:27-34 | the inverse conversion: converting its result to AR gives the input back |
| `CostEstimator.ArToDollars` | src/__tests__/costEstimator.spec.ts:74-75 | the dollar value of an AR amount at a rate. Dividing it by a non-zero rate gives the AR amount back; it is zero when either input is, and non-negative for non-negative inputs |
| `CostEstimator.PriceInWinstons` | src/__tests__/costEstimator.spec.ts:84-97 | exactly one price query, for exactly the given byte count, returning the oracle's quote |
| `CostEstimator.InAr` | src/__tests__/costEstimator.spec.ts:62-64 | `winstonsToAR` applied to a quote, with the same calls. The result is Ok exactly when the quote is, a failure passes through, and converting back gives the quote |
| `CostEstimator.GetCostOfArInDollars` | src/__tests__/costEstimator.spec.ts:17-40 | one rate query, giving the response's `arweave.usd` field or the failure unchanged. `DollarsIsArTimesRate` states its role in the dollar estimates |
| `CostEstimator.InDollars` | src/__tests__/costEstimator.spec.ts:71-82 | an AR failure passes through with no rate query; otherwise one rate query follows. The amount combines AR and the rate as `DollarsIsArTimesRate` states |
| `CostEstimator.GetCostToSavePathToArweaveInWinstons` | src/__tests__/costEstimator.spec.ts:42-55 | the path's size is resolved exactly once, the price is queried once with exactly that byte count, and the quote is returned unchanged |
| `CostEstimator.GetCostToSavePathToArweaveInAr` | src/__tests__/costEstimator.spec.ts:57-69 | the same two calls, and the amount is `winstonsToAR` of the quote (a failure passes through) |
| `CostEstimator.GetCostToSavePathToArweaveInDollars` | src/__tests__/costEstimator.spec.ts:71-82 | the amount is (winstons / 10^12) × rate, after a size resolution, a price query for that size and a rate query. A price failure stops before the rate query. Each failure is returned unchanged |
| `CostEstimator.GetCostToSaveBytesToArweaveInAr` | src/__tests__/costEstimator.spec.ts:84-98 | the price is queried once with exactly the given bytes, and the amount is `winstonsToAR` of the quote |
| `CostEstimator.GetCostToSaveBytesToArweaveInDollars` | src/__tests__/costEstimator.spec.ts:100-110 | the amount is (price(bytes) / 10^12) × rate, after one price query and one rate query. Failures are passed on, and a price failure means no rate query |
| `CostEstimator.PathInArIsWinstonsToAr` | src/__tests__/costEstimator.spec.ts:57-69 | a path's AR cost is `winstonsToAR` of its winston cost, with the same calls |
| `CostEstimator.DollarsIsArTimesRate` | src/__tests__/costEstimator.spec.ts:71-82 | the dollar cost is the AR cost times the dollar value of one AR, for paths and byte counts |
| `CostEstimator.PathCostIsSizeCost` | src/__tests__/costEstimator.spec.ts:42-55 | a path's AR and dollar estimates are one size resolution followed by the byte-count estimate for that size |
| `CostEstimator.CostsWithoutRateIgnoreRate` | src/__tests__/costEstimator.spec.ts:42-69 | the winston and AR costs do not depend on the exchange-rate oracle |
| `CostEstimator.TestValues` | src/__tests__/costEstimator.spec.ts:27-110 | the tests' figures: 500000 winstons are 5e-7 AR; 99999 winstons are 9.9999e-8 AR; 50000 winstons at 30 dollars per AR are 1.5e-6 dollars |

## Left out

- Numbers.Decimal: writes the exact digits of any natural number. JavaScript prints an integer of 10^21 or more in exponent form (`1e+21`), and prints a double above 2^53 with its shortest round-trip digits.
- Numbers.ToNumber: converts a digit string exactly. Unary `+` rounds to the nearest double: above 2^53, "9007199254740993" becomes 9007199254740992.
- ArweaveUtils.PriceBodyReturnedUnchanged: the price comes back unchanged for every natural number. In JavaScript that holds only up to 2^53; larger values are rounded when the body is converted.
- ArweaveUtils.PriceUrl: the byte count is written as exact digits. At 10^21 and above, JavaScript's string conversion writes exponent form instead.
- ArweaveUtils.MintPath: the amount is written as exact digits, with the same difference for very large amounts. The test mint of 10^15 is below 2^53 and is written exactly either way.
- NftUploader.ArweaveNftUploader.constructor: the client and key are stored but not passed to the upload services. The call record does not show which key or client an upload used.
- `connectToArweave` and `connectToLocalArweave` (src/utils/arweaveUtils.ts:12-47) are left out: building the network client and starting ArLocal are I/O. Console logging is left out too.
- Signing is not cryptography here. In the real client a transaction's id comes from its signature; in the model the network assigns the id when the transaction is created.
- ArweaveUtils.Chunks: splits into fixed-size pieces. The real client's chunking (Merkle chunks, last-chunk rebalancing, posting small payloads in the header) is not captured.
- ArweaveUtils.Uploader.UploadChunk: a chunk upload always succeeds. Transport errors and the client's internal retries are not modelled.
- Payloads are byte sequences. Encoding a string payload into bytes is not modelled.
- Numbers.ToNumber: only digit strings convert to numbers. Other forms JavaScript's `+` accepts (whitespace, signs, fractions, exponents, hexadecimal) are NaN in the model.
- ArweaveUtils.GenerateTestKey: key generation is random, so the generated key is a parameter. A key is reduced to its address; deriving the address from the key is not modelled.
- NftUploader.Pop: an exhausted response queue fails the call with a network error. Under the test mocks, the real implementation would be called instead.
- The filesystem is left out. The directory variant takes the image listing and the parsed metadata array as sequences. The single-path variant reads from a map of parseable metadata files; a missing entry stands for an unreadable or malformed file.
- JSON is not modelled. A metadata record is a map from field names to uninterpreted values, so key order is not kept.
- CostEstimator.GetCostToSavePathToArweaveInDollars: without the estimator's source, the model assumes the price is fetched before the rate and that a price failure skips the rate request. Concurrent fetching is not modelled.
- CostEstimator.GetCostToSaveBytesToArweaveInDollars: the same assumption about fetch order.
- CostEstimator.WinstonsToAr: amounts are exact reals. IEEE-754 rounding of the division and of the dollar product is not captured, and neither is NaN passing through the estimator.
- The path size resolver is a total function. Filesystem errors while measuring a path are not modelled.
- Asynchrony is modelled as plain sequential steps. Jest spies and mocks become the call record and the response queues.
