/**
 * The network-facing helpers: URI formatting, the price request, the upload
 * of one payload as a signed, tagged, chunked transaction, and the funding of
 * a fresh test key. The network client itself is reduced to the little state
 * these helpers touch: the transaction ids it will hand out, the chunks it has
 * received and the API requests sent to it.
 */
module ArweaveUtils {
  import opened Results
  import opened Constants
  import opened Numbers

  // ---------------------------------------------------------------------------
  // URI formatting
  // ---------------------------------------------------------------------------

  /** The base URL that a transaction on the chosen network is served from. */
  function BaseUrl(isMainnet: bool): (base: string) {
    if isMainnet then ArweaveBaseUrl else ArlocalBaseUrl
  }

  /** The URI of transaction `txn`: the network's base URL followed by the id. */
  function TxnUri(txn: string, isMainnet: bool): (uri: string)
    ensures isMainnet ==> uri == ArweaveBaseUrl + txn
    ensures !isMainnet ==> uri == ArlocalBaseUrl + txn
    ensures |uri| == |BaseUrl(isMainnet)| + |txn|
    ensures uri[..|BaseUrl(isMainnet)|] == BaseUrl(isMainnet)
    ensures uri[|BaseUrl(isMainnet)|..] == txn
  {
    if isMainnet then ArweaveBaseUrl + txn else ArlocalBaseUrl + txn
  }

  /** The reference inverse of `TxnUri`: the id a URI names on the given network, if any. */
  function TxnOfUri(uri: string, isMainnet: bool): (txn: Option<string>) {
    var base := BaseUrl(isMainnet);
    if |base| <= |uri| && uri[..|base|] == base then Some(uri[|base|..]) else None
  }

  /** Formatting then reading back gives the id, and every URI read back formats to itself. */
  lemma TxnUriRoundTrip(txn: string, uri: string, isMainnet: bool)
    ensures TxnOfUri(TxnUri(txn, isMainnet), isMainnet) == Some(txn)
    ensures TxnOfUri(uri, isMainnet) == Some(txn) ==> TxnUri(txn, isMainnet) == uri
  {
    var base := BaseUrl(isMainnet);
    if TxnOfUri(uri, isMainnet) == Some(txn) {
      assert uri == uri[..|base|] + uri[|base|..];
    }
  }

  /** For a fixed network, distinct ids give distinct URIs. */
  lemma TxnUriInjective(a: string, b: string, isMainnet: bool)
    ensures TxnUri(a, isMainnet) == TxnUri(b, isMainnet) ==> a == b
  {
    TxnUriRoundTrip(a, TxnUri(b, isMainnet), isMainnet);
  }

  /** A production URI is never a test-network URI, whatever the two ids. */
  lemma TxnUriTargetsDistinct(a: string, b: string)
    ensures TxnUri(a, true) != TxnUri(b, false)
  {
    assert TxnUri(a, true)[4] == 's';
    assert TxnUri(b, false)[4] == ':';
  }

  // ---------------------------------------------------------------------------
  // Price request
  // ---------------------------------------------------------------------------

  const PricePrefix: string := ArweaveBaseUrl + "price/"

  /** The URL asking the gateway for the price of storing `bytes` bytes. */
  function PriceUrl(bytes: nat): (url: string)
    ensures |PricePrefix| < |url| && url[..|PricePrefix|] == PricePrefix
    ensures url[|PricePrefix|..] == Decimal(bytes)
    ensures ToNumber(url[|PricePrefix|..]) == Num(bytes)
  {
    ToNumberOfDecimal(bytes);
    var url := PricePrefix + Decimal(bytes);
    assert url[|PricePrefix|..] == Decimal(bytes);
    url
  }

  /** Distinct byte counts are asked for under distinct URLs. */
  lemma PriceUrlInjective(a: nat, b: nat)
    ensures PriceUrl(a) == PriceUrl(b) ==> a == b
  {
  }

  /**
   * The price in winstons of storing `bytes` bytes. `get` is the HTTP GET of
   * the price endpoint: it yields the response body or a network failure,
   * which is passed on unchanged.
   */
  function GetArweavePriceForBytesInWinstons(get: string -> Result<string>, bytes: nat): (r: Result<JsNumber>)
    ensures get(PriceUrl(bytes)).Err? ==> r == Err(get(PriceUrl(bytes)).error)
    ensures get(PriceUrl(bytes)).Ok? ==> r == Ok(ToNumber(get(PriceUrl(bytes)).value))
  {
    match get(PriceUrl(bytes))
    case Ok(body) => Ok(ToNumber(body))
    case Err(e) => Err(e)
  }

  /** When the endpoint answers with the decimal text of a price, that price comes back unchanged. */
  lemma PriceBodyReturnedUnchanged(get: string -> Result<string>, bytes: nat, price: nat)
    requires get(PriceUrl(bytes)) == Ok(Decimal(price))
    ensures GetArweavePriceForBytesInWinstons(get, bytes) == Ok(Num(price))
  {
    ToNumberOfDecimal(price);
  }

  // ---------------------------------------------------------------------------
  // Transactions, chunks and the uploader
  // ---------------------------------------------------------------------------

  newtype byte = x: int | 0 <= x < 256

  /** A wallet key, reduced to the address it determines. */
  datatype Key = Key(address: string)

  datatype Tag = Tag(name: string, value: string)

  /** What a signature covers: the key that made it and the tags present when it was made. */
  datatype Signature = Signature(key: Key, tags: seq<Tag>)

  /** Largest chunk the client transmits at once: 256 KiB. */
  const MaxChunkSize: nat := 256 * 1024

  /** The pieces in which `data` is transmitted: full-size chunks and a last, possibly shorter, one. */
  function Chunks(data: seq<byte>): (cs: seq<seq<byte>>)
    ensures |cs| >= 1
    ensures forall i :: 0 <= i < |cs| ==> |cs[i]| <= MaxChunkSize
    ensures forall i :: 0 <= i < |cs| - 1 ==> |cs[i]| == MaxChunkSize
    decreases |data|
  {
    if |data| <= MaxChunkSize then [data]
    else [data[..MaxChunkSize]] + Chunks(data[MaxChunkSize..])
  }

  /** The chunks concatenated in order. */
  function Flatten(cs: seq<seq<byte>>): (data: seq<byte>) {
    if cs == [] then [] else cs[0] + Flatten(cs[1..])
  }

  /** The chunks, put back together, are exactly the payload. */
  lemma {:induction false} FlattenChunks(data: seq<byte>)
    ensures Flatten(Chunks(data)) == data
    decreases |data|
  {
    if |data| > MaxChunkSize {
      var cs := Chunks(data);
      assert cs[1..] == Chunks(data[MaxChunkSize..]);
      FlattenChunks(data[MaxChunkSize..]);
      assert data == data[..MaxChunkSize] + data[MaxChunkSize..];
    }
  }

  class Transaction {
    const id: string
    const owner: Key
    const data: seq<byte>
    var tags: seq<Tag>
    var signature: Option<Signature>

    constructor (id: string, owner: Key, data: seq<byte>)
      ensures this.id == id && this.owner == owner && this.data == data
      ensures tags == [] && signature == None
    {
      this.id := id;
      this.owner := owner;
      this.data := data;
      tags := [];
      signature := None;
    }

    method AddTag(name: string, value: string)
      modifies this
      ensures tags == old(tags) + [Tag(name, value)]
      ensures signature == old(signature)
    {
      tags := tags + [Tag(name, value)];
    }
  }

  /**
   * Sends a transaction's chunks one at a time. `sent` is what the network
   * has received so far; `next` counts the chunks already sent.
   */
  class Uploader {
    const txId: string
    const signature: Option<Signature>  // the transaction's signature when the uploader was made
    const chunks: seq<seq<byte>>
    var next: nat
    var sent: seq<seq<byte>>

    ghost predicate Valid()
      reads this
    {
      next <= |chunks| && sent == chunks[..next]
    }

    /** The upload is complete exactly when every chunk has been sent. */
    predicate IsComplete()
      reads this
      ensures Valid() ==> (IsComplete() <==> sent == chunks)
    {
      next >= |chunks|
    }

    /** The number of chunks still to send. */
    function Remaining(): (n: nat)
      reads this
    {
      if next <= |chunks| then |chunks| - next else 0
    }

    constructor (tx: Transaction)
      ensures txId == tx.id && signature == tx.signature && chunks == Chunks(tx.data)
      ensures next == 0 && sent == [] && Valid() && !IsComplete()
    {
      txId := tx.id;
      signature := tx.signature;
      chunks := Chunks(tx.data);
      next := 0;
      sent := [];
    }

    /** Sends the next chunk of an unfinished upload. */
    method UploadChunk()
      requires Valid() && !IsComplete()
      modifies this
      ensures Valid()
      ensures next == old(next) + 1 && sent == old(sent) + [chunks[old(next)]]
      ensures Remaining() == old(Remaining()) - 1
    {
      sent := sent + [chunks[next]];
      next := next + 1;
    }
  }

  /**
   * The network client. `pendingIds` are the ids the network will give the
   * next transactions it creates; `requests` are the API paths fetched so far.
   */
  class Client {
    var pendingIds: seq<string>
    var requests: seq<string>

    constructor (ids: seq<string>)
      ensures pendingIds == ids && requests == []
    {
      pendingIds := ids;
      requests := [];
    }

    /** A fresh, untagged, unsigned transaction for `data`; fails when the network assigns no id. */
    method CreateTransaction(data: seq<byte>, key: Key) returns (r: Result<Transaction>)
      modifies this
      ensures requests == old(requests)
      ensures old(pendingIds) == [] ==> r.Err? && r.error.NetworkError? && pendingIds == []
      ensures old(pendingIds) != [] ==>
        && r.Ok? && fresh(r.value)
        && r.value.id == old(pendingIds[0]) && r.value.owner == key && r.value.data == data
        && r.value.tags == [] && r.value.signature == None
        && pendingIds == old(pendingIds[1..])
    {
      if pendingIds == [] {
        r := Err(NetworkError("no transaction id assigned"));
      } else {
        var tx := new Transaction(pendingIds[0], key, data);
        pendingIds := pendingIds[1..];
        r := Ok(tx);
      }
    }

    /** Signs `tx` with `key`: the signature covers the tags present now. */
    method Sign(tx: Transaction, key: Key)
      modifies tx
      ensures tx.signature == Some(Signature(key, tx.tags))
      ensures tx.tags == old(tx.tags)
    {
      tx.signature := Some(Signature(key, tx.tags));
    }

    method GetUploader(tx: Transaction) returns (u: Uploader)
      ensures fresh(u)
      ensures u.txId == tx.id && u.signature == tx.signature && u.chunks == Chunks(tx.data)
      ensures u.next == 0 && u.sent == [] && u.Valid()
    {
      u := new Uploader(tx);
    }

    /** An API GET request for `path`. */
    method Get(path: string)
      modifies this
      ensures requests == old(requests) + [path]
      ensures pendingIds == old(pendingIds)
    {
      requests := requests + [path];
    }
  }

  // ---------------------------------------------------------------------------
  // Uploading a payload
  // ---------------------------------------------------------------------------

  /**
   * Creates a transaction for `data`, tags it with its content type, signs it
   * and sends its chunks until the uploader reports completion, then returns
   * the transaction's id. `tx` and `uploader` name the objects it used.
   */
  method UploadDataToArweave(arweave: Client, key: Key, data: seq<byte>, contentType: string)
    returns (r: Result<string>, ghost tx: Transaction?, ghost uploader: Uploader?)
    modifies arweave
    ensures arweave.requests == old(arweave.requests)
    ensures old(arweave.pendingIds) == [] ==> r.Err? && r.error.NetworkError? && arweave.pendingIds == []
    ensures old(arweave.pendingIds) != [] ==>
      && r == Ok(old(arweave.pendingIds[0]))
      && arweave.pendingIds == old(arweave.pendingIds[1..])
      && tx != null && fresh(tx) && tx.id == r.value && tx.owner == key && tx.data == data
      // one tag, the content type, present before signing and so covered by the signature
      && tx.tags == [Tag("Content-Type", contentType)]
      && tx.signature == Some(Signature(key, tx.tags))
      // the uploader was made from the signed transaction and ran to completion
      && uploader != null && fresh(uploader)
      && uploader.txId == tx.id && uploader.signature == tx.signature
      && uploader.Valid() && uploader.IsComplete()
      && uploader.sent == Chunks(data)
      && Flatten(uploader.sent) == data
  {
    tx, uploader := null, null;
    var created := arweave.CreateTransaction(data, key);
    if created.Err? {
      return Err(created.error), tx, uploader;
    }
    var t := created.value;
    tx := t;
    t.AddTag("Content-Type", contentType);
    arweave.Sign(t, key);
    var u := arweave.GetUploader(t);
    uploader := u;
    while !u.IsComplete()
      invariant u.Valid()
      modifies u
      decreases u.Remaining()
    {
      u.UploadChunk();
    }
    assert u.sent == u.chunks;
    FlattenChunks(data);
    r := Ok(t.id);
  }

  // ---------------------------------------------------------------------------
  // Funding a test key
  // ---------------------------------------------------------------------------

  /** The API path that mints `winstons` winstons to the wallet at `address`. */
  function MintPath(address: string, winstons: nat): (path: string)
    ensures |path| > 6 + |address| && path[..6 + |address|] == "mint/" + address + "/"
    ensures path[6 + |address|..] == Decimal(winstons)
    ensures ToNumber(path[6 + |address|..]) == Num(winstons)
  {
    ToNumberOfDecimal(winstons);
    var path := "mint/" + address + "/" + Decimal(winstons);
    assert path[6 + |address|..] == Decimal(winstons);
    path
  }

  /** Mints `numberOfTokens` winstons to the wallet of `key` on a test network. */
  method MintTestWinstonsToKey(arweave: Client, numberOfTokens: nat, key: Key)
    modifies arweave
    ensures arweave.requests == old(arweave.requests) + [MintPath(key.address, numberOfTokens)]
    ensures arweave.pendingIds == old(arweave.pendingIds)
  {
    arweave.Get(MintPath(key.address, numberOfTokens));
  }

  /** The amount minted to every generated test key: 1000 AR. */
  const TestMintWinstons: nat := 1000 * WinstonsPerAr

  /**
   * A new test key, funded with 1000 AR. Key generation is random, so the
   * generated key is passed in as `generated`.
   */
  method GenerateTestKey(arweave: Client, generated: Key) returns (key: Key)
    modifies arweave
    ensures key == generated
    ensures arweave.requests == old(arweave.requests) + [MintPath(key.address, TestMintWinstons)]
    ensures arweave.pendingIds == old(arweave.pendingIds)
  {
    key := generated;
    MintTestWinstonsToKey(arweave, TestMintWinstons, key);
  }
}
